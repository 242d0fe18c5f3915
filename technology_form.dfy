/** The "Add New Technology" modal: a four-field form reset whenever it is
    opened, with a live preview of the logo URL that remembers whether the
    image failed to load. */
module TechnologyForm {
  import opened Common
  import opened Entities

  /** The inputs of the form, by their `name` attribute. */
  datatype TechField = Name | LogoUrl | OfficialSiteUrl | CategoryId

  /** The form's state and the payload it submits. `categoryId` is the
      select's value, which the DOM always reports as text. */
  datatype TechDraft = TechDraft(name: string, logoUrl: string, officialSiteUrl: string, categoryId: string)
  {
    /** The value of one input. */
    function Get(field: TechField): string
    {
      match field
      case Name => name
      case LogoUrl => logoUrl
      case OfficialSiteUrl => officialSiteUrl
      case CategoryId => categoryId
    }

    /** `{ ...prev, [name]: value }`: the named field takes the value and
        every other field keeps its own. */
    function With(field: TechField, value: string): (r: TechDraft)
      ensures r.Get(field) == value
      ensures forall other :: other != field ==> r.Get(other) == Get(other)
    {
      match field
      case Name => this.(name := value)
      case LogoUrl => this.(logoUrl := value)
      case OfficialSiteUrl => this.(officialSiteUrl := value)
      case CategoryId => this.(categoryId := value)
    }
  }

  /** The form as reset on opening: blank text, and the first category
      preselected, or no category when there is none. */
  function ResetDraft(categories: seq<Category>): (r: TechDraft)
    ensures r.name == "" && r.logoUrl == "" && r.officialSiteUrl == ""
    ensures categories != [] ==> r.categoryId == categories[0].id
    ensures categories == [] ==> r.categoryId == ""
  {
    TechDraft("", "", "", if |categories| > 0 then categories[0].id else "")
  }

  /** What the logo preview block shows. */
  datatype Preview = Hidden | LogoImage | LoadError

  class TechnologyForm {
    var formData: TechDraft
    var imageError: bool

    constructor ()
      ensures formData == TechDraft("", "", "", "") && !imageError
    {
      formData := TechDraft("", "", "", "");
      imageError := false;
    }

    /** The reset effect's body: when open, every field is reset (first
        category preselected) and the image error cleared; while closed
        nothing changes. */
    method ResetEffect(isOpen: bool, categories: seq<Category>)
      modifies this
      ensures isOpen ==> formData == ResetDraft(categories) && !imageError
      ensures !isOpen ==> formData == old(formData) && imageError == old(imageError)
    {
      if isOpen {
        formData := ResetDraft(categories);
        imageError := false;
      }
    }

    /** `handleChange`: the named field takes the value, the others keep
        theirs; editing the logo URL clears the image error, editing any
        other field leaves it as it was. */
    method HandleChange(field: TechField, value: string)
      modifies this
      ensures formData == old(formData).With(field, value)
      ensures imageError == (if field == LogoUrl then false else old(imageError))
    {
      formData := formData.With(field, value);
      if field == LogoUrl {
        imageError := false;
      }
    }

    /** `handleImageError`: the preview image failed to load. */
    method HandleImageError()
      modifies this`imageError
      ensures imageError
    {
      imageError := true;
    }

    /** `handleImageLoad`: the preview image loaded. */
    method HandleImageLoad()
      modifies this`imageError
      ensures !imageError
    {
      imageError := false;
    }

    /** `handleSubmit`: calls `onSubmit` with the current form data, unchanged. */
    method HandleSubmit() returns (payload: TechDraft)
      ensures payload == formData
    {
      payload := formData;
    }

    /** The preview block appears only when the logo URL has a
        non-whitespace character; inside it, the image unless it failed to
        load, and the error message if it did. */
    function PreviewShown(): (p: Preview)
      reads this
      ensures p.Hidden? <==> !HasVisibleText(formData.logoUrl)
      ensures p.LoadError? <==> HasVisibleText(formData.logoUrl) && imageError
    {
      if !IsNonBlank(formData.logoUrl) then Hidden
      else if !imageError then LogoImage
      else LoadError
    }
  }
}
