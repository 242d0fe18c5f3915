/** The records the REST API hands to the client. The client owns none of
    them: it reads them, copies fields into its forms and sends copies back.
    Fields the API may omit are `Option`s. */
module Entities {
  import opened Common

  /** An entry of the technology catalog. */
  datatype Technology = Technology(
    id: Id,
    name: string,
    logoUrl: string,
    officialSiteUrl: string,
    categoryId: Id)

  /** The join of a project and one technology of its stack. */
  datatype TechStackEntry = TechStackEntry(id: Id, technology: Technology)

  /** One step of a manual: its number, text and optional image. */
  datatype Step = Step(
    id: Id,
    stepNumber: int,
    description: string,
    imageUrl: Option<string>)

  /** A versioned manual of a project; `steps` may be omitted by the API. */
  datatype Manual = Manual(
    id: Id,
    title: string,
    description: string,
    version: string,
    isActive: bool,
    steps: Option<seq<Step>>)

  /** A showcased project. Every text field may be missing, and so may the
      stack and the manuals. */
  datatype Project = Project(
    id: Id,
    name: Option<string>,
    descriptionShort: Option<string>,
    clientGithubUrl: Option<string>,
    clientDeployUrl: Option<string>,
    serverGithubUrl: Option<string>,
    serverDeployUrl: Option<string>,
    imageUrl: Option<string>,
    techStack: Option<seq<TechStackEntry>>,
    manuals: Option<seq<Manual>>)

  /** A technology category, offered when a technology is created. */
  datatype Category = Category(id: Id, name: string)
}
