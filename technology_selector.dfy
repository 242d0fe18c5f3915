/** The technology picker of the project form. It holds no state: it splits
    the catalog into the entries whose id is selected and the rest, and on a
    click hands its parent a whole new list of selected ids. */
module TechnologySelector {
  import opened Common
  import opened Entities

  /** The catalog entries whose id is among `ids` (`selected`) or is not
      (`!selected`), kept in catalog order: the filter behind both lists. */
  function Partition(catalog: seq<Technology>, ids: seq<Id>, selected: bool): (r: seq<Technology>)
    ensures forall t :: t in r <==> t in catalog && (t.id in ids) == selected
    ensures forall t :: multiset(r)[t] == if (t.id in ids) == selected then multiset(catalog)[t] else 0
    ensures IsSubsequence(r, catalog)
    decreases |catalog|
  {
    if catalog == [] then []
    else
      var front, last := catalog[..|catalog| - 1], catalog[|catalog| - 1];
      assert catalog == front + [last];
      var rest := Partition(front, ids, selected);
      SubsequenceAppend(rest, front, last);
      if (last.id in ids) == selected then
        assert IsSubsequence(rest + [last], catalog);
        rest + [last]
      else
        assert IsSubsequence(rest, catalog);
        rest
  }

  /** `selectedTechs`: the catalog entries whose id is selected, in catalog order. */
  function SelectedTechs(technologies: seq<Technology>, selectedIds: seq<Id>): (r: seq<Technology>)
    ensures forall t :: t in r <==> t in technologies && t.id in selectedIds
    ensures IsSubsequence(r, technologies)
  {
    Partition(technologies, selectedIds, true)
  }

  /** `availableTechs`: the catalog entries whose id is not selected, in catalog order. */
  function AvailableTechs(technologies: seq<Technology>, selectedIds: seq<Id>): (r: seq<Technology>)
    ensures forall t :: t in r <==> t in technologies && t.id !in selectedIds
    ensures IsSubsequence(r, technologies)
  {
    Partition(technologies, selectedIds, false)
  }

  /** The two lists partition the catalog: each entry (counted with its
      repetitions) lands in exactly one of them. */
  lemma PartitionCoversCatalog(technologies: seq<Technology>, selectedIds: seq<Id>)
    ensures multiset(SelectedTechs(technologies, selectedIds)) + multiset(AvailableTechs(technologies, selectedIds))
            == multiset(technologies)
    ensures |SelectedTechs(technologies, selectedIds)| + |AvailableTechs(technologies, selectedIds)| == |technologies|
    ensures forall t :: t in technologies <==>
      (t in SelectedTechs(technologies, selectedIds)) != (t in AvailableTechs(technologies, selectedIds))
  {
    var s, a := SelectedTechs(technologies, selectedIds), AvailableTechs(technologies, selectedIds);
    assert forall t :: (multiset(s) + multiset(a))[t] == multiset(technologies)[t];
    assert multiset(s) + multiset(a) == multiset(technologies);
    assert |multiset(s) + multiset(a)| == |multiset(technologies)|;
  }

  /** `handleAdd`: the old list unchanged and in order, with `id` appended.
      Nothing guards against an id that is already there: it then occurs once more. */
  function AddId(selectedIds: seq<Id>, id: Id): (r: seq<Id>)
    ensures |r| == |selectedIds| + 1 && r[..|selectedIds|] == selectedIds && r[|selectedIds|] == id
    ensures multiset(r)[id] == multiset(selectedIds)[id] + 1
  {
    selectedIds + [id]
  }

  /** `handleRemove`: every occurrence of `id` dropped, the others kept with
      their multiplicities and in their original order. */
  function RemoveId(selectedIds: seq<Id>, id: Id): (r: seq<Id>)
    ensures forall x :: x in r <==> x in selectedIds && x != id
    ensures forall x :: multiset(r)[x] == if x == id then 0 else multiset(selectedIds)[x]
    ensures IsSubsequence(r, selectedIds)
    decreases |selectedIds|
  {
    if selectedIds == [] then []
    else
      var front, last := selectedIds[..|selectedIds| - 1], selectedIds[|selectedIds| - 1];
      assert selectedIds == front + [last];
      var rest := RemoveId(front, id);
      SubsequenceAppend(rest, front, last);
      if last != id then
        assert IsSubsequence(rest + [last], selectedIds);
        rest + [last]
      else
        assert IsSubsequence(rest, selectedIds);
        rest
  }

  /** Removing an id that is not in the list gives the list back. */
  lemma {:induction false} RemoveAbsentId(selectedIds: seq<Id>, id: Id)
    requires id !in selectedIds
    ensures RemoveId(selectedIds, id) == selectedIds
    decreases |selectedIds|
  {
    if selectedIds != [] {
      var front := selectedIds[..|selectedIds| - 1];
      RemoveAbsentId(front, id);
      assert selectedIds == front + [selectedIds[|selectedIds| - 1]];
    }
  }

  /** Round trip: adding an id that was not selected and then removing it
      restores the original list exactly. */
  lemma {:induction false} RemoveUndoesAdd(selectedIds: seq<Id>, id: Id)
    requires id !in selectedIds
    ensures RemoveId(AddId(selectedIds, id), id) == selectedIds
  {
    var added := AddId(selectedIds, id);
    assert added[..|added| - 1] == selectedIds;
    RemoveAbsentId(selectedIds, id);
  }

  /** The lists depend only on which ids are selected, not on their order or repetitions. */
  lemma {:induction false} PartitionDependsOnMembersOnly(catalog: seq<Technology>, a: seq<Id>, b: seq<Id>, selected: bool)
    requires forall x :: x in a <==> x in b
    ensures Partition(catalog, a, selected) == Partition(catalog, b, selected)
    decreases |catalog|
  {
    if catalog != [] {
      PartitionDependsOnMembersOnly(catalog[..|catalog| - 1], a, b, selected);
    }
  }

  /** The duplicate that adding an already-selected id creates changes
      neither list. */
  lemma AddSelectedIdKeepsLists(technologies: seq<Technology>, selectedIds: seq<Id>, id: Id)
    requires id in selectedIds
    ensures SelectedTechs(technologies, AddId(selectedIds, id)) == SelectedTechs(technologies, selectedIds)
    ensures AvailableTechs(technologies, AddId(selectedIds, id)) == AvailableTechs(technologies, selectedIds)
  {
    PartitionDependsOnMembersOnly(technologies, AddId(selectedIds, id), selectedIds, true);
    PartitionDependsOnMembersOnly(technologies, AddId(selectedIds, id), selectedIds, false);
  }

  /** Clicking an available entry moves every catalog entry with that id
      from the available list to the selected one, and nothing else. */
  lemma AddMovesEntry(technologies: seq<Technology>, selectedIds: seq<Id>, id: Id)
    ensures forall t :: t in SelectedTechs(technologies, AddId(selectedIds, id)) <==>
      t in SelectedTechs(technologies, selectedIds) || (t in technologies && t.id == id)
    ensures forall t :: t in AvailableTechs(technologies, AddId(selectedIds, id)) <==>
      t in AvailableTechs(technologies, selectedIds) && t.id != id
  {
    var added := AddId(selectedIds, id);
    assert forall x :: x in added <==> x in selectedIds || x == id by {
      assert added == selectedIds + [id];
    }
  }

  /** Clicking a selected entry moves every catalog entry with that id from
      the selected list to the available one, and nothing else. */
  lemma RemoveMovesEntry(technologies: seq<Technology>, selectedIds: seq<Id>, id: Id)
    ensures forall t :: t in SelectedTechs(technologies, RemoveId(selectedIds, id)) <==>
      t in SelectedTechs(technologies, selectedIds) && t.id != id
    ensures forall t :: t in AvailableTechs(technologies, RemoveId(selectedIds, id)) <==>
      t in AvailableTechs(technologies, selectedIds) || (t in technologies && t.id == id)
  {
  }

  /** The picker offers "add" only on available entries; adding one of those
      to a duplicate-free list keeps it duplicate-free. */
  lemma AddAvailableKeepsDistinct(technologies: seq<Technology>, selectedIds: seq<Id>, t: Technology)
    requires Distinct(selectedIds)
    requires t in AvailableTechs(technologies, selectedIds)
    ensures Distinct(AddId(selectedIds, t.id))
  {
    var added := AddId(selectedIds, t.id);
    forall i, j | 0 <= i < j < |added| ensures added[i] != added[j] {
      if j == |selectedIds| {
        assert added[i] == selectedIds[i];
      } else {
        assert added[i] == selectedIds[i] && added[j] == selectedIds[j];
      }
    }
  }
}
