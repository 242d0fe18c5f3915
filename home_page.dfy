/** The home page's derived list of technologies: one badge per distinct
    technology id found in any project's stack, first occurrence kept, in
    the order the ids are first met. */
module HomePage {
  import opened Common
  import opened Entities

  /** The ids of a list of technologies. */
  function IdsOf(techs: seq<Technology>): set<Id>
  {
    set t | t in techs :: t.id
  }

  /** Appending a technology adds exactly its id. */
  lemma IdsOfAppend(techs: seq<Technology>, t: Technology)
    ensures IdsOf(techs + [t]) == IdsOf(techs) + {t.id}
  {
    assert forall u :: u in techs + [t] <==> u in techs || u == t;
  }

  /** The technologies a stack names, in stack order. */
  function StackTechnologies(stack: seq<TechStackEntry>): seq<Technology>
  {
    seq(|stack|, k requires 0 <= k < |stack| => stack[k].technology)
  }

  /** Every project carries a stack (`project.techStack.forEach` throws otherwise). */
  predicate AllStacksPresent(projects: seq<Project>)
  {
    forall i :: 0 <= i < |projects| ==> projects[i].techStack.Some?
  }

  /** Every stack entry's technology: projects in order, each stack in order. */
  function AllStackTechnologies(projects: seq<Project>): seq<Technology>
    requires AllStacksPresent(projects)
    decreases |projects|
  {
    if projects == [] then []
    else
      var front := projects[..|projects| - 1];
      assert forall i :: 0 <= i < |front| ==> front[i] == projects[i];
      AllStackTechnologies(front) + StackTechnologies(projects[|projects| - 1].techStack.value)
  }

  /** The walk holds exactly the technologies that some project's stack names. */
  lemma {:induction false} AllStackTechnologiesMembers(projects: seq<Project>)
    requires AllStacksPresent(projects)
    ensures forall i, k :: 0 <= i < |projects| && 0 <= k < |projects[i].techStack.value| ==>
      projects[i].techStack.value[k].technology in AllStackTechnologies(projects)
    ensures forall t :: t in AllStackTechnologies(projects) ==>
      (exists i, k :: 0 <= i < |projects| && 0 <= k < |projects[i].techStack.value| &&
         projects[i].techStack.value[k].technology == t)
    decreases |projects|
  {
    if projects != [] {
      var front := projects[..|projects| - 1];
      assert forall i :: 0 <= i < |front| ==> front[i] == projects[i];
      AllStackTechnologiesMembers(front);
      var rest, stack := AllStackTechnologies(front), projects[|projects| - 1].techStack.value;
      var r := rest + StackTechnologies(stack);
      assert r == AllStackTechnologies(projects);
      assert forall k :: 0 <= k < |stack| ==> r[|rest| + k] == stack[k].technology;
    }
  }

  /** The reference definition of the deduplication: scanning left to right,
      a technology is kept when no earlier one had its id. The result has
      the same ids as the input, takes its elements from it, and is no longer. */
  function UniqueById(techs: seq<Technology>): (r: seq<Technology>)
    ensures IdsOf(r) == IdsOf(techs)
    ensures forall t :: t in r ==> t in techs
    ensures |r| <= |techs|
    decreases |techs|
  {
    if techs == [] then []
    else
      var front, last := techs[..|techs| - 1], techs[|techs| - 1];
      assert techs == front + [last];
      var prev := UniqueById(front);
      IdsOfAppend(front, last);
      IdsOfAppend(prev, last);
      if last.id in IdsOf(prev) then prev else prev + [last]
  }

  /** Where an id first occurs in a list of technologies. */
  function FirstIndexOf(techs: seq<Technology>, id: Id): (i: nat)
    requires id in IdsOf(techs)
    ensures i < |techs| && techs[i].id == id
    ensures forall k :: 0 <= k < i ==> techs[k].id != id
    decreases |techs|
  {
    var front := techs[..|techs| - 1];
    if id in IdsOf(front) then FirstIndexOf(front, id)
    else
      assert forall k :: 0 <= k < |front| ==> front[k] in front;
      |techs| - 1
  }

  /** Each kept technology is the first occurrence of its id, and the kept
      technologies come in the order their ids are first met. */
  lemma {:induction false} UniqueByIdKeepsFirstSeen(techs: seq<Technology>)
    ensures forall i :: 0 <= i < |UniqueById(techs)| ==>
      UniqueById(techs)[i] == techs[FirstIndexOf(techs, UniqueById(techs)[i].id)]
    ensures forall i, j :: 0 <= i < j < |UniqueById(techs)| ==>
      FirstIndexOf(techs, UniqueById(techs)[i].id) < FirstIndexOf(techs, UniqueById(techs)[j].id)
    decreases |techs|
  {
    if techs != [] {
      var front, last := techs[..|techs| - 1], techs[|techs| - 1];
      var prev, r := UniqueById(front), UniqueById(techs);
      UniqueByIdKeepsFirstSeen(front);
      assert forall i :: 0 <= i < |prev| ==> r[i] == prev[i];
      forall i | 0 <= i < |prev|
        ensures FirstIndexOf(techs, prev[i].id) == FirstIndexOf(front, prev[i].id) < |front|
      {
        assert prev[i] in prev;
      }
      if |r| > |prev| {
        assert r[|prev|] == last;
        assert last.id !in IdsOf(front);
        assert FirstIndexOf(techs, last.id) == |front|;
      }
    }
  }

  /** The result never holds two technologies with the same id. */
  lemma UniqueByIdHasDistinctIds(techs: seq<Technology>)
    ensures forall i, j :: 0 <= i < j < |UniqueById(techs)| ==> UniqueById(techs)[i].id != UniqueById(techs)[j].id
  {
    UniqueByIdKeepsFirstSeen(techs);
  }

  /** Every id of every stack is represented in the result, by a technology
      taken from some stack. */
  lemma UniqueTechnologiesCoverStacks(projects: seq<Project>)
    requires AllStacksPresent(projects)
    ensures forall i, k :: 0 <= i < |projects| && 0 <= k < |projects[i].techStack.value| ==>
      projects[i].techStack.value[k].technology.id in IdsOf(UniqueById(AllStackTechnologies(projects)))
    ensures forall t :: t in UniqueById(AllStackTechnologies(projects)) ==>
      exists i, k :: 0 <= i < |projects| && 0 <= k < |projects[i].techStack.value| &&
        projects[i].techStack.value[k].technology == t
  {
    var all := AllStackTechnologies(projects);
    AllStackTechnologiesMembers(projects);
    forall i, k | 0 <= i < |projects| && 0 <= k < |projects[i].techStack.value|
      ensures projects[i].techStack.value[k].technology.id in IdsOf(UniqueById(all))
    {
      assert projects[i].techStack.value[k].technology in all;
    }
  }

  /** No projects, or only empty stacks, give no technologies. */
  lemma {:induction false} EmptyStacksGiveNoTechnologies(projects: seq<Project>)
    requires AllStacksPresent(projects)
    requires forall i :: 0 <= i < |projects| ==> projects[i].techStack.value == []
    ensures UniqueById(AllStackTechnologies(projects)) == []
    decreases |projects|
  {
    if projects != [] {
      var front := projects[..|projects| - 1];
      assert forall i :: 0 <= i < |front| ==> front[i] == projects[i];
      EmptyStacksGiveNoTechnologies(front);
    }
  }

  /** `techMap` with insertion order `keys` holds exactly the list `techs`:
      the n-th key inserted is the n-th technology's id and maps to it. */
  ghost predicate Holds(techMap: map<Id, Technology>, keys: seq<Id>, techs: seq<Technology>)
  {
    && |keys| == |techs|
    && (forall k :: 0 <= k < |techs| ==> keys[k] == techs[k].id && keys[k] in techMap && techMap[keys[k]] == techs[k])
    && techMap.Keys == IdsOf(techs)
  }

  /** One more technology either repeats a seen id and changes nothing, or
      is appended. */
  lemma UniqueByIdStep(walked: seq<Technology>, tech: Technology)
    ensures UniqueById(walked + [tech]) ==
      if tech.id in IdsOf(UniqueById(walked)) then UniqueById(walked) else UniqueById(walked) + [tech]
  {
    assert (walked + [tech])[..|walked|] == walked;
  }

  /** Inserting an absent id at the end of the insertion order makes the map
      hold the list extended by that technology. */
  lemma HoldsAppend(techMap: map<Id, Technology>, keys: seq<Id>, techs: seq<Technology>, tech: Technology)
    requires Holds(techMap, keys, techs) && tech.id !in techMap
    ensures Holds(techMap[tech.id := tech], keys + [tech.id], techs + [tech])
  {
    IdsOfAppend(techs, tech);
    var next := techs + [tech];
    assert forall k :: 0 <= k < |techs| ==> next[k] == techs[k];
  }

  /** Inserting a technology whose id is absent, and skipping one whose id
      is present, keeps the map holding the deduplication of what was walked. */
  lemma HoldsAfterStep(techMap: map<Id, Technology>, keys: seq<Id>, walked: seq<Technology>, tech: Technology)
    requires Holds(techMap, keys, UniqueById(walked))
    ensures tech.id in techMap ==> Holds(techMap, keys, UniqueById(walked + [tech]))
    ensures tech.id !in techMap ==> Holds(techMap[tech.id := tech], keys + [tech.id], UniqueById(walked + [tech]))
  {
    UniqueByIdStep(walked, tech);
    if tech.id !in techMap {
      HoldsAppend(techMap, keys, UniqueById(walked), tech);
    }
  }

  /** One more stack entry extends the walk of a stack by its technology. */
  lemma StackOneMoreEntry(walked: seq<Technology>, stack: seq<TechStackEntry>, j: nat)
    requires j < |stack|
    ensures walked + StackTechnologies(stack[..j + 1]) == walked + StackTechnologies(stack[..j]) + [stack[j].technology]
  {
    assert StackTechnologies(stack[..j + 1]) == StackTechnologies(stack[..j]) + [stack[j].technology];
  }

  /** Reading a map's values in insertion order gives back the list it holds. */
  lemma ValuesInInsertionOrder(techMap: map<Id, Technology>, keys: seq<Id>, techs: seq<Technology>)
    requires Holds(techMap, keys, techs)
    ensures (forall k :: 0 <= k < |keys| ==> keys[k] in techMap)
    ensures seq(|keys|, k requires 0 <= k < |keys| && keys[k] in techMap => techMap[keys[k]]) == techs
  {
  }

  /** One more project's stack extends the walk by that stack. */
  lemma WalkOneMoreProject(projects: seq<Project>, i: nat)
    requires i < |projects| && AllStacksPresent(projects[..i + 1])
    ensures AllStacksPresent(projects[..i])
    ensures AllStackTechnologies(projects[..i + 1])
      == AllStackTechnologies(projects[..i]) + StackTechnologies(projects[i].techStack.value)
  {
    assert projects[..i + 1][..i] == projects[..i];
  }

  /** The inner `techStack.forEach`: inserts each technology of one stack
      whose id the map does not hold yet. A map holding the deduplication of
      the technologies walked so far then holds that of the walk extended by
      this stack. */
  method InsertStack(techMap: map<Id, Technology>, keys: seq<Id>, ghost walked: seq<Technology>, stack: seq<TechStackEntry>)
    returns (techMap': map<Id, Technology>, keys': seq<Id>)
    requires Holds(techMap, keys, UniqueById(walked))
    ensures Holds(techMap', keys', UniqueById(walked + StackTechnologies(stack)))
  {
    techMap', keys' := techMap, keys;
    var j := 0;
    assert walked + StackTechnologies(stack[..0]) == walked;
    while j < |stack|
      invariant 0 <= j <= |stack|
      invariant Holds(techMap', keys', UniqueById(walked + StackTechnologies(stack[..j])))
    {
      var tech := stack[j].technology;
      StackOneMoreEntry(walked, stack, j);
      HoldsAfterStep(techMap', keys', walked + StackTechnologies(stack[..j]), tech);
      if tech.id !in techMap' {
        techMap' := techMap'[tech.id := tech];
        keys' := keys' + [tech.id];
      }
      j := j + 1;
    }
    assert stack[..|stack|] == stack;
  }

  /** `extractUniqueTechnologies`: walks every stack of every project,
      inserting a technology into an insertion-ordered map only when its id
      is not yet there, then reads the map's values out. A project without a
      stack makes the walk throw; that is `None`. */
  method ExtractUniqueTechnologies(projects: seq<Project>) returns (r: Option<seq<Technology>>)
    ensures r.None? <==> !AllStacksPresent(projects)
    ensures r.Some? ==> AllStacksPresent(projects) && r.value == UniqueById(AllStackTechnologies(projects))
  {
    var techMap: map<Id, Technology> := map[];
    var keys: seq<Id> := [];
    var i := 0;
    while i < |projects|
      invariant 0 <= i <= |projects|
      invariant AllStacksPresent(projects[..i])
      invariant Holds(techMap, keys, UniqueById(AllStackTechnologies(projects[..i])))
    {
      if projects[i].techStack.None? {
        return None;
      }
      techMap, keys := InsertStack(techMap, keys, AllStackTechnologies(projects[..i]), projects[i].techStack.value);
      assert AllStacksPresent(projects[..i + 1]) by {
        assert forall k :: 0 <= k < i ==> projects[..i + 1][k] == projects[..i][k];
      }
      WalkOneMoreProject(projects, i);
      i := i + 1;
    }
    assert projects[..|projects|] == projects;
    ValuesInInsertionOrder(techMap, keys, UniqueById(AllStackTechnologies(projects)));
    r := Some(seq(|keys|, k requires 0 <= k < |keys| && keys[k] in techMap => techMap[keys[k]]));
  }
}
