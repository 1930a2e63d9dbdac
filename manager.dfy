/** The state every domain manager shares (Engine/include/Common/Manager.h):
    one domain tag, fixed at construction, and one ordered list of the
    components the manager owns. */
module Common {
  import opened Wrappers

  /** The domain tags the managers use. The header declares only `Physics`;
      the render and UI managers construct themselves with `Render` and `UI`. */
  datatype ManID = Physics | Render | UI

  /** Stands for an `Entity*`: the entity a component is attached to. */
  type EntityId = nat

  /** A component object. Its identity is the object's identity, as with the
      `Component*` pointers the manager's list holds. */
  class Component {
    const owner: EntityId
    const typeName: string

    constructor (owner: EntityId, typeName: string)
      ensures this.owner == owner && this.typeName == typeName
    {
      this.owner := owner;
      this.typeName := typeName;
    }
  }

  /** No component occurs twice in the list. */
  ghost predicate Distinct(s: seq<Component>)
  {
    forall i, j :: 0 <= i < j < |s| ==> s[i] != s[j]
  }

  /** The component `c` is the one `destroyComponent(ent, compId)` is asking for. */
  predicate Matches(c: Component, owner: EntityId, typeName: string)
  {
    c.owner == owner && c.typeName == typeName
  }

  /** The position of the first component in `s` that matches, if any. */
  function FirstMatch(s: seq<Component>, owner: EntityId, typeName: string): (k: Option<nat>)
    ensures k.Some? ==> k.value < |s| && Matches(s[k.value], owner, typeName)
    ensures k.Some? ==> forall j :: 0 <= j < k.value ==> !Matches(s[j], owner, typeName)
    ensures k.None? ==> forall j :: 0 <= j < |s| ==> !Matches(s[j], owner, typeName)
  {
    if s == [] then None
    else if Matches(s[0], owner, typeName) then Some(0)
    else match FirstMatch(s[1..], owner, typeName)
      case None => None
      case Some(k) => Some(k + 1)
  }

  /** Taking one component out of a list without duplicates leaves a list
      without duplicates that no longer holds it, and keeps every other one. */
  lemma RemovalKeepsOthers(s: seq<Component>, k: nat)
    requires Distinct(s) && k < |s|
    ensures Distinct(s[..k] + s[k + 1..])
    ensures s[k] !in s[..k] + s[k + 1..]
    ensures multiset(s[..k] + s[k + 1..]) == multiset(s) - multiset{s[k]}
  {
    var r := s[..k] + s[k + 1..];
    forall i, j | 0 <= i < j < |r| ensures r[i] != r[j] {
      var i' := if i < k then i else i + 1;
      var j' := if j < k then j else j + 1;
      assert r[i] == s[i'] && r[j] == s[j'] && i' < j';
    }
    forall i | 0 <= i < |r| ensures r[i] != s[k] {
      var i' := if i < k then i else i + 1;
      assert r[i] == s[i'] && i' != k;
    }
    assert s == s[..k] + [s[k]] + s[k + 1..];
  }

  /** The shared part of every manager. */
  class Manager {
    /** `_compsList`: the components this manager owns, in insertion order. */
    var comps: seq<Component>
    /** `_manId`: the domain this manager serves. */
    const id: ManID

    constructor (id: ManID)
      ensures this.id == id && comps == []
    {
      this.id := id;
      comps := [];
    }

    /** `getComponents`: the list is returned by value, so the caller holds a
        snapshot that later changes to the manager do not reach. */
    method GetComponents() returns (snapshot: seq<Component>)
      ensures snapshot == comps
    {
      snapshot := comps;
    }

    /** `getId`: the tag given at construction. */
    method GetId() returns (r: ManID)
      ensures r == id
    {
      r := id;
    }

    /** The step every concrete `addComponent` ends with: the new component
        goes to the back of the list. */
    method AddComponent(c: Component)
      modifies this
      ensures comps == old(comps) + [c]
    {
      comps := comps + [c];
    }

    /** `destroyComponent`: takes the first component of `owner` with that
        type out of the list and reports whether there was one; when there
        is none, the list is left as it was. */
    method DestroyComponent(owner: EntityId, typeName: string) returns (destroyed: bool)
      modifies this
      ensures destroyed <==> exists j :: 0 <= j < |old(comps)| && Matches(old(comps)[j], owner, typeName)
      ensures var k := FirstMatch(old(comps), owner, typeName);
        comps == if k.Some? then old(comps)[..k.value] + old(comps)[k.value + 1..] else old(comps)
    {
      var i := 0;
      while i < |comps| && !Matches(comps[i], owner, typeName)
        invariant 0 <= i <= |comps|
        invariant forall j :: 0 <= j < i ==> !Matches(comps[j], owner, typeName)
      {
        i := i + 1;
      }
      destroyed := i < |comps|;
      ghost var k := FirstMatch(comps, owner, typeName);
      if destroyed {
        assert k == Some(i);
        comps := comps[..i] + comps[i + 1..];
      } else {
        assert k == None;
      }
    }

    /** `destroyAllComponents`: the manager owns nothing afterwards. */
    method DestroyAllComponents()
      modifies this
      ensures comps == []
    {
      comps := [];
    }
  }
}
