/**
 * A group of entities of particular types that learns about world changes
 * through listener callbacks and applies them lazily: callbacks only queue
 * entities, and every iteration first folds the queues into the list.
 *
 * Entities are objects, so "the same entity" is reference identity, as
 * in the source's identity-based removal.  The list operations of the
 * collection library are given the semantics of libGDX's Array: `addAll`
 * appends in order; `removeAll(list, true)` removes, for each queued entry
 * in turn, the first identical element, keeping the order of the rest.
 */
module EntityGroupModel {

  datatype Option<T> = None | Some(value: T)

  /** The value of an entity type (an enum constant in the source). */
  type EntityType = string

  class Entity {
    var active: bool
    /** The value of the entity's TypeComponent; None when it has none. */
    var typeTag: Option<EntityType>

    constructor (active: bool, typeTag: Option<EntityType>)
      ensures this.active == active && this.typeTag == typeTag
    {
      this.active := active;
      this.typeTag := typeTag;
    }
  }

  // -------------------------------------------------- list semantics

  /** Whether an entity with type component `tag` belongs to a group of
      `types`: one of the types equals the component's value. */
  function IsGroupType(types: seq<EntityType>, tag: Option<EntityType>): (r: bool)
    ensures r <==> tag.Some? && tag.value in types
  {
    match tag
    case None => false
    case Some(t) => |types| > 0 && (types[0] == t || IsGroupType(types[1..], tag))
  }

  /** `s` without its first element identical to `x`. */
  function RemoveFirst(s: seq<Entity>, x: Entity): seq<Entity>
  {
    if s == [] then []
    else if s[0] == x then s[1..]
    else [s[0]] + RemoveFirst(s[1..], x)
  }

  /** removeAll(rs, identity = true): RemoveFirst for each entry of `rs`. */
  function RemoveEach(s: seq<Entity>, rs: seq<Entity>): seq<Entity>
    decreases |rs|
  {
    if rs == [] then s else RemoveEach(RemoveFirst(s, rs[0]), rs[1..])
  }

  /** The list after update: additions appended, then removals removed. */
  function Updated(entities: seq<Entity>, adds: seq<Entity>, removes: seq<Entity>): seq<Entity>
  {
    RemoveEach(entities + adds, removes)
  }

  /** The elements of `s` outside `named`, in order. */
  function Unnamed(s: seq<Entity>, named: set<Entity>): seq<Entity>
  {
    if s == [] then []
    else (if s[0] in named then [] else [s[0]]) + Unnamed(s[1..], named)
  }

  /** The elements of `s` that are active now, in order. */
  function ActiveOf(s: seq<Entity>): seq<Entity>
    reads set e | e in s
  {
    if s == [] then []
    else ActiveOf(s[..|s| - 1]) + (if s[|s| - 1].active then [s[|s| - 1]] else [])
  }

  /** The elements of `s` that satisfy `filter`, in order. */
  function Selected(s: seq<Entity>, filter: Entity -> bool): seq<Entity>
  {
    if s == [] then []
    else (if filter(s[0]) then [s[0]] else []) + Selected(s[1..], filter)
  }

  // ------------------------------------------ lemmas on the semantics

  /** The first position of `x` in `s`. */
  function IndexOf(s: seq<Entity>, x: Entity): (i: nat)
    requires x in s
    ensures i < |s| && s[i] == x && x !in s[..i]
  {
    if s[0] == x then 0 else 1 + IndexOf(s[1..], x)
  }

  /** RemoveFirst leaves a list without `x` as it is. */
  lemma {:induction false} RemoveFirstAbsent(s: seq<Entity>, x: Entity)
    requires x !in s
    ensures RemoveFirst(s, x) == s
    decreases |s|
  {
    if s != [] {
      RemoveFirstAbsent(s[1..], x);
      assert s == [s[0]] + s[1..];
    }
  }

  /** RemoveFirst cuts out exactly the first occurrence of `x` and keeps
      the rest in order. */
  lemma {:induction false} RemoveFirstAt(s: seq<Entity>, x: Entity)
    requires x in s
    ensures RemoveFirst(s, x) == s[..IndexOf(s, x)] + s[IndexOf(s, x) + 1..]
    decreases |s|
  {
    if s[0] != x {
      var t := s[1..];
      RemoveFirstAt(t, x);
      var j := IndexOf(t, x);
      assert s[..j + 1] == [s[0]] + t[..j];
      assert s[j + 2..] == t[j + 1..];
    }
  }

  /** RemoveFirst takes one occurrence of `x` out of the multiset, if any. */
  lemma RemoveFirstCount(s: seq<Entity>, x: Entity)
    ensures multiset(RemoveFirst(s, x)) == multiset(s) - multiset{x}
  {
    if x in s {
      RemoveFirstAt(s, x);
      var i := IndexOf(s, x);
      var before, after := s[..i], s[i + 1..];
      assert s == before + [x] + after;
      assert multiset(s) == multiset(before) + multiset{x} + multiset(after);
      assert multiset(RemoveFirst(s, x)) == multiset(before) + multiset(after);
    } else {
      RemoveFirstAbsent(s, x);
    }
  }

  /** removeAll by identity takes away, for every entity, as many
      occurrences as it is queued (as far as there are any). */
  lemma {:induction false} RemoveEachCount(s: seq<Entity>, rs: seq<Entity>)
    ensures multiset(RemoveEach(s, rs)) == multiset(s) - multiset(rs)
    decreases |rs|
  {
    if rs != [] {
      RemoveFirstCount(s, rs[0]);
      RemoveEachCount(RemoveFirst(s, rs[0]), rs[1..]);
      assert rs == [rs[0]] + rs[1..];
      assert multiset(rs) == multiset{rs[0]} + multiset(rs[1..]);
    }
  }

  /** After update an entity is in the list exactly when it occurred (in
      the list or the additions) more often than it was queued for
      removal: one added and removed in the same batch is gone. */
  lemma UpdatedMembership(entities: seq<Entity>, adds: seq<Entity>, removes: seq<Entity>, x: Entity)
    ensures x in Updated(entities, adds, removes) <==>
      multiset(entities)[x] + multiset(adds)[x] > multiset(removes)[x]
  {
    RemoveEachCount(entities + adds, removes);
    assert multiset(entities + adds) == multiset(entities) + multiset(adds);
    assert x in Updated(entities, adds, removes) <==> x in multiset(Updated(entities, adds, removes));
  }

  lemma {:induction false} UnnamedAppend(a: seq<Entity>, b: seq<Entity>, named: set<Entity>)
    ensures Unnamed(a + b, named) == Unnamed(a, named) + Unnamed(b, named)
    decreases |a|
  {
    if a != [] {
      var head := if a[0] in named then [] else [a[0]];
      assert (a + b)[0] == a[0];
      assert (a + b)[1..] == a[1..] + b;
      UnnamedAppend(a[1..], b, named);
      calc {
        Unnamed(a + b, named);
        head + Unnamed(a[1..] + b, named);
        head + (Unnamed(a[1..], named) + Unnamed(b, named));
        (head + Unnamed(a[1..], named)) + Unnamed(b, named);
        Unnamed(a, named) + Unnamed(b, named);
      }
    } else {
      assert a + b == b;
    }
  }

  lemma {:induction false} UnnamedRemoveFirst(s: seq<Entity>, x: Entity, named: set<Entity>)
    requires x in named
    ensures Unnamed(RemoveFirst(s, x), named) == Unnamed(s, named)
    decreases |s|
  {
    if s != [] && s[0] != x {
      UnnamedRemoveFirst(s[1..], x, named);
      assert ([s[0]] + RemoveFirst(s[1..], x))[1..] == RemoveFirst(s[1..], x);
    }
  }

  lemma {:induction false} UnnamedRemoveEach(s: seq<Entity>, rs: seq<Entity>, named: set<Entity>)
    requires forall e :: e in rs ==> e in named
    ensures Unnamed(RemoveEach(s, rs), named) == Unnamed(s, named)
    decreases |rs|
  {
    if rs != [] {
      UnnamedRemoveFirst(s, rs[0], named);
      UnnamedRemoveEach(RemoveFirst(s, rs[0]), rs[1..], named);
    }
  }

  lemma {:induction false} UnnamedOfNamed(s: seq<Entity>, named: set<Entity>)
    requires forall e :: e in s ==> e in named
    ensures Unnamed(s, named) == []
    decreases |s|
  {
    if s != [] {
      UnnamedOfNamed(s[1..], named);
    }
  }

  /** Entities named in neither queue keep their places relative to each
      other: update changes nothing about them. */
  lemma UpdatedKeepsUnnamed(entities: seq<Entity>, adds: seq<Entity>, removes: seq<Entity>, named: set<Entity>)
    requires forall e :: e in adds ==> e in named
    requires forall e :: e in removes ==> e in named
    ensures Unnamed(Updated(entities, adds, removes), named) == Unnamed(entities, named)
  {
    UnnamedRemoveEach(entities + adds, removes, named);
    UnnamedAppend(entities, adds, named);
    UnnamedOfNamed(adds, named);
  }

  /** With nothing queued, update leaves the list as it is. */
  lemma UpdatedNothingQueued(entities: seq<Entity>)
    ensures Updated(entities, [], []) == entities
  {
    assert entities + [] == entities;
  }

  /** The entities visited are the active ones: each active occurrence
      once, no inactive one. */
  lemma {:induction false} ActiveOfCount(s: seq<Entity>, x: Entity)
    ensures multiset(ActiveOf(s))[x] == if x.active then multiset(s)[x] else 0
    decreases |s|
  {
    if s != [] {
      ActiveOfCount(s[..|s| - 1], x);
      assert s == s[..|s| - 1] + [s[|s| - 1]];
    }
  }

  lemma {:induction false} SelectedCount(s: seq<Entity>, filter: Entity -> bool, x: Entity)
    ensures multiset(Selected(s, filter))[x] == if filter(x) then multiset(s)[x] else 0
    decreases |s|
  {
    if s != [] {
      SelectedCount(s[1..], filter, x);
      assert s == [s[0]] + s[1..];
    }
  }

  /** The filtered iteration visits exactly the occurrences that pass the
      filter and are active. */
  lemma ActiveSelectedCount(s: seq<Entity>, filter: Entity -> bool, x: Entity)
    ensures multiset(ActiveOf(Selected(s, filter)))[x] == if filter(x) && x.active then multiset(s)[x] else 0
  {
    ActiveOfCount(Selected(s, filter), x);
    SelectedCount(s, filter, x);
  }

  // --------------------------------------------------------- the group

  class EntityGroup {
    const types: seq<EntityType>
    var entities: seq<Entity>
    var addList: seq<Entity>
    var removeList: seq<Entity>

    constructor (initialEntities: seq<Entity>, entityTypes: seq<EntityType>)
      ensures types == entityTypes && entities == initialEntities
      ensures addList == [] && removeList == []
    {
      types := entityTypes;
      entities := initialEntities;
      addList, removeList := [], [];
    }

    /** Fold the queued changes into the list and empty both queues. */
    method Update()
      modifies this
      ensures entities == Updated(old(entities), old(addList), old(removeList))
      ensures addList == [] && removeList == []
    {
      entities := RemoveEach(entities + addList, removeList);
      addList := [];
      removeList := [];
    }

    /** forEach(action): update, then visit the active entities in order;
        the result is the sequence of entities handed to the action. */
    method ForEach() returns (visited: seq<Entity>)
      modifies this
      ensures entities == Updated(old(entities), old(addList), old(removeList))
      ensures addList == [] && removeList == []
      ensures visited == ActiveOf(entities)
    {
      Update();
      visited := [];
      var i := 0;
      while i < |entities|
        invariant 0 <= i <= |entities|
        invariant visited == ActiveOf(entities[..i])
      {
        assert entities[..i + 1][..i] == entities[..i];
        if entities[i].active {
          visited := visited + [entities[i]];
        }
        i := i + 1;
      }
      assert entities[..i] == entities;
    }

    /** forEach(filter, action): update, take the entities that pass the
        filter, and visit the active ones among them in order. */
    method ForEachSelected(filter: Entity -> bool) returns (visited: seq<Entity>)
      modifies this
      ensures entities == Updated(old(entities), old(addList), old(removeList))
      ensures addList == [] && removeList == []
      ensures visited == ActiveOf(Selected(entities, filter))
    {
      Update();
      var candidates := Selected(entities, filter);
      visited := [];
      var i := 0;
      while i < |candidates|
        invariant 0 <= i <= |candidates|
        invariant visited == ActiveOf(candidates[..i])
      {
        assert candidates[..i + 1][..i] == candidates[..i];
        if candidates[i].active {
          visited := visited + [candidates[i]];
        }
        i := i + 1;
      }
      assert candidates[..i] == candidates;
    }

    /** Listener callback: queue the entity for addition if it is of one of
        the group's types; the list itself is not touched. */
    method OnEntityAdded(entity: Entity)
      modifies this`addList
      ensures addList == old(addList) + (if IsGroupType(types, entity.typeTag) then [entity] else [])
      ensures entities == old(entities) && removeList == old(removeList)
    {
      var tag := entity.typeTag;
      if tag.Some? {
        var isType := IsGroupType(types, tag);
        if isType {
          addList := addList + [entity];
        }
      }
    }

    /** Listener callback: queue the entity for removal if it is of one of
        the group's types; the list itself is not touched. */
    method OnEntityRemoved(entity: Entity)
      modifies this`removeList
      ensures removeList == old(removeList) + (if IsGroupType(types, entity.typeTag) then [entity] else [])
      ensures entities == old(entities) && addList == old(addList)
    {
      var tag := entity.typeTag;
      if tag.Some? {
        var isType := IsGroupType(types, tag);
        if isType {
          removeList := removeList + [entity];
        }
      }
    }
  }

  /** Two updates with no listener event in between leave the list as the
      first one made it. */
  method UpdateTwice(g: EntityGroup)
    modifies g
    ensures g.entities == Updated(old(g.entities), old(g.addList), old(g.removeList))
  {
    g.Update();
    ghost var first := g.entities;
    g.Update();
    UpdatedNothingQueued(first);
  }
}
