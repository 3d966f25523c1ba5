/**
 * The server's entity-component store (`WorldState`): a map from entity id
 * to that entity's map from component class to component. Ids come from
 * `UUID.randomUUID()`; here the caller supplies a fresh one.
 */
module WorldStates {
  import opened Common
  import opened Components

  type EntityComponents = map<ComponentClass, Component>
  type Store = map<Uuid, EntityComponents>

  /** Every component is filed under its own class, as `put(component.getClass(), component)` does. */
  ghost predicate WellKeyed(s: Store)
  {
    forall id :: id in s ==> EntityWellKeyed(s[id])
  }

  ghost predicate EntityWellKeyed(cs: EntityComponents)
  {
    forall k :: k in cs ==> ClassOf(cs[k]) == k
  }

  /** `addComponent(id, c)`: only an existing entity takes the component, replacing the one of
      the same class. */
  function Put(s: Store, id: Uuid, c: Component): Store
  {
    if id in s then s[id := s[id][ClassOf(c) := c]] else s
  }

  /** `getComponent(id, k)`, with `None` for Java's `null`. */
  function Lookup(s: Store, id: Uuid, k: ComponentClass): (r: Option<Component>)
    ensures r.Some? <==> id in s && k in s[id]
    ensures r.Some? ==> r.value == s[id][k]
  {
    if id !in s then None
    else if k in s[id] then Some(s[id][k])
    else None
  }

  /** The entity carries a player tag for `userId`. */
  ghost predicate TaggedUser(s: Store, id: Uuid, userId: Uuid)
  {
    id in s && PLAYER_TAG in s[id] && s[id][PLAYER_TAG].PlayerTagC? && s[id][PLAYER_TAG].tag.userId == userId
  }

  /** The entity holds a component of every requested class. */
  predicate HasAll(cs: EntityComponents, types: seq<ComponentClass>)
  {
    forall t :: t in types ==> t in cs
  }

  predicate Distinct<T(==)>(xs: seq<T>)
  {
    forall i, j :: 0 <= i < j < |xs| ==> xs[i] != xs[j]
  }

  /** Reading after an add: the added component for its entity and class, everything else as
      before. */
  lemma {:induction false} LookupAfterPut(s: Store, id: Uuid, c: Component, id': Uuid, k: ComponentClass)
    ensures Lookup(Put(s, id, c), id', k)
         == if id' == id && id in s && k == ClassOf(c) then Some(c) else Lookup(s, id', k)
  {
    if id in s && id' == id {
      assert Put(s, id, c)[id] == s[id][ClassOf(c) := c];
    }
  }

  /** An add never creates or removes an entity, and one to an unknown entity changes nothing. */
  lemma {:induction false} PutKeepsEntities(s: Store, id: Uuid, c: Component)
    ensures Put(s, id, c).Keys == s.Keys
    ensures id !in s ==> Put(s, id, c) == s
  {
    if id in s {
      assert Put(s, id, c).Keys == s.Keys + {id};
    }
  }

  /** Adding keeps every component filed under its own class. */
  lemma {:induction false} PutKeepsWellKeyed(s: Store, id: Uuid, c: Component)
    requires WellKeyed(s)
    ensures WellKeyed(Put(s, id, c))
  {
    var s' := Put(s, id, c);
    forall id' | id' in s'
      ensures EntityWellKeyed(s'[id'])
    {
      forall k | k in s'[id']
        ensures ClassOf(s'[id'][k]) == k
      {
        if id' == id && k == ClassOf(c) {
        } else {
          LookupAfterPut(s, id, c, id', k);
        }
      }
    }
  }

  /** After a removal nothing of the entity can be read, and other entities are untouched. */
  lemma {:induction false} LookupAfterRemove(s: Store, id: Uuid, id': Uuid, k: ComponentClass)
    ensures Lookup(s - {id}, id', k) == if id' == id then None else Lookup(s, id', k)
  {
  }

  class WorldState {
    var components: Store

    ghost predicate Valid()
      reads this
    {
      WellKeyed(components)
    }

    constructor ()
      ensures Valid() && components == map[]
    {
      components := map[];
    }

    /** `createEntity()`: a new entity with no components, under the fresh id supplied. */
    method CreateEntity(freshId: Uuid) returns (id: Uuid)
      requires Valid() && freshId !in components
      modifies this
      ensures Valid()
      ensures id == freshId && components == old(components)[id := map[]]
    {
      id := freshId;
      components := components[id := map[]];
    }

    /** `removeEntity(id)`: the entity and all its components go; unknown ids change nothing. */
    method RemoveEntity(id: Uuid)
      requires Valid()
      modifies this
      ensures Valid()
      ensures components == old(components) - {id}
    {
      components := components - {id};
    }

    method AddComponent(id: Uuid, c: Component)
      requires Valid()
      modifies this
      ensures Valid()
      ensures components == Put(old(components), id, c)
    {
      PutKeepsWellKeyed(components, id, c);
      if id in components {
        components := components[id := components[id][ClassOf(c) := c]];
      }
    }

    /** `getComponent(id, k)`; whatever it returns is of the requested class, so Java's
        unchecked cast to `T` is safe. */
    function GetComponent(id: Uuid, k: ComponentClass): (r: Option<Component>)
      reads this
      requires Valid()
      ensures r == Lookup(components, id, k)
      ensures r.Some? ==> ClassOf(r.value) == k
    {
      Lookup(components, id, k)
    }

    /** `getEntitiesWith(types...)`: each entity that holds every requested class, once; with no
        classes requested, every entity. The order is the key set's iteration order, which
        nothing here fixes. */
    method GetEntitiesWith(types: seq<ComponentClass>) returns (result: seq<Uuid>)
      ensures Distinct(result)
      ensures forall id :: id in result <==> id in components && HasAll(components[id], types)
      ensures types == [] ==> forall id :: id in result <==> id in components
    {
      result := [];
      var remaining := components.Keys;
      while remaining != {}
        invariant remaining <= components.Keys
        invariant Distinct(result)
        invariant forall id :: id in result ==> id !in remaining
        invariant forall id :: id in result <==> id in components && id !in remaining && HasAll(components[id], types)
        decreases remaining
      {
        var id :| id in remaining;
        var entityComponents := components[id];
        var hasAll := true;
        var i := 0;
        while i < |types|
          invariant 0 <= i <= |types|
          invariant hasAll <==> forall j :: 0 <= j < i ==> types[j] in entityComponents
        {
          if types[i] !in entityComponents {
            hasAll := false;
            break;
          }
          i := i + 1;
        }
        assert hasAll <==> HasAll(entityComponents, types);
        if hasAll {
          result := result + [id];
        }
        remaining := remaining - {id};
      }
    }

    /** `hasEntity(id)`: the id is live; an id that is not has no component of any class. */
    function HasEntity(id: Uuid): (b: bool)
      reads this
      ensures b <==> id in components
      ensures !b ==> forall k :: Lookup(components, id, k).None?
    {
      id in components
    }
  }
}
