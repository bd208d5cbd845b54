/**
  The definition-id registry of a session (simconnect.go, `getDefinitionID`
  and the initial state the constructor sets up): record type names mapped to
  the data-definition ids allocated for them, and the counter that hands out
  the next id.
*/
module Registry {
  import opened SimconnectData

  /** `definitionMap` and `nextDefinitionID` of a session. */
  datatype Registry = Registry(definitionMap: map<string, u32>, nextDefinitionID: u32)

  /** The state a new session starts in: no names, counter at 0. */
  const Initial := Registry(map[], 0)

  /** `x++` on a uint32. */
  function Increment(x: u32): (y: u32)
    ensures x < U32_MAX ==> y == x + 1
    ensures x == U32_MAX ==> y == 0
  {
    (x + 1) % 0x1_0000_0000
  }

  /**
    `getDefinitionID`: the id cached for `name`, or else the counter's value,
    stored for `name` before the counter moves on; whether the id is new; and
    the registry afterwards.
  */
  function DefinitionID(r: Registry, name: string): (u32, bool, Registry)
  {
    if name in r.definitionMap then (r.definitionMap[name], false, r)
    else
      var m := r.definitionMap[name := r.nextDefinitionID];
      (m[name], true, Registry(m, Increment(r.nextDefinitionID)))
  }

  /**
    The registry's invariant: every stored id is below the counter, no two
    names share an id, and the counter equals the number of names, so the
    stored ids are exactly 0 up to the counter.
  */
  ghost predicate Valid(r: Registry)
  {
    && (forall k | k in r.definitionMap :: r.definitionMap[k] < r.nextDefinitionID)
    && (forall k, l | k in r.definitionMap && l in r.definitionMap && k != l :: r.definitionMap[k] != r.definitionMap[l])
    && |r.definitionMap| == r.nextDefinitionID
  }

  /** A new session's registry satisfies the invariant. */
  lemma InitialValid()
    ensures Valid(Initial)
    ensures Initial.definitionMap == map[] && Initial.nextDefinitionID == 0
  {
  }

  /**
    A lookup returns the cached id and changes nothing when the name is known.
    Otherwise, while the counter has not reached its maximum, it allocates
    the counter's value, advances the counter by exactly one, adds only that
    name and keeps the invariant.
  */
  lemma DefinitionIDSpec(r: Registry, name: string)
    requires Valid(r)
    ensures var (id, created, r') := DefinitionID(r, name);
      && (created <==> name !in r.definitionMap)
      && (!created ==> id == r.definitionMap[name] && r' == r)
      && (created ==> id == r.nextDefinitionID)
      && (created && r.nextDefinitionID < U32_MAX ==>
            && r'.nextDefinitionID == r.nextDefinitionID + 1
            && r'.definitionMap.Keys == r.definitionMap.Keys + {name}
            && (forall k | k in r.definitionMap :: r'.definitionMap[k] == r.definitionMap[k])
            && r'.definitionMap[name] == id
            && Valid(r'))
  {
    var (id, created, r') := DefinitionID(r, name);
    if created && r.nextDefinitionID < U32_MAX {
      assert r'.definitionMap.Keys == r.definitionMap.Keys + {name};
      assert |r'.definitionMap| == |r.definitionMap| + 1;
    }
  }

  /** A second lookup of the same name returns the same id and allocates nothing. */
  lemma DefinitionIDIdempotent(r: Registry, name: string)
    ensures var (id, _, r') := DefinitionID(r, name);
      DefinitionID(r', name) == (id, false, r')
  {
  }

  /** The ids the lookups of `names` return, in order, and the registry afterwards. */
  function LookupAll(r: Registry, names: seq<string>): (res: (seq<u32>, Registry))
    ensures |res.0| == |names|
    decreases |names|
  {
    if names == [] then ([], r)
    else
      var (id, _, r1) := DefinitionID(r, names[0]);
      var rest := LookupAll(r1, names[1..]);
      ([id] + rest.0, rest.1)
  }

  /**
    A run of lookups knows exactly the old names and the looked-up ones, and
    never changes an id already handed out.
  */
  lemma {:induction false} LookupAllKeys(r: Registry, names: seq<string>)
    ensures LookupAll(r, names).1.definitionMap.Keys == r.definitionMap.Keys + (set n | n in names)
    ensures forall k | k in r.definitionMap ::
      k in LookupAll(r, names).1.definitionMap && LookupAll(r, names).1.definitionMap[k] == r.definitionMap[k]
    decreases |names|
  {
    if names != [] {
      var r1 := DefinitionID(r, names[0]).2;
      LookupAllKeys(r1, names[1..]);
      assert (set n | n in names) == {names[0]} + set n | n in names[1..];
    }
  }

  /**
    Any run of lookups from a valid registry, short of exhausting the counter,
    keeps it valid and moves the counter by at most one per lookup.
  */
  lemma {:induction false} LookupAllValid(r: Registry, names: seq<string>)
    requires Valid(r)
    requires r.nextDefinitionID + |names| <= U32_MAX
    ensures Valid(LookupAll(r, names).1)
    ensures LookupAll(r, names).1.nextDefinitionID <= r.nextDefinitionID + |names|
    decreases |names|
  {
    if names != [] {
      var r1 := DefinitionID(r, names[0]).2;
      assert Valid(r1) && r1.nextDefinitionID <= r.nextDefinitionID + 1 by {
        DefinitionIDSpec(r, names[0]);
      }
      LookupAllValid(r1, names[1..]);
    }
  }

  /**
    Each lookup in a run returns the id its name is stored under at the end
    of the run.
  */
  lemma {:induction false} LookupAllIds(r: Registry, names: seq<string>)
    ensures forall i | 0 <= i < |names| ::
      names[i] in LookupAll(r, names).1.definitionMap && LookupAll(r, names).0[i] == LookupAll(r, names).1.definitionMap[names[i]]
    decreases |names|
  {
    if names != [] {
      var r1 := DefinitionID(r, names[0]).2;
      LookupAllKeys(r1, names[1..]);
      LookupAllIds(r1, names[1..]);
      var (ids, r') := LookupAll(r, names);
      forall i | 1 <= i < |names|
        ensures names[i] in r'.definitionMap && ids[i] == r'.definitionMap[names[i]]
      {
        assert names[i] == names[1..][i - 1];
      }
    }
  }

  /**
    From a new session, distinct names looked up in any order get distinct
    ids, equal names equal ids, and every id is below the counter.
  */
  lemma FreshSessionIdsDistinct(names: seq<string>, i: nat, j: nat)
    requires |names| <= U32_MAX
    requires i < |names| && j < |names|
    ensures LookupAll(Initial, names).0[i] == LookupAll(Initial, names).0[j] <==> names[i] == names[j]
    ensures LookupAll(Initial, names).0[i] < LookupAll(Initial, names).1.nextDefinitionID
  {
    InitialValid();
    LookupAllValid(Initial, names);
    LookupAllKeys(Initial, names);
    LookupAllIds(Initial, names);
  }
}
