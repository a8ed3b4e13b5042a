/** The rovers of one plateau: identity, naming from a finite pool, and lookup by id. */
module RoverCollections {
  import opened Directions
  import opened Options
  import opened Rovers

  /** The pool every collection starts with. */
  const InitialNames: seq<string> := ["Curiosity", "Pursuit", "Vision"]

  /** No value occurs twice. */
  predicate Distinct<T(==)>(s: seq<T>) {
    forall i, j :: 0 <= i < j < |s| ==> s[i] != s[j]
  }

  /** A sequence is distinct exactly when no value occurs in it more than once. */
  lemma {:induction false} DistinctByCount<T>(s: seq<T>)
    ensures Distinct(s) <==> forall v :: multiset(s)[v] <= 1
  {
    if s != [] {
      var t := s[1..];
      DistinctByCount(t);
      assert s == [s[0]] + t;
      assert multiset(s) == multiset{s[0]} + multiset(t);
      if Distinct(s) {
        assert Distinct(t) by {
          forall i, j | 0 <= i < j < |t| ensures t[i] != t[j] {
            assert t[i] == s[i + 1] && t[j] == s[j + 1];
          }
        }
        assert s[0] !in t by {
          forall k | 0 <= k < |t| ensures t[k] != s[0] {
            assert t[k] == s[k + 1];
          }
        }
        forall v ensures multiset(s)[v] <= 1 {
          assert multiset(t)[v] <= 1;
        }
      } else {
        var i, j :| 0 <= i < j < |s| && s[i] == s[j];
        if i == 0 {
          assert t[j - 1] == s[0];
          assert s[0] in multiset(t);
          assert multiset(s)[s[0]] >= 2;
        } else {
          assert t[i - 1] == t[j - 1];
          assert !Distinct(t);
          var v :| multiset(t)[v] > 1;
          assert multiset(s)[v] > 1;
        }
      }
    }
  }

  /** The names of a sequence of rovers, in order. */
  function NamesOf(rs: seq<Rover>): seq<string> {
    seq(|rs|, i requires 0 <= i < |rs| => rs[i].name)
  }

  /** The ids of a sequence of rovers, in order. */
  function IdsOf(rs: seq<Rover>): seq<Guid> {
    seq(|rs|, i requires 0 <= i < |rs| => rs[i].id)
  }

  /** The ids after appending a rover are the ids before, then its id. */
  lemma IdsOfAppend(rs: seq<Rover>, rover: Rover)
    ensures IdsOf(rs + [rover]) == IdsOf(rs) + [rover.id]
  {
  }

  /** List.Remove on the pool: drop the first occurrence of v, if any. */
  function RemoveFirst<T(==)>(s: seq<T>, v: T): (r: seq<T>)
    ensures v !in s ==> r == s
    ensures v in s ==> |r| == |s| - 1
    ensures multiset(r) == multiset(s) - multiset{v}
  {
    if s == [] then []
    else
      assert s == [s[0]] + s[1..];
      if s[0] == v then s[1..]
      else [s[0]] + RemoveFirst(s[1..], v)
  }

  /** Removing the value at position i, when it does not occur earlier, leaves the others in order. */
  lemma {:induction false} RemoveFirstAt<T>(s: seq<T>, i: nat)
    requires i < |s|
    requires forall j :: 0 <= j < i ==> s[j] != s[i]
    ensures RemoveFirst(s, s[i]) == s[..i] + s[i + 1..]
  {
    if i > 0 {
      var t := s[1..];
      TailKeepsEarlierDistinct(s, i);
      RemoveFirstAt(t, i - 1);
      assert RemoveFirst(s, s[i]) == [s[0]] + (t[..i - 1] + t[i..]);
      ConsSplit(s, i);
    }
  }

  lemma TailKeepsEarlierDistinct<T>(s: seq<T>, i: nat)
    requires 0 < i < |s|
    requires forall j :: 0 <= j < i ==> s[j] != s[i]
    ensures s[1..][i - 1] == s[i]
    ensures forall j :: 0 <= j < i - 1 ==> s[1..][j] != s[1..][i - 1]
  {
  }

  lemma ConsSplit<T>(s: seq<T>, i: nat)
    requires 0 < i < |s|
    ensures [s[0]] + (s[1..][..i - 1] + s[1..][i..]) == s[..i] + s[i + 1..]
  {
    assert s[1..][..i - 1] == s[1..i];
    assert s[1..][i..] == s[i + 1..];
    assert s[..i] == [s[0]] + s[1..i];
  }

  /** Moving the pool entry at i to the end of the used names keeps the two together unchanged. */
  lemma TakeFromPool(used: seq<string>, pool: seq<string>, i: nat)
    requires i < |pool|
    ensures multiset(used + [pool[i]]) + multiset(pool[..i] + pool[i + 1..]) ==
      multiset(used) + multiset(pool)
  {
    assert pool == pool[..i] + [pool[i]] + pool[i + 1..];
  }

  /** The collection invariant over a list of rovers and the pool left. */
  ghost predicate PoolInvariant(rovers: seq<Rover>, pool: seq<string>) {
    multiset(NamesOf(rovers)) + multiset(pool) == multiset(InitialNames) &&
    Distinct(IdsOf(rovers))
  }

  /** The initial pool has no repeated name. */
  lemma InitialNamesDistinct()
    ensures forall v :: multiset(InitialNames)[v] <= 1
  {
    assert Distinct(InitialNames) by {
      assert InitialNames[0] != InitialNames[1] by { assert InitialNames[0][0] != InitialNames[1][0]; }
      assert InitialNames[0] != InitialNames[2] by { assert InitialNames[0][0] != InitialNames[2][0]; }
      assert InitialNames[1] != InitialNames[2] by { assert InitialNames[1][0] != InitialNames[2][0]; }
    }
    DistinctByCount(InitialNames);
  }

  /** Under the invariant, the names in use followed by the names left repeat nothing and number three. */
  lemma AllNamesDistinct(rovers: seq<Rover>, pool: seq<string>)
    requires PoolInvariant(rovers, pool)
    ensures Distinct(NamesOf(rovers) + pool)
    ensures |rovers| + |pool| == 3
  {
    var all := NamesOf(rovers) + pool;
    assert multiset(all) == multiset(InitialNames);
    InitialNamesDistinct();
    DistinctByCount(all);
    assert |multiset(all)| == |all|;
  }

  /** Under the invariant, names in use and names left are all different, and there are three of them. */
  lemma NamesUniqueUnder(rovers: seq<Rover>, pool: seq<string>)
    requires PoolInvariant(rovers, pool)
    ensures forall i, k :: 0 <= i < |rovers| && 0 <= k < |pool| ==> rovers[i].name != pool[k]
    ensures Distinct(NamesOf(rovers)) && Distinct(pool)
    ensures |rovers| + |pool| == 3
  {
    var names := NamesOf(rovers);
    var all := names + pool;
    AllNamesDistinct(rovers, pool);
    forall i, k | 0 <= i < |rovers| && 0 <= k < |pool| ensures rovers[i].name != pool[k] {
      assert all[i] == rovers[i].name && all[|rovers| + k] == pool[k];
    }
    forall a, b | 0 <= a < b < |pool| ensures pool[a] != pool[b] {
      assert all[|rovers| + a] == pool[a] && all[|rovers| + b] == pool[b];
    }
    forall a, b | 0 <= a < b < |names| ensures names[a] != names[b] {
      assert all[a] == names[a] && all[b] == names[b];
    }
  }

  /** In a pool without repeats, the entry at pick is gone once it is removed. */
  lemma PickedNameLeavesPool<T>(pool: seq<T>, pick: nat)
    requires Distinct(pool) && pick < |pool|
    ensures RemoveFirst(pool, pool[pick]) == pool[..pick] + pool[pick + 1..]
    ensures pool[pick] !in RemoveFirst(pool, pool[pick])
  {
    assert forall j :: 0 <= j < pick ==> pool[j] != pool[pick];
    RemoveFirstAt(pool, pick);
    OthersDiffer(pool, pick);
  }

  /** Without repeats, no entry other than the one at pick equals it. */
  lemma OthersDiffer<T>(pool: seq<T>, pick: nat)
    requires Distinct(pool) && pick < |pool|
    ensures pool[pick] !in pool[..pick] + pool[pick + 1..]
  {
    var rest := pool[..pick] + pool[pick + 1..];
    forall k | 0 <= k < |rest| ensures rest[k] != pool[pick] {
      if k < pick {
        assert rest[k] == pool[k];
      } else {
        assert rest[k] == pool[k + 1] && pick < k + 1;
      }
    }
  }

  /** Appending a rover whose id is not yet used keeps the ids distinct. */
  lemma FreshIdKeepsIdsDistinct(before: seq<Rover>, rover: Rover)
    requires Distinct(IdsOf(before)) && rover.id !in IdsOf(before)
    ensures Distinct(IdsOf(before + [rover]))
  {
    var old_ids, ids := IdsOf(before), IdsOf(before + [rover]);
    assert ids == old_ids + [rover.id];
    forall i, j | 0 <= i < j < |ids| ensures ids[i] != ids[j] {
      if j == |before| {
        assert ids[i] == old_ids[i];
      } else {
        assert ids[i] == old_ids[i] && ids[j] == old_ids[j];
      }
    }
  }

  /** Appending a rover named after the pool entry at pick, with an unused id, and dropping that entry keeps the invariant. */
  lemma AppendKeepsInvariant(before: seq<Rover>, pool: seq<string>, rover: Rover, pick: nat)
    requires PoolInvariant(before, pool)
    requires pick < |pool| && rover.name == pool[pick] && rover.id !in IdsOf(before)
    ensures PoolInvariant(before + [rover], pool[..pick] + pool[pick + 1..])
  {
    var after := before + [rover];
    assert NamesOf(after) == NamesOf(before) + [rover.name];
    TakeFromPool(NamesOf(before), pool, pick);
    FreshIdKeepsIdsDistinct(before, rover);
  }

  /** The position of the first rover with the given id (the FirstOrDefault search), if any. */
  function FirstMatch(rs: seq<Rover>, id: Guid): (k: Option<nat>)
    ensures k.Some? ==> k.value < |rs| && rs[k.value].id == id
    ensures k.Some? ==> forall j :: 0 <= j < k.value ==> rs[j].id != id
    ensures k.None? <==> forall j :: 0 <= j < |rs| ==> rs[j].id != id
  {
    if rs == [] then None
    else if rs[0].id == id then Some(0)
    else match FirstMatch(rs[1..], id)
      case None => None
      case Some(k) => Some(k + 1)
  }

  /** Looking up the id of a rover appended behind rovers with other ids finds that rover. */
  lemma {:induction false} FirstMatchAppended(before: seq<Rover>, rover: Rover)
    requires rover.id !in IdsOf(before)
    ensures FirstMatch(before + [rover], rover.id) == Some(|before|)
  {
    if before != [] {
      assert IdsOf(before)[0] == before[0].id;
      assert IdsOf(before[1..]) == IdsOf(before)[1..];
      FirstMatchAppended(before[1..], rover);
      assert (before + [rover])[1..] == before[1..] + [rover];
    }
  }

  /** What Add relies on: appending the rover named after the pool entry at pick, under the invariant. */
  lemma AddStep(rovers: seq<Rover>, pool: seq<string>, rover: Rover, pick: nat)
    requires PoolInvariant(rovers, pool)
    requires pick < |pool| && rover.name == pool[pick] && rover.id !in IdsOf(rovers)
    ensures RemoveFirst(pool, rover.name) == pool[..pick] + pool[pick + 1..]
    ensures rover.name !in RemoveFirst(pool, rover.name)
    ensures PoolInvariant(rovers + [rover], RemoveFirst(pool, rover.name))
    ensures FirstMatch(rovers + [rover], rover.id) == Some(|rovers|)
  {
    NamesUniqueUnder(rovers, pool);
    PickedNameLeavesPool(pool, pick);
    AppendKeepsInvariant(rovers, pool, rover, pick);
    FirstMatchAppended(rovers, rover);
  }

  /** The outcome of Add: the new rover's id, or the exhausted pool (indexing the empty name list). */
  datatype AddResult = Added(id: Guid) | NamePoolExhausted

  /** The list of rovers on one plateau, with the pool of names not yet given out. */
  class RoverCollection {
    const plateauId: Guid
    var rovers: seq<Rover>
    var names: seq<string>

    /** Names in use plus names left are the initial pool; no two rovers share an id. */
    ghost predicate Valid()
      reads this
    {
      PoolInvariant(rovers, names)
    }

    /** A valid collection has distinct names, none of them still in the pool, and at most three rovers. */
    lemma NamesUnique()
      requires Valid()
      ensures forall i, k :: 0 <= i < |rovers| && 0 <= k < |names| ==> rovers[i].name != names[k]
      ensures Distinct(NamesOf(rovers)) && Distinct(names)
      ensures |rovers| + |names| == 3
    {
      NamesUniqueUnder(rovers, names);
    }

    /** A new collection for a plateau: no rovers, the full pool. */
    constructor (plateauId: Guid)
      ensures this.plateauId == plateauId
      ensures rovers == [] && names == InitialNames
      ensures Valid()
    {
      this.plateauId := plateauId;
      rovers := [];
      names := InitialNames;
    }

    /** The number of rovers held; with the names left, it makes up the pool of three. */
    function Count(): (n: nat)
      reads this
      ensures Valid() ==> n + |names| == 3
    {
      assert Valid() ==> |rovers| + |names| == 3 by {
        if Valid() {
          NamesUnique();
        }
      }
      |rovers|
    }

    /** The indexer: the first rover with the given id, or none. */
    function Get(id: Guid): (r: Option<Rover>)
      reads this
      ensures r.Some? ==> r.value in rovers && r.value.id == id
      ensures r.None? <==> id !in IdsOf(rovers)
    {
      assert forall j :: 0 <= j < |rovers| ==> IdsOf(rovers)[j] == rovers[j].id;
      match FirstMatch(rovers, id)
      case None => None
      case Some(k) => Some(rovers[k])
    }

    /**
     * Add a rover at (x, y) facing the given way. The name is the pool entry at
     * pick (the random draw) and leaves the pool; the new rover goes at the end.
     * With an empty pool nothing is created and nothing changes.
     */
    method Add(x: int, y: int, facing: Direction, pick: nat, roverId: Guid) returns (r: AddResult)
      requires Valid()
      requires pick < |names| || pick == 0
      requires roverId !in IdsOf(rovers)
      modifies this
      ensures Valid()
      ensures old(names) == [] ==> r == NamePoolExhausted && rovers == old(rovers) && names == old(names)
      ensures old(names) != [] ==>
        r == Added(roverId) &&
        |rovers| == |old(rovers)| + 1 && rovers == old(rovers) + [rovers[|old(rovers)|]] &&
        fresh(rovers[|old(rovers)|]) &&
        rovers[|old(rovers)|].State() == Pose(x, y, facing) &&
        rovers[|old(rovers)|].id == roverId &&
        rovers[|old(rovers)|].name == old(names)[pick] &&
        rovers[|old(rovers)|].name !in names &&
        names == old(names)[..pick] + old(names)[pick + 1..]
      ensures r.Added? ==> Get(r.id) == Some(rovers[|rovers| - 1])
    {
      if names == [] {
        return NamePoolExhausted;
      }
      var roverName := names[pick];
      var rover := new Rover(x, y, roverName, facing, roverId);
      AddStep(rovers, names, rover, pick);
      names := RemoveFirst(names, roverName);
      rovers := rovers + [rover];
      r := Added(rover.id);
    }
  }

  /** An add with an unused id while the pool is not empty takes one name and appends that id. */
  method AddFresh(c: RoverCollection, x: int, y: int, facing: Direction, pick: nat, id: Guid)
    returns (r: AddResult)
    requires c.Valid() && pick < |c.names| && id !in IdsOf(c.rovers)
    modifies c
    ensures c.Valid() && r.Added? && |c.names| == old(|c.names|) - 1
    ensures IdsOf(c.rovers) == old(IdsOf(c.rovers)) + [id]
  {
    ghost var before := c.rovers;
    r := c.Add(x, y, facing, pick, id);
    IdsOfAppend(before, c.rovers[|before|]);
  }

  /** Three adds on a new collection, with ids 1, 2 and 3, use up the pool. */
  method FillPool(c: RoverCollection, x: int, y: int, facing: Direction, draw1: nat, draw2: nat)
    returns (r1: AddResult, r2: AddResult, r3: AddResult)
    requires c.Valid() && c.rovers == [] && draw1 < 3 && draw2 < 2
    modifies c
    ensures c.Valid() && IdsOf(c.rovers) == [1, 2, 3] && c.names == []
    ensures r1.Added? && r2.Added? && r3.Added?
  {
    c.NamesUnique();
    r1 := AddFresh(c, x, y, facing, draw1, 1);
    r2 := AddFresh(c, x, y, facing, draw2, 2);
    r3 := AddFresh(c, x, y, facing, 0, 3);
    assert IdsOf(c.rovers) == [1, 2, 3];
    c.NamesUnique();
  }

  /**
   * A new collection takes exactly three rovers: three adds (with any draws
   * the random generator can give) succeed and hand out the three pool names
   * once each; the fourth finds the pool empty.
   */
  method PoolHoldsThree(plateauId: Guid, x: int, y: int, facing: Direction, draw1: nat, draw2: nat)
    returns (results: seq<AddResult>, given: seq<string>)
    requires draw1 < 3 && draw2 < 2
    ensures |results| == 4
    ensures results[0].Added? && results[1].Added? && results[2].Added?
    ensures results[3] == NamePoolExhausted
    ensures |given| == 3 && multiset(given) == multiset(InitialNames)
  {
    var c := new RoverCollection(plateauId);
    var r1, r2, r3 := FillPool(c, x, y, facing, draw1, draw2);
    var r4 := c.Add(x, y, facing, 0, 4);
    results := [r1, r2, r3, r4];
    given := NamesOf(c.rovers);
    assert c.names == [] && multiset(given) + multiset(c.names) == multiset(InitialNames);
  }
}
