/**
 * The persisted block list: a set of user ids kept in the device's
 * key-value storage under one key, written as an array and read back as a
 * set. The storage is modelled as an in-memory map from keys to stored
 * values.
 */
module BlockList {
  import opened Reactor

  /** The storage key the block list lives under. */
  const Key: string := "blockedUserIds"

  /**
   * A value found in the key-value storage: an array of integers, or
   * anything else (an array of another element type, a string, ...).
   */
  datatype Stored = IntArray(ints: seq<int>) | OtherValue

  /** The set of the ids an array holds. */
  function Elements(a: seq<int>): set<int>
  {
    set x | x in a
  }

  predicate Distinct(a: seq<int>)
  {
    forall i, j :: 0 <= i < j < |a| ==> a[i] != a[j]
  }

  /**
   * Reading the block list: a missing value, or one that is not an array
   * of integers, reads as no ids; an integer array reads as the set of its
   * elements, so repeated ids collapse.
   */
  function Decode(v: Option<Stored>): (ids: set<int>)
    ensures (v.None? || v.value.OtherValue?) ==> ids == {}
    ensures v.Some? && v.value.IntArray? ==> forall x :: x in ids <==> x in v.value.ints
  {
    match v
    case Some(IntArray(a)) => Elements(a)
    case _ => {}
  }

  /**
   * An array has at most as many distinct ids as entries, and exactly as
   * many when no id repeats: collapsing duplicates is the only thing a
   * read-back loses.
   */
  lemma {:induction false} ElementsCardinality(a: seq<int>)
    ensures |Elements(a)| <= |a|
    ensures |Elements(a)| == |a| <==> Distinct(a)
    decreases |a|
  {
    if a != [] {
      var t := a[1..];
      ElementsCardinality(t);
      assert Elements(a) == {a[0]} + Elements(t) by {
        assert a == [a[0]] + t;
      }
      if a[0] in t {
        assert Elements(a) == Elements(t);
        var k :| 0 <= k < |t| && t[k] == a[0];
        assert a[0] == a[k + 1];
        assert !Distinct(a);
      } else {
        assert a[0] !in Elements(t);
        assert |Elements(a)| == 1 + |Elements(t)|;
        DistinctCons(a);
      }
    }
  }

  /** An array without repeats is its first element, not repeated, before a tail without repeats. */
  lemma DistinctCons(a: seq<int>)
    requires a != [] && a[0] !in a[1..]
    ensures Distinct(a) <==> Distinct(a[1..])
  {
    var t := a[1..];
    if Distinct(a) {
      forall i, j | 0 <= i < j < |t| ensures t[i] != t[j] {
        assert t[i] == a[i + 1] && t[j] == a[j + 1];
      }
    }
    if Distinct(t) {
      forall i, j | 0 <= i < j < |a| ensures a[i] != a[j] {
        if i > 0 {
          assert a[i] == t[i - 1] && a[j] == t[j - 1];
        } else {
          assert a[j] == t[j - 1];
        }
      }
    }
  }

  /** Writing a set and reading it back yields the same set. */
  lemma WriteThenRead(ids: set<int>, a: seq<int>)
    requires Elements(a) == ids
    ensures Decode(Some(IntArray(a))) == ids
  {
  }

  lemma HasElement(s: set<int>)
    requires s != {}
    ensures exists x :: x in s
  {
    if forall x :: x !in s {
      assert false;
    }
  }

  /** Moving one id from the ids still to place to the end of the array keeps the loop's invariants. */
  lemma PickStep(a: seq<int>, rest: set<int>, ids: set<int>, x: int)
    requires Elements(a) + rest == ids
    requires forall i :: 0 <= i < |a| ==> a[i] !in rest
    requires Distinct(a)
    requires x in rest
    ensures Elements(a + [x]) + (rest - {x}) == ids
    ensures forall i :: 0 <= i < |a + [x]| ==> (a + [x])[i] !in rest - {x}
    ensures Distinct(a + [x])
  {
    AppendFresh(a, x);
  }

  /** Appending an id the array does not hold keeps it repeat-free and adds just that id. */
  lemma AppendFresh(a: seq<int>, x: int)
    requires Distinct(a)
    requires forall i :: 0 <= i < |a| ==> a[i] != x
    ensures Distinct(a + [x])
    ensures Elements(a + [x]) == Elements(a) + {x}
  {
    var b := a + [x];
    forall i, j | 0 <= i < j < |b| ensures b[i] != b[j] {
      if j < |a| {
        assert b[i] == a[i] && b[j] == a[j];
      } else {
        assert b[i] == a[i];
      }
    }
  }

  /**
   * Turning a set into an array, as the setter does before it stores the
   * ids. The order of the array is left open, as it is for the set's own
   * enumeration; every id appears exactly once.
   */
  method ArrayFrom(ids: set<int>) returns (a: seq<int>)
    ensures Elements(a) == ids
    ensures Distinct(a)
    ensures |a| == |ids|
  {
    a := [];
    var rest := ids;
    while rest != {}
      invariant Elements(a) + rest == ids
      invariant forall i :: 0 <= i < |a| ==> a[i] !in rest
      invariant Distinct(a)
      decreases rest
    {
      HasElement(rest);
      var x :| x in rest;
      PickStep(a, rest, ids, x);
      a := a + [x];
      rest := rest - {x};
    }
    ElementsCardinality(a);
  }

  class BlockManager {
    /** The key-value storage the block list is persisted in. */
    var defaults: map<string, Stored>

    constructor (defaults: map<string, Stored>)
      ensures this.defaults == defaults
    {
      this.defaults := defaults;
    }

    /** The getter of the block list: the set read back from storage. */
    function BlockedUserIds(): (ids: set<int>)
      reads this
      ensures Key !in defaults || !defaults[Key].IntArray? ==> ids == {}
      ensures Key in defaults && defaults[Key].IntArray? ==> ids == Elements(defaults[Key].ints)
    {
      Decode(if Key in defaults then Some(defaults[Key]) else None)
    }

    /**
     * The setter of the block list: the ids are stored under the key as an
     * array without repeats, and every other key keeps its value.
     */
    method SetBlockedUserIds(newValue: set<int>)
      modifies this
      ensures BlockedUserIds() == newValue
      ensures Key in defaults && defaults[Key].IntArray? && Distinct(defaults[Key].ints)
      ensures defaults.Keys == old(defaults).Keys + {Key}
      ensures forall k :: k in old(defaults) && k != Key ==> defaults[k] == old(defaults)[k]
    {
      var a := ArrayFrom(newValue);
      defaults := defaults[Key := IntArray(a)];
    }

    /**
     * Adds one id. Afterwards it is blocked, no other id changed, and
     * blocking an id that was already blocked leaves the set as it was.
     */
    method Block(userId: int)
      modifies this
      ensures BlockedUserIds() == old(BlockedUserIds()) + {userId}
      ensures userId in BlockedUserIds()
      ensures forall v :: v != userId ==> (v in BlockedUserIds() <==> v in old(BlockedUserIds()))
      ensures userId in old(BlockedUserIds()) ==> BlockedUserIds() == old(BlockedUserIds())
      ensures defaults.Keys == old(defaults).Keys + {Key}
      ensures forall k :: k in old(defaults) && k != Key ==> defaults[k] == old(defaults)[k]
    {
      var ids := BlockedUserIds();
      ids := ids + {userId};
      SetBlockedUserIds(ids);
    }

    /**
     * Removes one id. Afterwards it is not blocked, no other id changed,
     * and unblocking an id that was not blocked leaves the set as it was.
     */
    method Unblock(userId: int)
      modifies this
      ensures BlockedUserIds() == old(BlockedUserIds()) - {userId}
      ensures userId !in BlockedUserIds()
      ensures forall v :: v != userId ==> (v in BlockedUserIds() <==> v in old(BlockedUserIds()))
      ensures userId !in old(BlockedUserIds()) ==> BlockedUserIds() == old(BlockedUserIds())
      ensures defaults.Keys == old(defaults).Keys + {Key}
      ensures forall k :: k in old(defaults) && k != Key ==> defaults[k] == old(defaults)[k]
    {
      var ids := BlockedUserIds();
      ids := ids - {userId};
      SetBlockedUserIds(ids);
    }

    /** Whether an id is blocked; reading changes nothing. */
    method IsBlocked(userId: int) returns (blocked: bool)
      ensures blocked <==> userId in BlockedUserIds()
    {
      var ids := BlockedUserIds();
      blocked := userId in ids;
    }
  }

  /** A client of the block list: block and unblock as seen through IsBlocked. */
  method BlockThenUnblock(manager: BlockManager, u: int, v: int)
    requires u != v
    modifies manager
    ensures manager.BlockedUserIds() == old(manager.BlockedUserIds()) - {u}
  {
    var before := manager.IsBlocked(v);
    manager.Block(u);
    var b := manager.IsBlocked(u);
    assert b;
    manager.Block(u);
    var again := manager.IsBlocked(v);
    assert again == before;
    manager.Unblock(u);
    b := manager.IsBlocked(u);
    assert !b;
  }
}
