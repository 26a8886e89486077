/** A collection of the document store as a map from id to record, with the
    two store operations every service relies on: a filtered `find` and a
    unique index. */
module Tables {
  import opened Common

  /** `find(filter)` sorted by creation time, newest first: the rows with an
      id below `bound` whose record satisfies `keep`, highest id first. */
  function Select<R>(rows: map<Id, R>, keep: R -> bool, bound: nat): seq<(Id, R)>
    decreases bound
  {
    if bound == 0 then []
    else if bound - 1 in rows && keep(rows[bound - 1]) then
      [(bound - 1, rows[bound - 1])] + Select(rows, keep, bound - 1)
    else
      Select(rows, keep, bound - 1)
  }

  /** Ids strictly decrease along `s`, so every id appears once and newer
      documents come first. */
  predicate NewestFirst<R>(s: seq<(Id, R)>) {
    forall i, j :: 0 <= i < j < |s| ==> s[i].0 > s[j].0
  }

  /** The set of ids below `bound` whose row satisfies `keep`. */
  function Matching<R>(rows: map<Id, R>, keep: R -> bool, bound: nat): set<Id> {
    set k | k in rows && k < bound && keep(rows[k])
  }

  /** `Select` returns exactly the matching rows, each with its own record. */
  lemma {:induction false} SelectMembers<R>(rows: map<Id, R>, keep: R -> bool, bound: nat)
    ensures forall k, v :: (k, v) in Select(rows, keep, bound) <==>
      k in rows && k < bound && rows[k] == v && keep(v)
    decreases bound
  {
    if bound > 0 {
      SelectMembers(rows, keep, bound - 1);
    }
  }

  /** `Select` lists ids below `bound`, newest first. */
  lemma {:induction false} SelectOrdered<R>(rows: map<Id, R>, keep: R -> bool, bound: nat)
    ensures NewestFirst(Select(rows, keep, bound))
    ensures forall i :: 0 <= i < |Select(rows, keep, bound)| ==> Select(rows, keep, bound)[i].0 < bound
    decreases bound
  {
    if bound > 0 {
      SelectOrdered(rows, keep, bound - 1);
    }
  }

  /** `countDocuments(filter)`: the length of `Select` is the number of
      matching documents. */
  lemma {:induction false} SelectCount<R>(rows: map<Id, R>, keep: R -> bool, bound: nat)
    ensures |Select(rows, keep, bound)| == |Matching(rows, keep, bound)|
    decreases bound
  {
    if bound > 0 {
      SelectCount(rows, keep, bound - 1);
      var k := bound - 1;
      if k in rows && keep(rows[k]) {
        assert Matching(rows, keep, bound) == Matching(rows, keep, k) + {k};
      } else {
        assert Matching(rows, keep, bound) == Matching(rows, keep, k);
      }
    }
  }

  /** A unique index on `key`: no two documents share a key. */
  predicate Unique<R, K(==)>(rows: map<Id, R>, key: R -> K) {
    forall i, j :: i in rows && j in rows && key(rows[i]) == key(rows[j]) ==> i == j
  }

  /** Some document other than those in `except` has key `k` (the
      `findOne({ key, _id: { $ne: id } })` probe). */
  predicate HeldBy<R, K(==)>(rows: map<Id, R>, key: R -> K, k: K, except: set<Id>) {
    exists i :: i in rows && i !in except && key(rows[i]) == k
  }

  /** Writing `v` at `id` keeps a unique index when no other document holds
      the key of `v`; this covers both an insert and an in-place update. */
  lemma WriteKeepsUnique<R, K>(rows: map<Id, R>, key: R -> K, id: Id, v: R)
    requires Unique(rows, key)
    requires !HeldBy(rows, key, key(v), {id})
    ensures Unique(rows[id := v], key)
  {
  }

  /** Deleting documents keeps a unique index. */
  lemma RemoveKeepsUnique<R, K>(rows: map<Id, R>, key: R -> K, gone: set<Id>)
    requires Unique(rows, key)
    ensures Unique(rows - gone, key)
  {
  }
}
