/**
 * The JavaScript array operations the ledger is built from: findIndex, find,
 * filter, and the find-then-replace-or-push update used by the upserting
 * writers. Records are compared by a string key (their id or e-mail).
 */
module ArrayQueries {
  import opened Wrappers

  /** The predicate `x => key(x) === id` that every lookup by id passes. */
  function KeyIs<T>(key: T -> string, id: string): T -> bool {
    x => key(x) == id
  }

  /** Array.prototype.findIndex: the first index whose element satisfies p, or -1. */
  function FindIndex<T>(s: seq<T>, p: T -> bool): (r: int)
    ensures -1 <= r < |s|
    ensures r >= 0 ==> p(s[r]) && forall j | 0 <= j < r :: !p(s[j])
    ensures r == -1 <==> forall j | 0 <= j < |s| :: !p(s[j])
  {
    if s == [] then -1
    else if p(s[0]) then 0
    else
      var k := FindIndex(s[1..], p);
      assert forall j | 1 <= j < |s| :: s[j] == s[1..][j - 1];
      if k < 0 then -1 else k + 1
  }

  /** Array.prototype.find: the first element satisfying p, or None (`undefined`). */
  function Find<T>(s: seq<T>, p: T -> bool): (r: Option<T>)
    ensures r.Some? ==> r.value in s && p(r.value)
    ensures r.None? <==> forall x | x in s :: !p(x)
    ensures r.Some? ==> exists i | 0 <= i < |s| :: s[i] == r.value && forall j | 0 <= j < i :: !p(s[j])
  {
    var i := FindIndex(s, p);
    if i < 0 then None else Some(s[i])
  }

  /** Array.prototype.filter: the elements satisfying p, in their original order. */
  function Filter<T>(s: seq<T>, p: T -> bool): (r: seq<T>)
    ensures |r| <= |s|
    ensures forall i | 0 <= i < |r| :: r[i] in s && p(r[i])
    ensures forall i | 0 <= i < |s| && p(s[i]) :: s[i] in r
  {
    if s == [] then []
    else
      assert forall i | 1 <= i < |s| :: s[i] == s[1..][i - 1];
      (if p(s[0]) then [s[0]] else []) + Filter(s[1..], p)
  }

  /** Filtering distributes over concatenation: the filter keeps the stored order. */
  lemma {:induction false} FilterAppend<T>(a: seq<T>, b: seq<T>, p: T -> bool)
    ensures Filter(a + b, p) == Filter(a, p) + Filter(b, p)
  {
    if a == [] {
      assert a + b == b;
    } else {
      assert (a + b)[1..] == a[1..] + b;
      FilterAppend(a[1..], b, p);
    }
  }

  /**
   * The filter keeps every passing element as many times as it occurs, and
   * drops every other: with FilterAppend this pins the filter down to the
   * passing elements in their original order.
   */
  lemma {:induction false} FilterCounts<T>(s: seq<T>, p: T -> bool, x: T)
    ensures multiset(Filter(s, p))[x] == if p(x) then multiset(s)[x] else 0
    decreases |s|
  {
    if s != [] {
      var init, last := s[..|s| - 1], s[|s| - 1];
      assert s == init + [last];
      FilterAppend(init, [last], p);
      assert [last][1..] == [];
      FilterCounts(init, p, x);
    }
  }

  /** FilterCounts for every element at once. */
  lemma FilterCountsAll<T(!new)>(s: seq<T>, p: T -> bool)
    ensures forall x :: multiset(Filter(s, p))[x] == if p(x) then multiset(s)[x] else 0
  {
    forall x {
      FilterCounts(s, p, x);
    }
  }

  /**
   * The upsert of saveUser, saveEvent and saveElection: when some record has
   * the key of x, the first such record is replaced in place; otherwise x is
   * appended.
   */
  function Upsert<T>(s: seq<T>, x: T, key: T -> string): (r: seq<T>)
    ensures (forall j | 0 <= j < |s| :: key(s[j]) != key(x)) ==> r == s + [x]
    ensures forall i | 0 <= i < |s| && key(s[i]) == key(x) && (forall j | 0 <= j < i :: key(s[j]) != key(x)) ::
              |r| == |s| && r[i] == x && forall j | 0 <= j < |s| && j != i :: r[j] == s[j]
  {
    var i := FindIndex(s, KeyIs(key, key(x)));
    if i >= 0 then s[i := x] else s + [x]
  }

  /** After an upsert, looking the key up finds exactly the record just saved. */
  lemma FindAfterUpsert<T>(s: seq<T>, x: T, key: T -> string)
    ensures Find(Upsert(s, x, key), KeyIs(key, key(x))) == Some(x)
  {
    var p := KeyIs(key, key(x));
    var i := FindIndex(s, p);
    var r := Upsert(s, x, key);
    if i >= 0 {
      assert r == s[i := x];
      assert forall j | 0 <= j < i :: r[j] == s[j];
      assert FindIndex(r, p) == i;
    } else {
      assert r == s + [x];
      assert forall j | 0 <= j < |s| :: r[j] == s[j] && !p(r[j]);
      assert r[|s|] == x && p(x);
      assert FindIndex(r, p) == |s|;
    }
  }

  /** An upsert leaves the lookup of every other key as it was. */
  lemma FindOtherAfterUpsert<T>(s: seq<T>, x: T, key: T -> string, id: string)
    requires id != key(x)
    ensures Find(Upsert(s, x, key), KeyIs(key, id)) == Find(s, KeyIs(key, id))
  {
    var p := KeyIs(key, id);
    var i := FindIndex(s, KeyIs(key, key(x)));
    var r := Upsert(s, x, key);
    var k := FindIndex(s, p);
    if i >= 0 {
      assert r == s[i := x];
      assert forall j | 0 <= j < |s| :: p(r[j]) == p(s[j]);
      if k >= 0 {
        assert FindIndex(r, p) == k;
      } else {
        assert FindIndex(r, p) == -1;
      }
    } else {
      assert r == s + [x];
      assert forall j | 0 <= j < |s| :: r[j] == s[j];
      if k >= 0 {
        assert FindIndex(r, p) == k;
      } else {
        assert FindIndex(r, p) == -1;
      }
    }
  }
}
