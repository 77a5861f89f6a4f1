/** Sequence helpers shared by the stores and the pages: an Option type for
    absent or undecodable inputs, the `filter` that every handler uses to
    drop records, and the `Math.max` over ids that both stores use to
    assign a fresh id. */
module Seqs {

  datatype Option<+T> = None | Some(value: T)

  /** `xs.filter(keep)`: the elements for which `keep` holds, in order. */
  function Filter<T>(s: seq<T>, keep: T -> bool): (r: seq<T>)
    ensures |r| <= |s|
    ensures forall i :: 0 <= i < |r| ==> r[i] in s && keep(r[i])
    ensures forall i :: 0 <= i < |s| && keep(s[i]) ==> s[i] in r
    decreases |s|
  {
    if |s| == 0 then []
    else (if keep(s[0]) then [s[0]] else []) + Filter(s[1..], keep)
  }

  /** Filtering distributes over concatenation: the kept elements of a
      prefix come before the kept elements of the rest, so the filter keeps
      the original order. */
  lemma {:induction false} FilterAppend<T>(a: seq<T>, b: seq<T>, keep: T -> bool)
    ensures Filter(a + b, keep) == Filter(a, keep) + Filter(b, keep)
    decreases |a|
  {
    if |a| == 0 {
      assert a + b == b;
    } else {
      assert (a + b)[1..] == a[1..] + b;
      FilterAppend(a[1..], b, keep);
    }
  }

  /** A filter keeps everything exactly when it keeps the length, and then it
      returns its input unchanged. */
  lemma {:induction false} FilterKeepsAll<T>(s: seq<T>, keep: T -> bool)
    ensures |Filter(s, keep)| == |s| <==> forall i :: 0 <= i < |s| ==> keep(s[i])
    ensures |Filter(s, keep)| == |s| ==> Filter(s, keep) == s
    decreases |s|
  {
    if |s| > 0 {
      FilterKeepsAll(s[1..], keep);
      if !keep(s[0]) {
        assert |Filter(s, keep)| < |s|;
      } else {
        assert forall i :: 1 <= i < |s| ==> s[i] == s[1..][i - 1];
      }
    }
  }

  /** Filtering twice with the same predicate is filtering once. */
  lemma FilterIdempotent<T>(s: seq<T>, keep: T -> bool)
    ensures Filter(Filter(s, keep), keep) == Filter(s, keep)
  {
    var r := Filter(s, keep);
    assert forall i :: 0 <= i < |r| ==> r[i] in r;
    FilterKeepsAll(r, keep);
  }

  /** Two predicates that agree on every element filter alike. */
  lemma {:induction false} FilterCongruent<T>(s: seq<T>, f: T -> bool, g: T -> bool)
    requires forall i :: 0 <= i < |s| ==> f(s[i]) == g(s[i])
    ensures Filter(s, f) == Filter(s, g)
    decreases |s|
  {
    if |s| > 0 {
      FilterCongruent(s[1..], f, g);
    }
  }

  /** Exactly one of three flags is set. */
  predicate ExactlyOne(a: bool, b: bool, c: bool)
  {
    (a && !b && !c) || (!a && b && !c) || (!a && !b && c)
  }

  /** Three filters whose predicates never overlap and always cover split a
      sequence: every element lands in exactly one of the three results. */
  lemma {:induction false} FilterPartition3<T>(s: seq<T>, f: T -> bool, g: T -> bool, h: T -> bool)
    requires forall i :: 0 <= i < |s| ==> ExactlyOne(f(s[i]), g(s[i]), h(s[i]))
    ensures multiset(Filter(s, f)) + multiset(Filter(s, g)) + multiset(Filter(s, h)) == multiset(s)
    ensures |Filter(s, f)| + |Filter(s, g)| + |Filter(s, h)| == |s|
    decreases |s|
  {
    if |s| > 0 {
      FilterPartition3(s[1..], f, g, h);
      assert s == [s[0]] + s[1..];
    }
  }

  /** `xs.findIndex(matches)`: the first position whose element matches, or
      -1 when none does. */
  function FindIndex<T>(s: seq<T>, matches: T -> bool): (i: int)
    ensures -1 <= i < |s|
    ensures i == -1 <==> forall j :: 0 <= j < |s| ==> !matches(s[j])
    ensures 0 <= i ==> matches(s[i]) && forall j :: 0 <= j < i ==> !matches(s[j])
    decreases |s|
  {
    if |s| == 0 then -1
    else if matches(s[0]) then 0
    else
      var k := FindIndex(s[1..], matches);
      if k == -1 then -1 else k + 1
  }

  /** The largest id, or 0 for an empty store: the `maxId` both stores
      compute before a create (`Math.max(...ids)` guarded by a length test). */
  function MaxId(ids: seq<int>): (m: int)
    ensures |ids| == 0 ==> m == 0
    ensures |ids| > 0 ==> m in ids
    ensures forall i :: 0 <= i < |ids| ==> ids[i] <= m
    decreases |ids|
  {
    if |ids| == 0 then 0
    else if |ids| == 1 then ids[0]
    else
      var rest := MaxId(ids[1..]);
      if ids[0] >= rest then ids[0] else rest
  }

  /** `maxId + 1`: larger than every id in use, hence fresh. */
  function NextId(ids: seq<int>): (n: int)
    ensures forall i :: 0 <= i < |ids| ==> ids[i] < n
    ensures n !in ids
    ensures |ids| == 0 ==> n == 1
  {
    MaxId(ids) + 1
  }

  /** `xs.map((x) => x.id)`, for a record type whose id `key` reads. */
  function Ids<T>(s: seq<T>, key: T -> int): (ids: seq<int>)
    ensures |ids| == |s| && forall i :: 0 <= i < |s| ==> ids[i] == key(s[i])
  {
    seq(|s|, i requires 0 <= i < |s| => key(s[i]))
  }

  /** `(x) => x.id === id` */
  function IdIs<T>(key: T -> int, id: int): T -> bool
  {
    (x: T) => key(x) == id
  }

  /** `(x) => x.id !== id` */
  function IdIsNot<T>(key: T -> int, id: int): T -> bool
  {
    (x: T) => key(x) != id
  }

  /** `xs.filter((x) => x.id !== id)`: the delete every store and cart
      performs. No record with the id is left and every other record is
      kept. */
  function Without<T>(s: seq<T>, key: T -> int, id: int): (r: seq<T>)
    ensures forall i :: 0 <= i < |r| ==> key(r[i]) != id && r[i] in s
    ensures forall i :: 0 <= i < |s| && key(s[i]) != id ==> s[i] in r
  {
    Filter(s, IdIsNot(key, id))
  }

  /** The filter drops something exactly when the id is in use; when it drops
      nothing it returns its input unchanged. */
  lemma WithoutShrinksIffPresent<T>(s: seq<T>, key: T -> int, id: int)
    ensures |Without(s, key, id)| < |s| <==> id in Ids(s, key)
    ensures id !in Ids(s, key) ==> Without(s, key, id) == s
  {
    FilterKeepsAll(s, IdIsNot(key, id));
    if id in Ids(s, key) {
      var k :| 0 <= k < |s| && Ids(s, key)[k] == id;
      assert !IdIsNot(key, id)(s[k]);
    }
  }

  /** Deleting the fresh id of a record just appended gives back the
      sequence as it was before the append. */
  lemma DeleteUndoesAppend<T>(s: seq<T>, x: T, key: T -> int)
    requires key(x) !in Ids(s, key)
    ensures Without(s + [x], key, key(x)) == s
  {
    FilterAppend(s, [x], IdIsNot(key, key(x)));
    WithoutShrinksIffPresent(s, key, key(x));
    assert Filter([x], IdIsNot(key, key(x))) == [];
  }

  /** No two positions of `ids` hold the same id. */
  predicate Distinct(ids: seq<int>)
  {
    forall i, j :: 0 <= i < j < |ids| ==> ids[i] != ids[j]
  }

  /** With distinct ids, deleting an id in use removes exactly one record. */
  lemma {:induction false} WithoutDistinctRemovesOne<T>(s: seq<T>, key: T -> int, id: int)
    requires Distinct(Ids(s, key))
    requires id in Ids(s, key)
    ensures |Without(s, key, id)| == |s| - 1
    decreases |s|
  {
    assert Ids(s[1..], key) == Ids(s, key)[1..];
    if key(s[0]) == id {
      WithoutShrinksIffPresent(s[1..], key, id);
    } else {
      WithoutDistinctRemovesOne(s[1..], key, id);
    }
  }

  /** Deleting keeps ids distinct. */
  lemma {:induction false} WithoutKeepsDistinct<T>(s: seq<T>, key: T -> int, id: int)
    requires Distinct(Ids(s, key))
    ensures Distinct(Ids(Without(s, key, id), key))
    decreases |s|
  {
    if |s| > 0 {
      var tail := s[1..];
      assert Ids(tail, key) == Ids(s, key)[1..];
      WithoutKeepsDistinct(tail, key, id);
      var w := Without(tail, key, id);
      if key(s[0]) != id {
        assert Without(s, key, id) == [s[0]] + w;
        FreshHeadId(s, w, key);
        DistinctCons(s[0], w, key);
      } else {
        assert Without(s, key, id) == w;
      }
    }
  }

  /** A record whose id no record of a distinct list has can go in front. */
  lemma DistinctCons<T>(x: T, w: seq<T>, key: T -> int)
    requires Distinct(Ids(w, key))
    requires forall k :: 0 <= k < |w| ==> key(w[k]) != key(x)
    ensures Distinct(Ids([x] + w, key))
  {
    var ids := Ids([x] + w, key);
    forall i, j | 0 <= i < j < |ids|
      ensures ids[i] != ids[j]
    {
      if i == 0 {
        assert ids[j] == key(w[j - 1]);
      } else {
        assert ids[i] == Ids(w, key)[i - 1] && ids[j] == Ids(w, key)[j - 1];
      }
    }
  }

  /** Under distinct ids, no record taken from the tail shares the head's id. */
  lemma FreshHeadId<T>(s: seq<T>, w: seq<T>, key: T -> int)
    requires |s| > 0 && Distinct(Ids(s, key))
    requires forall k :: 0 <= k < |w| ==> w[k] in s[1..]
    ensures forall k :: 0 <= k < |w| ==> key(w[k]) != key(s[0])
  {
    forall k | 0 <= k < |w|
      ensures key(w[k]) != key(s[0])
    {
      var m :| 0 <= m < |s[1..]| && s[1..][m] == w[k];
      assert Ids(s, key)[m + 1] == key(w[k]);
    }
  }
}
