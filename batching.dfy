/** Advertiser ids for the AWIN transactions request: sorted, then cut into
    batches of at most fifty (job.py:269, 282-285; app.py:1162, 1173-1176). */
module Batching {
  import opened Searches

  /** Requests carry at most this many advertiser ids. */
  const BatchSize: nat := 50

  predicate StrictlyIncreasing(s: seq<int>) {
    forall j, k :: 0 <= j < k < |s| ==> s[j] < s[k]
  }

  lemma MinExists(s: set<int>)
    requires s != {}
    ensures exists m :: m in s && forall y :: y in s ==> m <= y
    decreases |s|
  {
    HasElement(s);
    var x :| x in s;
    var rest := s - {x};
    if rest == {} {
      forall y | y in s ensures x <= y {
        assert y !in rest;
      }
    } else {
      MinExists(rest);
      var m :| m in rest && forall y :: y in rest ==> m <= y;
      var w := if x < m then x else m;
      forall y | y in s ensures w <= y {
        if y != x {
          assert y in rest;
        }
      }
      assert w in s;
    }
  }

  function Min(s: set<int>): (m: int)
    requires s != {}
    ensures m in s && forall y :: y in s ==> m <= y
  {
    MinExists(s);
    var m :| m in s && forall y :: y in s ==> m <= y;
    m
  }

  /** `sorted(ids)` of a set of ids. */
  function SortedIds(s: set<int>): (r: seq<int>)
    ensures |r| == |s|
    ensures forall x :: x in r <==> x in s
    ensures StrictlyIncreasing(r)
    decreases |s|
  {
    if s == {} then []
    else
      var m := Min(s);
      [m] + SortedIds(s - {m})
  }

  /** The slices `lst[i:i+n]` for `i` in `range(0, len(lst), n)`. */
  function Chunks<T>(s: seq<T>, n: nat): seq<seq<T>>
    requires n > 0
    decreases |s|
  {
    if s == [] then []
    else if |s| <= n then [s]
    else [s[..n]] + Chunks(s[n..], n)
  }

  function Flatten<T>(ss: seq<seq<T>>): seq<T>
    decreases |ss|
  {
    if ss == [] then [] else ss[0] + Flatten(ss[1..])
  }

  /** The batches cover the ids in order. */
  lemma {:induction false} ChunksFlatten<T>(s: seq<T>, n: nat)
    requires n > 0
    ensures Flatten(Chunks(s, n)) == s
    decreases |s|
  {
    if s == [] {
    } else if |s| <= n {
      assert Flatten([s]) == s + Flatten([s][1..]);
    } else {
      ChunksFlatten(s[n..], n);
      assert Flatten(Chunks(s, n)) == s[..n] + Flatten(Chunks(s[n..], n));
      assert s[..n] + s[n..] == s;
    }
  }

  /** No batch is empty, none exceeds `n`, and all but the last are full. */
  lemma {:induction false} ChunksSized<T>(s: seq<T>, n: nat)
    requires n > 0
    ensures forall j :: 0 <= j < |Chunks(s, n)| ==> 0 < |Chunks(s, n)[j]| <= n
    ensures forall j :: 0 <= j < |Chunks(s, n)| - 1 ==> |Chunks(s, n)[j]| == n
    decreases |s|
  {
    if |s| > n {
      ChunksSized(s[n..], n);
      var rest := Chunks(s[n..], n);
      assert Chunks(s, n) == [s[..n]] + rest;
      assert forall j :: 1 <= j < |Chunks(s, n)| ==> Chunks(s, n)[j] == rest[j - 1];
    }
  }

  /** The id batches of the transactions request, in request order. */
  function IdBatches(allowed: set<int>): (bs: seq<seq<int>>)
    ensures Flatten(bs) == SortedIds(allowed)
    ensures forall j :: 0 <= j < |bs| ==> 0 < |bs[j]| <= BatchSize
    ensures allowed == {} <==> bs == []
  {
    ChunksFlatten(SortedIds(allowed), BatchSize);
    ChunksSized(SortedIds(allowed), BatchSize);
    Chunks(SortedIds(allowed), BatchSize)
  }
}
