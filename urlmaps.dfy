/** The first-seen URL lists the feed maps hold per campaign or
    advertiser: `m.setdefault(k, [])` and then appending each URL the list
    does not hold yet (app.py:658-661, 1675-1678, 2281-2284). */
module UrlMaps {
  import opened PyValue

  /** The list held for `k`, empty when the key has not been set. */
  function Urls<K>(m: map<K, seq<string>>, k: K): seq<string> {
    if k in m then m[k] else []
  }

  /** Merging a batch of URLs under a key; an empty batch leaves the map
      as it was (the builders only touch a key once they have a URL). */
  function Merge<K>(m: map<K, seq<string>>, k: K, us: seq<string>): (m': map<K, seq<string>>)
    ensures us == [] ==> m' == m
    ensures us != [] ==> m'.Keys == m.Keys + {k}
    ensures forall j :: j in m && j != k ==> j in m' && m'[j] == m[j]
  {
    if us == [] then m else m[k := AppendAll(Urls(m, k), us)]
  }

  /** One key and the URLs found for it in one source row. */
  datatype Batch<K> = Batch(key: K, urls: seq<string>)

  /** The map after merging the batches in turn. */
  function MergeAll<K>(m: map<K, seq<string>>, bs: seq<Batch<K>>): map<K, seq<string>>
    decreases |bs|
  {
    if bs == [] then m else Merge(MergeAll(m, bs[..|bs| - 1]), bs[|bs| - 1].key, bs[|bs| - 1].urls)
  }

  /** Every list in the map is non-empty and free of duplicates. */
  predicate WellFormedUrls<K>(m: map<K, seq<string>>) {
    forall k :: k in m ==> m[k] != [] && NoDup(m[k])
  }

  /** A merge adds exactly the batch, under its own key. */
  lemma MergeHolds<K>(m: map<K, seq<string>>, k: K, us: seq<string>, j: K, u: string)
    ensures u in Urls(Merge(m, k, us), j) <==> u in Urls(m, j) || (j == k && u in us)
  {
    AppendAllKeeps(Urls(m, k), us);
  }

  /** A merge keeps the map well formed and every key's old list as a
      prefix of its new one. */
  lemma MergeKeeps<K>(m: map<K, seq<string>>, k: K, us: seq<string>, j: K)
    ensures WellFormedUrls(m) ==> WellFormedUrls(Merge(m, k, us))
    ensures Urls(m, j) <= Urls(Merge(m, k, us), j)
  {
    AppendAllKeeps(Urls(m, k), us);
    if us != [] {
      assert us[0] in us;
    }
  }

  /** A URL is listed under a key exactly when it was listed before or
      some batch for that key carries it. */
  lemma {:induction false} MergeAllHolds<K>(m: map<K, seq<string>>, bs: seq<Batch<K>>, j: K, u: string)
    ensures u in Urls(MergeAll(m, bs), j) <==>
              u in Urls(m, j) || exists b :: b in bs && b.key == j && u in b.urls
    decreases |bs|
  {
    if bs != [] {
      var init := bs[..|bs| - 1];
      MergeAllHolds(m, init, j, u);
      MergeHolds(MergeAll(m, init), bs[|bs| - 1].key, bs[|bs| - 1].urls, j, u);
      assert bs == init + [bs[|bs| - 1]];
    }
  }

  /** Merging a single batch is one merge. */
  lemma MergeAllOne<K>(m: map<K, seq<string>>, b: Batch<K>)
    ensures MergeAll(m, [b]) == Merge(m, b.key, b.urls)
  {
    assert [b][..0] == [];
  }

  /** The first URL of a batch that is new to the key's list lands right
      after the old list. */
  lemma MergeFirstNew<K>(m: map<K, seq<string>>, k: K, us: seq<string>)
    requires us != [] && us[0] !in Urls(m, k)
    ensures var m' := Merge(m, k, us);
      k in m' && Urls(m, k) <= m'[k] && |m'[k]| > |Urls(m, k)| && m'[k][|Urls(m, k)|] == us[0]
  {
    AppendAllHead(Urls(m, k), us);
    AppendAllKeeps(Urls(m, k), us);
  }

  /** Merging keeps the map well formed and never reorders or drops a URL
      a key already had: lists only grow at the end. */
  lemma {:induction false} MergeAllKeeps<K>(m: map<K, seq<string>>, bs: seq<Batch<K>>, j: K)
    ensures WellFormedUrls(m) ==> WellFormedUrls(MergeAll(m, bs))
    ensures Urls(m, j) <= Urls(MergeAll(m, bs), j)
    decreases |bs|
  {
    if bs != [] {
      var init := bs[..|bs| - 1];
      MergeAllKeeps(m, init, j);
      MergeKeeps(MergeAll(m, init), bs[|bs| - 1].key, bs[|bs| - 1].urls, j);
    }
  }

  /** Merging the batches of `bs` and then `cs` is merging `bs + cs`. */
  lemma {:induction false} MergeAllConcat<K>(m: map<K, seq<string>>, bs: seq<Batch<K>>, cs: seq<Batch<K>>)
    ensures MergeAll(MergeAll(m, bs), cs) == MergeAll(m, bs + cs)
    decreases |cs|
  {
    if cs == [] {
      assert bs + cs == bs;
    } else {
      MergeAllConcat(m, bs, cs[..|cs| - 1]);
      assert (bs + cs)[..|bs + cs| - 1] == bs + cs[..|cs| - 1];
    }
  }

  /** The first URL of a batch that is new to the list lands right after
      the old list, ahead of every later URL of the batch. */
  lemma AppendAllHead<T>(s: seq<T>, us: seq<T>)
    requires us != [] && us[0] !in s
    ensures |AppendAll(s, us)| > |s| && AppendAll(s, us)[|s|] == us[0]
  {
    AppendAllConcat(s, [us[0]], us[1..]);
    assert [us[0]] + us[1..] == us;
    assert [us[0]][..0] == [];
    assert AppendAll(s, [us[0]]) == s + [us[0]];
    AppendAllKeeps(s + [us[0]], us[1..]);
  }

  /** `for u in us: if u not in out: out.append(u)`. */
  method AppendMissing(list: seq<string>, us: seq<string>) returns (out: seq<string>)
    ensures out == AppendAll(list, us)
  {
    out := list;
    for j := 0 to |us|
      invariant out == AppendAll(list, us[..j])
    {
      assert us[..j + 1][..j] == us[..j];
      if us[j] !in out {
        out := out + [us[j]];
      }
    }
    assert us[..|us|] == us;
  }

  /** `m.setdefault(k, [])` and the append loop, for a batch that has at
      least one URL. */
  method MergeInto<K>(m: map<K, seq<string>>, b: Batch<K>) returns (m': map<K, seq<string>>)
    ensures m' == MergeAll(m, [b])
  {
    m' := m;
    if b.urls != [] {
      var list := AppendMissing(Urls(m, b.key), b.urls);
      m' := m[b.key := list];
    }
    MergeAllOne(m, b);
  }
}
