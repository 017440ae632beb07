/** Generic searches over a sequence that the feed pickers and map
    builders instantiate: filtering, finding the first non-empty text,
    concatenating per-element results, and `dict.setdefault` folds. */
module Searches {
  import opened Wrappers

  /** A set that is not empty has an element, for a `:|` to pick. */
  lemma HasElement(s: set<int>)
    requires s != {}
    ensures exists x :: x in s
  {
    if forall x :: x !in s {
      assert false;
    }
  }

  /** The elements of `xs` that `keep` accepts, in order. */
  function Filter<T(!new)>(xs: seq<T>, keep: T -> bool): (ys: seq<T>)
    ensures |ys| <= |xs|
    ensures forall y :: y in ys <==> y in xs && keep(y)
    decreases |xs|
  {
    if xs == [] then []
    else (if keep(xs[0]) then [xs[0]] else []) + Filter(xs[1..], keep)
  }

  /** The first accepted element heads the filtered sequence. */
  lemma {:induction false} FilterFirst<T(!new)>(xs: seq<T>, keep: T -> bool, j: nat)
    requires j < |xs| && keep(xs[j])
    requires forall i :: 0 <= i < j ==> !keep(xs[i])
    ensures Filter(xs, keep) != [] && Filter(xs, keep)[0] == xs[j]
    decreases j
  {
    if j > 0 {
      assert xs[1..][j - 1] == xs[j];
      assert forall i :: 0 <= i < j - 1 ==> xs[1..][i] == xs[i + 1];
      FilterFirst(xs[1..], keep, j - 1);
    }
  }

  /** The first element accepted by both tests heads the sequence filtered
      by one test and then by the other. */
  lemma {:induction false} FilterTwiceFirst<T(!new)>(xs: seq<T>, keep: T -> bool, also: T -> bool, j: nat)
    requires j < |xs| && keep(xs[j]) && also(xs[j])
    requires forall i :: 0 <= i < j ==> !(keep(xs[i]) && also(xs[i]))
    ensures Filter(Filter(xs, keep), also) != [] && Filter(Filter(xs, keep), also)[0] == xs[j]
    decreases j
  {
    if j > 0 {
      assert xs[1..][j - 1] == xs[j];
      assert forall i :: 0 <= i < j - 1 ==> xs[1..][i] == xs[i + 1];
      FilterTwiceFirst(xs[1..], keep, also, j - 1);
      var rest := Filter(xs[1..], keep);
      if keep(xs[0]) {
        assert ([xs[0]] + rest)[1..] == rest;
      } else {
        assert Filter(xs, keep) == rest;
      }
    }
  }

  /** Nothing is kept when no element is accepted. */
  lemma {:induction false} FilterNone<T(!new)>(xs: seq<T>, keep: T -> bool)
    requires forall i :: 0 <= i < |xs| ==> !keep(xs[i])
    ensures Filter(xs, keep) == []
    decreases |xs|
  {
    if xs != [] {
      assert forall i :: 0 <= i < |xs| - 1 ==> xs[1..][i] == xs[i + 1];
      FilterNone(xs[1..], keep);
    }
  }

  /** An element of the filtered sequence sits at some index of `xs`. */
  lemma FilteredFrom<T(!new)>(xs: seq<T>, keep: T -> bool, x: T)
    requires x in Filter(xs, keep)
    ensures exists k :: 0 <= k < |xs| && xs[k] == x
  {
    assert x in xs;
  }

  /** The first non-empty text of the elements in order, "" when there is
      none; an element whose text fails before that fails the search. */
  function FirstText<T>(xs: seq<T>, text: T -> Result<string>): Result<string>
    decreases |xs|
  {
    if xs == [] then Ok("")
    else match text(xs[0])
      case Err(e) => Err(e)
      case Ok(u) => if u != "" then Ok(u) else FirstText(xs[1..], text)
  }

  /** The search finds "" exactly when every element's text is "". */
  lemma {:induction false} FirstTextEmpty<T>(xs: seq<T>, text: T -> Result<string>)
    ensures FirstText(xs, text) == Ok("") <==> forall j :: 0 <= j < |xs| ==> text(xs[j]) == Ok("")
    decreases |xs|
  {
    if xs != [] && text(xs[0]) == Ok("") {
      FirstTextEmpty(xs[1..], text);
      assert forall j :: 1 <= j < |xs| ==> xs[j] == xs[1..][j - 1];
    }
  }

  /** A non-empty text found is the text of some element. */
  lemma {:induction false} FirstTextFrom<T>(xs: seq<T>, text: T -> Result<string>)
    requires FirstText(xs, text).Ok? && FirstText(xs, text).value != ""
    ensures exists j :: 0 <= j < |xs| && text(xs[j]) == FirstText(xs, text)
    decreases |xs|
  {
    if text(xs[0]) == Ok("") {
      FirstTextFrom(xs[1..], text);
      var j :| 0 <= j < |xs[1..]| && text(xs[1..][j]) == FirstText(xs, text);
      assert xs[j + 1] == xs[1..][j];
    }
  }

  /** A failing search fails with the error of an element whose text
      fails. */
  lemma {:induction false} FirstTextErr<T>(xs: seq<T>, text: T -> Result<string>)
    requires FirstText(xs, text).Err?
    ensures exists j :: 0 <= j < |xs| && text(xs[j]) == FirstText(xs, text)
    decreases |xs|
  {
    if text(xs[0]).Ok? {
      FirstTextErr(xs[1..], text);
      var j :| 0 <= j < |xs[1..]| && text(xs[1..][j]) == FirstText(xs[1..], text);
      assert xs[j + 1] == xs[1..][j];
    }
  }

  /** The first element with a non-empty text, after elements whose text
      is "", gives the result. */
  lemma {:induction false} FirstTextAt<T>(xs: seq<T>, text: T -> Result<string>, k: nat)
    requires k < |xs| && text(xs[k]).Ok? && text(xs[k]).value != ""
    requires forall i :: 0 <= i < k ==> text(xs[i]) == Ok("")
    ensures FirstText(xs, text) == text(xs[k])
    decreases k
  {
    if k > 0 {
      assert forall i :: 0 <= i < k - 1 ==> xs[1..][i] == xs[i + 1];
      FirstTextAt(xs[1..], text, k - 1);
    }
  }

  /** Searching the accepted elements finds the first accepted element
      with a non-empty text, when the accepted ones before it have "". */
  lemma {:induction false} FirstTextFiltered<T(!new)>(xs: seq<T>, keep: T -> bool, text: T -> Result<string>, k: nat)
    requires k < |xs| && keep(xs[k]) && text(xs[k]).Ok? && text(xs[k]).value != ""
    requires forall i :: 0 <= i < k && keep(xs[i]) ==> text(xs[i]) == Ok("")
    ensures FirstText(Filter(xs, keep), text) == text(xs[k])
    decreases k
  {
    var rest := Filter(xs[1..], keep);
    if k == 0 {
      assert Filter(xs, keep) == [xs[0]] + rest;
    } else {
      assert forall i :: 0 <= i < k - 1 ==> xs[1..][i] == xs[i + 1];
      FirstTextFiltered(xs[1..], keep, text, k - 1);
      if keep(xs[0]) {
        assert Filter(xs, keep) == [xs[0]] + rest;
      } else {
        assert Filter(xs, keep) == rest;
      }
    }
  }

  /** The per-element results of `f`, concatenated in order. */
  function Flatten<T, U>(xs: seq<T>, f: T -> seq<U>): seq<U>
    decreases |xs|
  {
    if xs == [] then [] else Flatten(xs[..|xs| - 1], f) + f(xs[|xs| - 1])
  }

  /** One more element appends its result. */
  lemma FlattenStep<T, U>(xs: seq<T>, f: T -> seq<U>, i: nat)
    requires i < |xs|
    ensures Flatten(xs[..i + 1], f) == Flatten(xs[..i], f) + f(xs[i])
  {
    assert xs[..i + 1][..i] == xs[..i];
  }

  /** The results of a prefix are a prefix of the results. */
  lemma {:induction false} FlattenPrefix<T, U>(xs: seq<T>, f: T -> seq<U>, i: nat)
    requires i <= |xs|
    ensures Flatten(xs[..i], f) <= Flatten(xs, f)
    decreases |xs| - i
  {
    if i < |xs| {
      FlattenStep(xs, f, i);
      FlattenPrefix(xs, f, i + 1);
    } else {
      assert xs[..i] == xs;
    }
  }

  /** `Flatten` appended after `acc`, one element's results at a time, as
      a loop appending to a log builds it. */
  function FlattenOnto<T, U>(acc: seq<U>, xs: seq<T>, f: T -> seq<U>): seq<U>
    decreases |xs|
  {
    if xs == [] then acc else FlattenOnto(acc, xs[..|xs| - 1], f) + f(xs[|xs| - 1])
  }

  /** Appending one element at a time appends their concatenation. */
  lemma {:induction false} FlattenOntoAppends<T, U>(acc: seq<U>, xs: seq<T>, f: T -> seq<U>)
    ensures FlattenOnto(acc, xs, f) == acc + Flatten(xs, f)
    decreases |xs|
  {
    if xs != [] {
      FlattenOntoAppends(acc, xs[..|xs| - 1], f);
    }
  }

  /** Nothing is produced when no element produces anything. */
  lemma {:induction false} FlattenNone<T, U>(xs: seq<T>, f: T -> seq<U>)
    requires forall j :: 0 <= j < |xs| ==> f(xs[j]) == []
    ensures Flatten(xs, f) == []
    decreases |xs|
  {
    if xs != [] {
      var init := xs[..|xs| - 1];
      assert forall j :: 0 <= j < |init| ==> init[j] == xs[j];
      FlattenNone(init, f);
    }
  }

  /** An element is in the concatenation exactly when some element's
      result holds it. */
  lemma {:induction false} FlattenHolds<T, U>(xs: seq<T>, f: T -> seq<U>, y: U)
    ensures y in Flatten(xs, f) <==> exists j :: 0 <= j < |xs| && y in f(xs[j])
    decreases |xs|
  {
    if xs != [] {
      var init := xs[..|xs| - 1];
      FlattenHolds(init, f, y);
      assert forall j :: 0 <= j < |init| ==> init[j] == xs[j];
    }
  }

  /** The per-element results of `f`, concatenated in order, or the first
      element's failure. */
  function FlattenResult<T, U>(xs: seq<T>, f: T -> Result<seq<U>>): Result<seq<U>>
    decreases |xs|
  {
    if xs == [] then Ok([])
    else match FlattenResult(xs[..|xs| - 1], f)
      case Err(e) => Err(e)
      case Ok(ys) =>
        match f(xs[|xs| - 1])
        case Err(e) => Err(e)
        case Ok(y) => Ok(ys + y)
  }

  /** One more element after a prefix that succeeded. */
  lemma FlattenResultStep<T, U>(xs: seq<T>, f: T -> Result<seq<U>>, i: nat, ys: seq<U>)
    requires i < |xs| && FlattenResult(xs[..i], f) == Ok(ys)
    ensures FlattenResult(xs[..i + 1], f) == match f(xs[i]) case Err(e) => Err(e) case Ok(y) => Ok(ys + y)
  {
    assert xs[..i + 1][..i] == xs[..i];
  }

  /** Once a prefix fails, the whole sequence fails the same way. */
  lemma {:induction false} FlattenResultErrKeeps<T, U>(xs: seq<T>, f: T -> Result<seq<U>>, n: nat)
    requires n <= |xs| && FlattenResult(xs[..n], f).Err?
    ensures FlattenResult(xs, f) == FlattenResult(xs[..n], f)
    decreases |xs| - n
  {
    if n < |xs| {
      assert xs[..n + 1][..n] == xs[..n];
      FlattenResultErrKeeps(xs, f, n + 1);
    } else {
      assert xs[..n] == xs;
    }
  }

  /** A property every successful per-element result has holds of the
      whole successful concatenation. */
  lemma {:induction false} FlattenResultAll<T, U>(xs: seq<T>, f: T -> Result<seq<U>>, ok: U -> bool)
    requires forall x :: f(x).Ok? ==> forall y :: y in f(x).value ==> ok(y)
    ensures FlattenResult(xs, f).Ok? ==> forall y :: y in FlattenResult(xs, f).value ==> ok(y)
    decreases |xs|
  {
    if xs != [] {
      FlattenResultAll(xs[..|xs| - 1], f, ok);
    }
  }

  /** `m.setdefault(k, v)` for every entry of the elements in order: the
      first value for a key is kept. */
  function SetDefaults<T, K, V>(xs: seq<T>, entry: T -> Option<(K, V)>): map<K, V>
    decreases |xs|
  {
    if xs == [] then map[]
    else
      var m := SetDefaults(xs[..|xs| - 1], entry);
      match entry(xs[|xs| - 1])
      case None => m
      case Some(kv) => if kv.0 in m then m else m[kv.0 := kv.1]
  }

  /** One more element: its entry is set unless its key already is. */
  lemma SetDefaultsStep<T, K, V>(xs: seq<T>, entry: T -> Option<(K, V)>, i: nat)
    requires i < |xs|
    ensures SetDefaults(xs[..i + 1], entry) ==
              match entry(xs[i])
              case None => SetDefaults(xs[..i], entry)
              case Some(kv) =>
                if kv.0 in SetDefaults(xs[..i], entry) then SetDefaults(xs[..i], entry)
                else SetDefaults(xs[..i], entry)[kv.0 := kv.1]
  {
    assert xs[..i + 1][..i] == xs[..i];
  }

  /** The element has an entry for key `k`. */
  predicate HasEntry<T, K(==), V>(x: T, entry: T -> Option<(K, V)>, k: K) {
    entry(x).Some? && entry(x).value.0 == k
  }

  /** A key is set exactly when some element has an entry for it. */
  lemma {:induction false} SetDefaultsKeys<T, K, V>(xs: seq<T>, entry: T -> Option<(K, V)>, k: K)
    ensures k in SetDefaults(xs, entry) <==> exists j :: 0 <= j < |xs| && HasEntry(xs[j], entry, k)
    decreases |xs|
  {
    if xs != [] {
      var init := xs[..|xs| - 1];
      SetDefaultsKeys(init, entry, k);
      assert forall j :: 0 <= j < |init| ==> init[j] == xs[j];
    }
  }

  /** The first element with an entry for a key gives its value. */
  lemma {:induction false} SetDefaultsFirstWins<T, K, V>(xs: seq<T>, entry: T -> Option<(K, V)>, k: K, j: nat)
    requires j < |xs| && HasEntry(xs[j], entry, k)
    requires forall i :: 0 <= i < j ==> !HasEntry(xs[i], entry, k)
    ensures k in SetDefaults(xs, entry) && SetDefaults(xs, entry)[k] == entry(xs[j]).value.1
    decreases |xs|
  {
    var init := xs[..|xs| - 1];
    assert forall i :: 0 <= i < |init| ==> init[i] == xs[i];
    if j < |init| {
      SetDefaultsFirstWins(init, entry, k, j);
    } else {
      SetDefaultsKeys(init, entry, k);
    }
  }
}
