/** Sub-id (click reference) filtering of transaction rows, in the three
    flavours the networks use (job.py:300-317, 385-395, 492-507; the app.py
    copies at 246-257, 396-416 and 1185-1203 are the same). */
module SubIds {
  import opened PyValue

  /** Which network's sub-id fields and contains-mode rule apply. */
  datatype Network = Awin | Addrev | Impact

  function SubIdKeys(net: Network): seq<string> {
    match net
    case Awin => ["clickRef", "clickRef2", "clickRef3", "clickRef4", "clickRef5", "clickRef6"]
    case Addrev => ["clickRef", "clickref", "subId", "subid", "epi", "epi1", "epi2"]
    case Impact => ["SubId1", "SubId2", "SubId3", "SharedId", "PromoCode"]
  }

  /** `[str(row.get(k)) for k in keys if row.get(k)]`. */
  function SubIdValues(row: Row, keys: seq<string>, bi: Builtins): (vals: seq<string>)
    ensures |vals| <= |keys|
    ensures vals == [] <==> forall j :: 0 <= j < |keys| ==> !Truthy(Get(row, keys[j]))
  {
    if keys == [] then []
    else
      var v := Get(row, keys[0]);
      (if Truthy(v) then [Show(v, bi)] else []) + SubIdValues(row, keys[1..], bi)
  }

  /** The filter list as every network prepares it: each entry stripped,
      blank entries dropped, lower-cased for comparison. */
  function Wanted(refs: seq<string>): (w: seq<string>)
    ensures |w| <= |refs|
  {
    if refs == [] then [] else WantedOne(refs[0]) + Wanted(refs[1..])
  }

  /** One filter entry, prepared: nothing when it is blank. */
  function WantedOne(ref: string): (h: seq<string>)
    ensures |h| <= 1
    ensures h == [] <==> Strip(ref) == ""
    ensures h != [] ==> h[0] != ""
  {
    if Strip(ref) != "" then [Lower(Strip(ref))] else []
  }

  /** No prepared filter is blank. */
  lemma {:induction false} WantedNonBlank(refs: seq<string>)
    ensures forall j :: 0 <= j < |Wanted(refs)| ==> Wanted(refs)[j] != ""
    decreases |refs|
  {
    if refs != [] {
      WantedNonBlank(refs[1..]);
      assert Wanted(refs) == WantedOne(refs[0]) + Wanted(refs[1..]);
    }
  }

  /** The prepared list is empty exactly when every entry is blank, which
      switches the filter off. */
  lemma WantedEmptyIff(refs: seq<string>)
    ensures Wanted(refs) == [] <==> forall j :: 0 <= j < |refs| ==> Blank(refs[j])
  {
    if forall j :: 0 <= j < |refs| ==> Blank(refs[j]) {
      AllBlankWantsNothing(refs);
    } else {
      var j :| 0 <= j < |refs| && !Blank(refs[j]);
      NonBlankIsWanted(refs, j);
    }
  }

  lemma {:induction false} AllBlankWantsNothing(refs: seq<string>)
    requires forall j :: 0 <= j < |refs| ==> Blank(refs[j])
    ensures Wanted(refs) == []
    decreases |refs|
  {
    if refs != [] {
      assert Blank(refs[0]);
      assert forall j :: 0 <= j < |refs| - 1 ==> refs[1..][j] == refs[j + 1];
      AllBlankWantsNothing(refs[1..]);
    }
  }

  lemma {:induction false} NonBlankIsWanted(refs: seq<string>, j: nat)
    requires j < |refs| && !Blank(refs[j])
    ensures |Wanted(refs)| > 0
    decreases j
  {
    assert Wanted(refs) == WantedOne(refs[0]) + Wanted(refs[1..]);
    if j == 0 {
      assert |WantedOne(refs[0])| == 1;
    } else {
      assert refs[1..][j - 1] == refs[j];
      NonBlankIsWanted(refs[1..], j - 1);
    }
  }

  /** An entry that strips to nothing. */
  predicate Blank(ref: string) {
    Strip(ref) == ""
  }

  function LowerAll(vals: seq<string>): (low: seq<string>)
    ensures |low| == |vals|
    ensures forall j :: 0 <= j < |vals| ==> low[j] == Lower(vals[j])
  {
    if vals == [] then [] else [Lower(vals[0])] + LowerAll(vals[1..])
  }

  function Separator(net: Network): string {
    match net
    case Awin => ""
    case Addrev => "|"
    case Impact => " "
  }

  /** Contains mode: AWIN tests each filter against each value on its own;
      Addrevenue and Impact test it against all values joined by "|" or " ". */
  predicate ContainsMatch(net: Network, vals: seq<string>, want: seq<string>) {
    if net == Awin then
      exists w, v :: w in want && v in vals && Contains(Lower(v), w)
    else
      exists w :: w in want && Contains(Lower(Join(Separator(net), vals)), w)
  }

  /** Exact mode: the lower-cased values meet the lower-cased filters. */
  predicate ExactMatch(vals: seq<string>, want: seq<string>) {
    exists v :: v in vals && Lower(v) in want
  }

  /** Whether a row passes a non-empty filter list. */
  predicate RowMatches(net: Network, row: Row, want: seq<string>, contains: bool, bi: Builtins) {
    var vals := SubIdValues(row, SubIdKeys(net), bi);
    vals != [] && (if contains then ContainsMatch(net, vals, want) else ExactMatch(vals, want))
  }

  /** The rows a sub-id filter keeps, in their original order. */
  function FilterRows(net: Network, rows: seq<Row>, refs: seq<string>, contains: bool, bi: Builtins): (out: seq<Row>)
    ensures |out| <= |rows|
    ensures Wanted(refs) == [] ==> out == rows
    ensures Wanted(refs) != [] ==> forall r :: r in out <==> r in rows && RowMatches(net, r, Wanted(refs), contains, bi)
  {
    if Wanted(refs) == [] then rows
    else if rows == [] then []
    else
      (if RowMatches(net, rows[0], Wanted(refs), contains, bi) then [rows[0]] else [])
        + FilterRows(net, rows[1..], refs, contains, bi)
  }

  /** A row without any sub-id field never passes a non-empty filter. */
  lemma RowWithoutSubIdsDropped(net: Network, rows: seq<Row>, row: Row, refs: seq<string>, contains: bool, bi: Builtins)
    requires Wanted(refs) != []
    requires forall j :: 0 <= j < |SubIdKeys(net)| ==> !Truthy(Get(row, SubIdKeys(net)[j]))
    ensures row !in FilterRows(net, rows, refs, contains, bi)
  {
  }

  // ---------------------------------------- joined versus per-value search

  lemma LowerConcat(a: string, b: string)
    ensures Lower(a + b) == Lower(a) + Lower(b)
  {
    assert forall k :: 0 <= k < |a + b| ==> Lower(a + b)[k] == (Lower(a) + Lower(b))[k];
  }

  /** Lower-casing the joined text is joining the lower-cased values. */
  lemma {:induction false} LowerJoin(sep: string, vals: seq<string>)
    requires Lower(sep) == sep
    ensures Lower(Join(sep, vals)) == Join(sep, LowerAll(vals))
    decreases |vals|
  {
    if |vals| > 1 {
      LowerJoin(sep, vals[1..]);
      LowerConcat(vals[0] + sep, Join(sep, vals[1..]));
      LowerConcat(vals[0], sep);
      assert LowerAll(vals)[1..] == LowerAll(vals[1..]);
    }
  }

  /** A block that lies in `a + [c] + b` lies in `a`, lies in `b`, or
      holds `c`. */
  lemma SplitOccurrence(a: string, c: char, b: string, w: string)
    requires Contains(a + [c] + b, w)
    ensures Contains(a, w) || Contains(b, w) || c in w
  {
    var t := a + [c] + b;
    var k :| 0 <= k <= |t| - |w| && OccursAt(t, w, k);
    if k + |w| <= |a| {
      assert a[k..k + |w|] == t[k..k + |w|];
      assert OccursAt(a, w, k);
    } else if k > |a| {
      assert b[k - |a| - 1..k - |a| - 1 + |w|] == t[k..k + |w|];
      assert OccursAt(b, w, k - |a| - 1);
    } else {
      assert w[|a| - k] == t[k..k + |w|][|a| - k] == t[|a|] == c;
    }
  }

  /** A block found in the joined values is found in one of them when it
      does not hold the separator. */
  lemma {:induction false} JoinedFoundInValue(c: char, vals: seq<string>, w: string)
    requires vals != [] && c !in w
    requires Contains(Join([c], vals), w)
    ensures exists v :: v in vals && Contains(v, w)
    decreases |vals|
  {
    if |vals| == 1 {
      assert vals[0] in vals;
    } else {
      var rest := Join([c], vals[1..]);
      assert Join([c], vals) == vals[0] + [c] + rest;
      SplitOccurrence(vals[0], c, rest, w);
      if Contains(vals[0], w) {
        assert vals[0] in vals;
      } else {
        JoinedFoundInValue(c, vals[1..], w);
        var v :| v in vals[1..] && Contains(v, w);
        assert v in vals;
      }
    }
  }

  /** A block found in one value is found in the joined values. */
  lemma {:induction false} ValueFoundInJoined(c: char, vals: seq<string>, v: string, w: string)
    requires v in vals && Contains(v, w)
    ensures Contains(Join([c], vals), w)
    decreases |vals|
  {
    if |vals| > 1 {
      var rest := Join([c], vals[1..]);
      if v == vals[0] {
        ContainsWithin(vals[0], w, "", [c] + rest);
        assert "" + vals[0] + ([c] + rest) == Join([c], vals);
      } else {
        assert v in vals[1..];
        ValueFoundInJoined(c, vals[1..], v, w);
        ContainsWithin(rest, w, vals[0] + [c], "");
        assert vals[0] + [c] + rest + "" == Join([c], vals);
      }
    }
  }

  /** For a filter without the separator character, searching the joined
      values finds exactly what searching each value finds. */
  lemma JoinedSearchIsPerValue(c: char, vals: seq<string>, w: string)
    requires vals != []
    requires c !in w
    ensures Contains(Join([c], vals), w) <==> exists v :: v in vals && Contains(v, w)
  {
    if Contains(Join([c], vals), w) {
      JoinedFoundInValue(c, vals, w);
    }
    if exists v :: v in vals && Contains(v, w) {
      var v :| v in vals && Contains(v, w);
      ValueFoundInJoined(c, vals, v, w);
    }
  }

  /** Consequently the Addrevenue and Impact contains modes agree with the
      AWIN one whenever no filter holds their separator. */
  lemma ContainsModesAgree(net: Network, vals: seq<string>, want: seq<string>)
    requires net != Awin && vals != []
    requires forall w :: w in want ==> Separator(net)[0] !in w
    ensures ContainsMatch(net, vals, want) <==> ContainsMatch(Awin, vals, want)
  {
    var c := Separator(net)[0];
    assert Separator(net) == [c];
    LowerJoin([c], vals);
    var low := LowerAll(vals);
    forall w | w in want
      ensures Contains(Lower(Join([c], vals)), w) <==> exists v :: v in vals && Contains(Lower(v), w)
    {
      JoinedSearchIsPerValue(c, low, w);
      if exists u :: u in low && Contains(u, w) {
        var u :| u in low && Contains(u, w);
        var j :| 0 <= j < |low| && low[j] == u;
        assert vals[j] in vals;
      }
      if exists v :: v in vals && Contains(Lower(v), w) {
        var v :| v in vals && Contains(Lower(v), w);
        var j :| 0 <= j < |vals| && vals[j] == v;
        assert low[j] in low;
      }
    }
  }

  /** With a separator inside the filter the modes part ways: "b|c" is found
      in the Addrevenue joined text "ab|cd" but in neither value alone. */
  lemma ContainsModesDiffer()
    ensures ContainsMatch(Addrev, ["ab", "cd"], ["b|c"])
    ensures !ContainsMatch(Awin, ["ab", "cd"], ["b|c"])
  {
    var joined := Lower(Join(Separator(Addrev), ["ab", "cd"]));
    assert joined == "ab|cd";
    assert OccursAt(joined, "b|c", 1);
    assert Contains(joined, "b|c");
    assert "b|c" in ["b|c"];
  }
}
