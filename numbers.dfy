/** Amount coercion, the FX-rate guard and the metrics record every
    network aggregator returns (job.py:104-155, app.py:179-192, 1404-1420). */
module Numbers {
  import opened Wrappers
  import opened PyValue

  /** `float(s.replace(",", "").strip())`, 0.0 when Python raises. */
  function ParseAmount(s: string, bi: Builtins): real {
    bi.parseFloat(Strip(RemoveChar(s, ','))).GetOr(0.0)
  }

  /** `to_num`: numbers as floats, text parsed without thousands
      separators, dicts unwrapped through the first present key among
      amount, value and val, anything else 0.0. */
  function ToNum(v: Value, bi: Builtins): (r: real)
    ensures v.Null? || v.List? ==> r == 0.0
    ensures v.Str? && bi.parseFloat(Strip(RemoveChar(v.s, ','))).None? ==> r == 0.0
    ensures v.Dict? && "amount" !in v.fields && "value" !in v.fields && "val" !in v.fields ==> r == 0.0
  {
    match v
    case Bool(b) => if b then 1.0 else 0.0
    case Int(i) => i as real
    case Float(x) => x
    case Str(s) => ParseAmount(s, bi)
    case Dict(f) =>
      if "amount" in f then ToNum(f["amount"], bi)
      else if "value" in f then ToNum(f["value"], bi)
      else if "val" in f then ToNum(f["val"], bi)
      else 0.0
    case _ => 0.0
  }

  /** The Impact aggregator's local `to_float`: `to_num` without the dict
      case. */
  function ToFloat(v: Value, bi: Builtins): real {
    match v
    case Bool(b) => if b then 1.0 else 0.0
    case Int(i) => i as real
    case Float(x) => x
    case Str(s) => ParseAmount(s, bi)
    case _ => 0.0
  }

  /** On everything except text and dicts, `to_num` is Python's `float()`,
      with 0.0 where `float()` raises. */
  lemma ToNumIsFloat(v: Value, bi: Builtins)
    requires !v.Str? && !v.Dict?
    ensures ToNum(v, bi) == PyFloat(v, bi).GetOr(0.0)
  {
  }

  /** The Impact `to_float` agrees with `to_num` except on dicts, where it
      gives 0.0. */
  lemma ToFloatAgreesWithToNum(v: Value, bi: Builtins)
    ensures v.Dict? ==> ToFloat(v, bi) == 0.0
    ensures !v.Dict? ==> ToFloat(v, bi) == ToNum(v, bi)
  {
  }

  lemma {:induction false} RemoveCharTwice(s: string, c: char)
    ensures RemoveChar(RemoveChar(s, c), c) == RemoveChar(s, c)
  {
    if s != [] {
      RemoveCharTwice(s[1..], c);
      var head := if s[0] == c then [] else [s[0]];
      var t := head + RemoveChar(s[1..], c);
      assert RemoveChar(s, c) == t;
      if s[0] != c {
        assert t[0] == s[0] && t[1..] == RemoveChar(s[1..], c);
      } else {
        assert t == RemoveChar(s[1..], c);
      }
    }
  }

  /** Thousands separators never change a parsed amount. */
  lemma ToNumIgnoresCommas(s: string, bi: Builtins)
    ensures ToNum(Str(s), bi) == ToNum(Str(RemoveChar(s, ',')), bi)
  {
    RemoveCharTwice(s, ',');
  }

  /** `{"amount": v}` nested `depth` times. */
  function Wrapped(v: Value, depth: nat): Value {
    if depth == 0 then v else Dict(map["amount" := Wrapped(v, depth - 1)])
  }

  /** `{"amount": w}` converts as `w` does. */
  lemma ToNumAmount(w: Value, bi: Builtins)
    ensures ToNum(Dict(map["amount" := w]), bi) == ToNum(w, bi)
  {
    var m := map["amount" := w];
    assert "amount" in m && m["amount"] == w;
  }

  /** However deeply an amount is wrapped in `{"amount": ...}`, `to_num`
      reaches it. */
  lemma {:induction false} ToNumUnwraps(v: Value, depth: nat, bi: Builtins)
    ensures ToNum(Wrapped(v, depth), bi) == ToNum(v, bi)
  {
    if depth > 0 {
      var w := Wrapped(v, depth - 1);
      ToNumAmount(w, bi);
      ToNumUnwraps(v, depth - 1, bi);
    }
  }

  /** The reply of the exchange-rate service: the request failed
      (network error, HTTP error, undecodable body), or this JSON body. */
  datatype FxAnswer = FxFailed | FxAnswered(body: Value)

  /** `get_fx_rate(base, target)`: 1.0 without a lookup when a code is
      empty or both are the same ignoring case; otherwise `float()` of the
      reply's truthy `result`, with 1.0 on every failure. */
  function FxRate(base: string, target: string, lookup: (string, string) -> FxAnswer, bi: Builtins): (rate: real)
    ensures base == "" || target == "" || Upper(base) == Upper(target) ==> rate == 1.0
    ensures rate != 1.0 ==> lookup(Upper(base), Upper(target)).FxAnswered?
  {
    if base == "" || target == "" || Upper(base) == Upper(target) then 1.0
    else match lookup(Upper(base), Upper(target))
      case FxFailed => 1.0
      case FxAnswered(body) =>
        var data := if Truthy(body) then body else Dict(map[]);
        if !data.Dict? then 1.0
        else PyFloat(Or([Get(data.fields, "result"), Float(1.0)]), bi).GetOr(1.0)
  }

  /** A failed lookup, a reply that is not an object, a missing, null or
      zero `result`, and a `result` that `float()` rejects all fall back to
      1.0; a non-zero number is used as it is, whatever its sign, `True`
      counts as 1.0, and a text that parses is used even when it parses to
      zero. */
  lemma FxRateFallbacks(base: string, target: string, lookup: (string, string) -> FxAnswer, bi: Builtins, f: map<string, Value>)
    requires base != "" && target != "" && Upper(base) != Upper(target)
    ensures lookup(Upper(base), Upper(target)) == FxFailed ==> FxRate(base, target, lookup, bi) == 1.0
    ensures lookup(Upper(base), Upper(target)).FxAnswered? && !lookup(Upper(base), Upper(target)).body.Dict?
      ==> FxRate(base, target, lookup, bi) == 1.0
    ensures lookup(Upper(base), Upper(target)) == FxAnswered(Dict(f)) && !Truthy(Get(f, "result"))
      ==> FxRate(base, target, lookup, bi) == 1.0
    ensures lookup(Upper(base), Upper(target)) == FxAnswered(Dict(f)) && Get(f, "result").Float? && Get(f, "result").x != 0.0
      ==> FxRate(base, target, lookup, bi) == Get(f, "result").x
    ensures lookup(Upper(base), Upper(target)) == FxAnswered(Dict(f)) && Get(f, "result").Int? && Get(f, "result").i != 0
      ==> FxRate(base, target, lookup, bi) == Get(f, "result").i as real
    ensures lookup(Upper(base), Upper(target)) == FxAnswered(Dict(f)) && Get(f, "result").Bool?
      ==> FxRate(base, target, lookup, bi) == 1.0
    ensures lookup(Upper(base), Upper(target)) == FxAnswered(Dict(f)) && Get(f, "result").Str? && Get(f, "result").s != ""
      ==> FxRate(base, target, lookup, bi) == bi.parseFloat(Get(f, "result").s).GetOr(1.0)
    ensures lookup(Upper(base), Upper(target)) == FxAnswered(Dict(f)) && (Get(f, "result").List? || Get(f, "result").Dict?)
      ==> FxRate(base, target, lookup, bi) == 1.0
  {
    var r := Get(f, "result");
    if !Truthy(r) {
      OrIsFirstTruthy([r, Float(1.0)], 1);
    } else {
      OrIsFirstTruthy([r, Float(1.0)], 0);
    }
  }

  /** With a code missing or both codes equal, the lookup is never
      consulted: any two services give the same rate. */
  lemma FxRateNeedsNoLookup(base: string, target: string, l1: (string, string) -> FxAnswer, l2: (string, string) -> FxAnswer, bi: Builtins)
    requires base == "" || target == "" || Upper(base) == Upper(target)
    ensures FxRate(base, target, l1, bi) == FxRate(base, target, l2, bi) == 1.0
  {
  }

  // ------------------------------------------------------------ metrics

  /** The dict every aggregator returns: the three commission totals (in
      the target currency), the rows they were computed from, and
      diagnostics. */
  datatype Metrics = Metrics(total: real, confirmed: real, pending: real, raw: seq<Row>, meta: Row)

  const MetricKeys: seq<string> := ["total_comm", "confirmed_comm", "pending_comm"]

  function RowsValue(rows: seq<Row>): (v: Value)
    ensures v.List? && |v.items| == |rows|
    ensures forall k :: 0 <= k < |rows| ==> v.items[k] == Dict(rows[k])
  {
    List(seq(|rows|, k requires 0 <= k < |rows| => Dict(rows[k])))
  }

  /** The Python dict a `Metrics` stands for. */
  function MetricsDict(m: Metrics): Row {
    map["total_comm" := Float(m.total), "confirmed_comm" := Float(m.confirmed),
        "pending_comm" := Float(m.pending), "raw" := RowsValue(m.raw), "meta" := Dict(m.meta)]
  }

  /** `blank_metrics()`. */
  function BlankMetrics(): Metrics {
    Metrics(0.0, 0.0, 0.0, [], map[])
  }

  /** Which copy of the normaliser: app.py keeps a list argument as `raw`,
      job.py does not. */
  datatype Origin = App | Job

  /** `float(m.get(k, 0.0) or 0.0)`, with 0.0 where `float()` raises. */
  function CoerceMetric(v: Value, bi: Builtins): real {
    if Truthy(v) then PyFloat(v, bi).GetOr(0.0) else 0.0
  }

  /** The dict after the first `n` commission keys were coerced. */
  function CoercedPrefix(f: Row, n: nat, bi: Builtins): (g: Row)
    requires n <= |MetricKeys|
    ensures forall k :: k in f ==> k in g
    ensures forall j :: 0 <= j < n ==> MetricKeys[j] in g
  {
    if n == 0 then f
    else
      var g := CoercedPrefix(f, n - 1, bi);
      g[MetricKeys[n - 1] := Float(CoerceMetric(Get(g, MetricKeys[n - 1]), bi))]
  }

  /** `m.setdefault(key, d)`. */
  function SetDefault(f: Row, key: string, d: Value): (g: Row)
    ensures key in g && (key in f ==> g[key] == f[key]) && (key !in f ==> g[key] == d)
    ensures forall k :: k != key ==> (k in g <==> k in f)
    ensures forall k :: k != key && k in f ==> g[k] == f[k]
  {
    if key in f then f else f[key := d]
  }

  /** What `normalize_metrics` / `_normalize_metrics` returns for `m`. */
  function Normalized(m: Value, origin: Origin, bi: Builtins): (r: Row)
    ensures forall j :: 0 <= j < |MetricKeys| ==> MetricKeys[j] in r
    ensures "raw" in r && "meta" in r
    ensures m.Dict? ==> forall k :: k in m.fields ==> k in r
  {
    if !m.Dict? then
      map["total_comm" := Float(0.0), "confirmed_comm" := Float(0.0), "pending_comm" := Float(0.0),
          "raw" := (if origin == App && m.List? then m else List([])), "meta" := Dict(map[])]
    else
      SetDefault(SetDefault(CoercedPrefix(m.fields, 3, bi), "raw", List([])), "meta", Dict(map[]))
  }

  /** `normalize_metrics(m)`: coerces the three commission fields one key
      at a time, then adds `raw` and `meta` where they are missing. */
  method NormalizeMetrics(m: Value, origin: Origin, bi: Builtins) returns (r: Row)
    ensures r == Normalized(m, origin, bi)
  {
    if !m.Dict? {
      r := map["total_comm" := Float(0.0), "confirmed_comm" := Float(0.0), "pending_comm" := Float(0.0),
               "raw" := (if origin == App && m.List? then m else List([])), "meta" := Dict(map[])];
      return;
    }
    r := m.fields;
    for n := 0 to |MetricKeys|
      invariant r == CoercedPrefix(m.fields, n, bi)
    {
      var k := MetricKeys[n];
      r := r[k := Float(CoerceMetric(Get(r, k), bi))];
    }
    if "raw" !in r {
      r := r["raw" := List([])];
    }
    if "meta" !in r {
      r := r["meta" := Dict(map[])];
    }
  }

  lemma CoercedPrefixShape(f: Row, bi: Builtins)
    ensures forall k :: k in CoercedPrefix(f, 3, bi) <==> k in f || k in MetricKeys
    ensures forall k :: k in f && k !in MetricKeys ==> CoercedPrefix(f, 3, bi)[k] == f[k]
    ensures forall j :: 0 <= j < 3 ==> CoercedPrefix(f, 3, bi)[MetricKeys[j]] == Float(CoerceMetric(Get(f, MetricKeys[j]), bi))
  {
    var k0, k1, k2 := "total_comm", "confirmed_comm", "pending_comm";
    assert MetricKeys == [k0, k1, k2];
    var g1 := f[k0 := Float(CoerceMetric(Get(f, k0), bi))];
    assert CoercedPrefix(f, 1, bi) == g1;
    var g2 := g1[k1 := Float(CoerceMetric(Get(f, k1), bi))];
    assert Get(g1, k1) == Get(f, k1);
    assert CoercedPrefix(f, 2, bi) == g2;
    var g3 := g2[k2 := Float(CoerceMetric(Get(f, k2), bi))];
    assert Get(g2, k2) == Get(f, k2);
    assert CoercedPrefix(f, 3, bi) == g3;
  }

  /** The result is always a metrics dict: the three commission keys hold
      floats coerced from the old values (0.0 for a non-dict), `raw` and
      `meta` are kept when present and added when absent, and every other
      key is left as it was. */
  lemma NormalizedShape(m: Value, origin: Origin, bi: Builtins)
    ensures var r := Normalized(m, origin, bi);
      && (forall j :: 0 <= j < 3 ==> MetricKeys[j] in r && r[MetricKeys[j]].Float?)
      && "raw" in r && "meta" in r
      && (m.Dict? ==> forall j :: 0 <= j < 3 ==> r[MetricKeys[j]] == Float(CoerceMetric(Get(m.fields, MetricKeys[j]), bi)))
      && (m.Dict? && "raw" in m.fields ==> r["raw"] == m.fields["raw"])
      && (m.Dict? && "meta" in m.fields ==> r["meta"] == m.fields["meta"])
      && (m.Dict? ==> forall k :: k in m.fields && k !in MetricKeys ==> k in r && r[k] == m.fields[k])
      && (!m.Dict? ==> forall j :: 0 <= j < 3 ==> r[MetricKeys[j]] == Float(0.0))
  {
    if m.Dict? {
      CoercedPrefixShape(m.fields, bi);
    }
  }

  /** Once normalised, normalising again changes nothing. */
  lemma NormalizeIdempotent(m: Value, origin: Origin, bi: Builtins)
    ensures Normalized(Dict(Normalized(m, origin, bi)), origin, bi) == Normalized(m, origin, bi)
  {
    var r := Normalized(m, origin, bi);
    NormalizedShape(m, origin, bi);
    CoercedPrefixShape(r, bi);
    var r2 := Normalized(Dict(r), origin, bi);
    forall j | 0 <= j < 3 ensures r2[MetricKeys[j]] == r[MetricKeys[j]] {
      assert Get(r, MetricKeys[j]) == r[MetricKeys[j]];
    }
    assert r2 == r;
  }

  /** Every aggregator's result passes through the normaliser unchanged. */
  lemma NormalizeKeepsMetrics(m: Metrics, origin: Origin, bi: Builtins)
    ensures Normalized(Dict(MetricsDict(m)), origin, bi) == MetricsDict(m)
  {
    var d := MetricsDict(m);
    CoercedPrefixShape(d, bi);
    var r := Normalized(Dict(d), origin, bi);
    assert r == d;
  }

  /** A non-dict normalises to blank metrics (job.py), or to blank totals
      keeping a list as `raw` (app.py). */
  lemma NormalizeNonDict(m: Value, origin: Origin, bi: Builtins)
    requires !m.Dict?
    ensures origin == Job || !m.List? ==> Normalized(m, origin, bi) == MetricsDict(BlankMetrics())
    ensures origin == App && m.List? ==> Normalized(m, origin, bi) == MetricsDict(BlankMetrics())["raw" := m]
  {
  }
}
