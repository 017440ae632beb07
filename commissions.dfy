/** The per-network commission aggregators: fetch, filter by sub-id,
    detect the source currency, classify each row's status and sum the
    amounts (job.py:184-352, 379-436, 464-555; app.py:238-294, 337-466,
    1040-1246). */
module Commissions {
  import opened Wrappers
  import opened PyValue
  import opened Numbers
  import opened SubIds
  import opened Batching

  // ------------------------------------------------------------ tallies

  /** Where a row's amount goes. */
  datatype Bucket = Confirmed | Pending | Ignored

  datatype Entry = Entry(bucket: Bucket, amount: real)

  /** Sum of the amounts of the entries in bucket `b`. */
  function Tally(es: seq<Entry>, b: Bucket): real
    decreases |es|
  {
    if es == [] then 0.0
    else Tally(es[..|es| - 1], b) + (if es[|es| - 1].bucket == b then es[|es| - 1].amount else 0.0)
  }

  function AmountSum(es: seq<Entry>): real
    decreases |es|
  {
    if es == [] then 0.0 else AmountSum(es[..|es| - 1]) + es[|es| - 1].amount
  }

  lemma {:induction false} TallyAppend(xs: seq<Entry>, ys: seq<Entry>, b: Bucket)
    ensures Tally(xs + ys, b) == Tally(xs, b) + Tally(ys, b)
    decreases |ys|
  {
    if ys != [] {
      TallyAppend(xs, ys[..|ys| - 1], b);
      assert (xs + ys)[..|xs + ys| - 1] == xs + ys[..|ys| - 1];
    } else {
      assert xs + ys == xs;
    }
  }

  /** An entry outside bucket `b` contributes nothing to it, wherever it
      stands. */
  lemma TallySkips(xs: seq<Entry>, e: Entry, ys: seq<Entry>, b: Bucket)
    requires e.bucket != b
    ensures Tally(xs + [e] + ys, b) == Tally(xs + ys, b)
  {
    TallyAppend(xs + [e], ys, b);
    TallyAppend(xs, [e], b);
    TallyAppend(xs, ys, b);
    assert [e][..0] == [];
  }

  /** Every amount lands in exactly one bucket. */
  lemma {:induction false} TallyPartition(es: seq<Entry>)
    ensures Tally(es, Confirmed) + Tally(es, Pending) + Tally(es, Ignored) == AmountSum(es)
    decreases |es|
  {
    if es != [] {
      TallyPartition(es[..|es| - 1]);
    }
  }

  /** Entries that all fall outside the vocabulary sum to zero. */
  lemma {:induction false} TallyAllIgnored(es: seq<Entry>, b: Bucket)
    requires b != Ignored
    requires forall j :: 0 <= j < |es| ==> es[j].bucket == Ignored
    ensures Tally(es, b) == 0.0
    decreases |es|
  {
    if es != [] {
      TallyAllIgnored(es[..|es| - 1], b);
    }
  }

  /** The three sums converted at rate `fx`. */
  function Scaled(total: real, confirmed: real, pending: real, fx: real, raw: seq<Row>, meta: Row): Metrics {
    Metrics(total * fx, confirmed * fx, pending * fx, raw, meta)
  }

  /** The metrics dict `{"total_comm": (c + p) * fx, ...}` the three
      transaction aggregators return. */
  function Converted(es: seq<Entry>, fx: real, raw: seq<Row>, meta: Row): Metrics {
    var c, p := Tally(es, Confirmed), Tally(es, Pending);
    Scaled(c + p, c, p, fx, raw, meta)
  }

  /** For the transaction aggregators the converted total is the converted
      confirmed plus the converted pending amount, and an ignored row moves
      none of the three. */
  lemma ConvertedTotal(es: seq<Entry>, fx: real, raw: seq<Row>, meta: Row)
    ensures var m := Converted(es, fx, raw, meta);
      m.total == m.confirmed + m.pending
      && m.confirmed == Tally(es, Confirmed) * fx && m.pending == Tally(es, Pending) * fx
  {
  }

  /** `(os.getenv(...) or default).upper()`. */
  function CurrencyOr(code: string, default: string): string {
    Upper(if code != "" then code else default)
  }

  /** `dict.get(key, default)`. */
  function GetOr(row: Row, key: string, default: Value): Value {
    if key in row then row[key] else default
  }

  // ----------------------------------------------------- AWIN transactions

  /** Widest window, in days between start and end, the transactions API
      accepts. */
  const MaxWindowDays: int := 30
  const WindowMessage: string := "Transactions API supports max 31 days. Reduce window (<=31)."
  const WindowError: string := "ValueError: " + WindowMessage

  /** `str()` of the window error is its message. */
  lemma WindowErrorStr()
    ensures ExceptionStr(WindowError) == WindowMessage && |WindowMessage| <= 500
  {
    var cls := "ValueError";
    assert IsClassName(cls);
    assert cls + ": " + WindowMessage == WindowError;
    ExceptionStrOf(cls, WindowMessage);
  }

  /** One transactions request: without an advertiser filter, or for one
      batch of ids. */
  datatype TxRequest = AllAdvertisers | Advertisers(ids: seq<int>)

  /** The requests made for an allowed-id set: a single unfiltered one when
      it is empty, else one per batch of sorted ids. */
  function TxRequests(allowed: set<int>): (reqs: seq<TxRequest>)
    ensures |reqs| >= 1
    ensures allowed == {} ==> reqs == [AllAdvertisers]
    ensures allowed != {} ==>
              (|reqs| == |IdBatches(allowed)|
               && forall j :: 0 <= j < |reqs| ==> reqs[j] == Advertisers(IdBatches(allowed)[j]))
  {
    var bs := IdBatches(allowed);
    if bs == [] then [AllAdvertisers]
    else seq(|bs|, j requires 0 <= j < |bs| => Advertisers(bs[j]))
  }

  /** The rows of the requests in order, or the first request's failure. */
  function FetchAll(reqs: seq<TxRequest>, fetch: TxRequest -> Result<seq<Row>>): Result<seq<Row>>
    decreases |reqs|
  {
    if reqs == [] then Ok([])
    else match FetchAll(reqs[..|reqs| - 1], fetch)
      case Err(e) => Err(e)
      case Ok(prev) =>
        match fetch(reqs[|reqs| - 1])
        case Err(e) => Err(e)
        case Ok(rows) => Ok(prev + rows)
  }

  /** `(t.get("status") or "").lower()`; None where the status is a truthy
      non-string and `.lower()` raises. */
  function AwinStatus(t: Row): Option<string> {
    var v := Or([Get(t, "status"), Str("")]);
    if v.Str? then Some(Lower(v.s)) else None
  }

  /** The first non-zero of commissionAmount, commission and
      publisherCommission, else 0.0. */
  function AwinTxAmount(t: Row, bi: Builtins): (a: real)
    ensures a != 0.0 ==> a in [ToNum(Get(t, "commissionAmount"), bi), ToNum(Get(t, "commission"), bi), ToNum(Get(t, "publisherCommission"), bi)]
    ensures ToNum(Get(t, "commissionAmount"), bi) != 0.0 ==> a == ToNum(Get(t, "commissionAmount"), bi)
    ensures ToNum(Get(t, "commissionAmount"), bi) == 0.0 && ToNum(Get(t, "commission"), bi) != 0.0 ==>
              a == ToNum(Get(t, "commission"), bi)
    ensures ToNum(Get(t, "commissionAmount"), bi) == 0.0 && ToNum(Get(t, "commission"), bi) == 0.0 ==>
              a == ToNum(Get(t, "publisherCommission"), bi)
  {
    var a1 := ToNum(Get(t, "commissionAmount"), bi);
    var a2 := ToNum(Get(t, "commission"), bi);
    var a3 := ToNum(Get(t, "publisherCommission"), bi);
    if a1 != 0.0 then a1 else if a2 != 0.0 then a2 else a3
  }

  /** An approved transaction is confirmed, a pending one pending, and any
      other status (or a status that is not text) counts in neither. */
  function AwinTxEntry(t: Row, bi: Builtins): (e: Entry)
    ensures e.amount == AwinTxAmount(t, bi)
    ensures e.bucket == Confirmed <==> AwinStatus(t) == Some("approved")
    ensures e.bucket == Pending <==> AwinStatus(t) == Some("pending")
  {
    var bucket := match AwinStatus(t)
      case Some(s) => if s == "approved" then Confirmed else if s == "pending" then Pending else Ignored
      case None => Ignored;
    Entry(bucket, AwinTxAmount(t, bi))
  }

  function AwinTxEntries(rows: seq<Row>, bi: Builtins): (es: seq<Entry>)
    ensures |es| == |rows|
    ensures forall j :: 0 <= j < |rows| ==> es[j].amount == AwinTxAmount(rows[j], bi)
    ensures forall j :: 0 <= j < |rows| ==> (es[j].bucket == Confirmed <==> AwinStatus(rows[j]) == Some("approved"))
    ensures forall j :: 0 <= j < |rows| ==> (es[j].bucket == Pending <==> AwinStatus(rows[j]) == Some("pending"))
  {
    if rows == [] then [] else [AwinTxEntry(rows[0], bi)] + AwinTxEntries(rows[1..], bi)
  }

  /** The optional status filter: rows whose `str(status).lower()` equals
      the lower-cased filter. */
  function StatusFiltered(rows: seq<Row>, statusFilter: Value, bi: Builtins): (out: seq<Row>)
    ensures |out| <= |rows|
    ensures !Truthy(statusFilter) ==> out == rows
    ensures forall r :: r in out ==> r in rows
    ensures Truthy(statusFilter) ==>
              forall r :: r in out <==>
                r in rows && Lower(Show(GetOr(r, "status", Str("")), bi)) == Lower(Show(statusFilter, bi))
  {
    if !Truthy(statusFilter) || rows == [] then rows
    else
      (if Lower(Show(GetOr(rows[0], "status", Str("")), bi)) == Lower(Show(statusFilter, bi)) then [rows[0]] else [])
        + StatusFiltered(rows[1..], statusFilter, bi)
  }

  /** `src = probe.get("currency") or probe.get(alt) or src or "EUR"` run
      over the first `n` rows. */
  function AwinCurrencyAfter(rows: seq<Row>, alt: string, n: nat): Value
    requires n <= |rows|
  {
    if n == 0 then Str("EUR")
    else ProbeStep(rows[n - 1], alt, AwinCurrencyAfter(rows, alt, n - 1))
  }

  /** One probe: `r.get("currency") or r.get(alt) or src or "EUR"`. */
  function ProbeStep(row: Row, alt: string, prev: Value): Value {
    OrElse(ProbeValue(row, alt), OrElse(prev, Str("EUR")))
  }

  function ProbeWindow(rows: seq<Row>): nat {
    if |rows| < 3 then |rows| else 3
  }

  /** The code the AWIN aggregators convert from. */
  function AwinCurrency(rows: seq<Row>, alt: string, bi: Builtins): string {
    Upper(Show(AwinCurrencyAfter(rows, alt, ProbeWindow(rows)), bi))
  }

  /** The currency a probed row carries, if any. */
  function ProbeValue(row: Row, alt: string): Value {
    OrElse(Get(row, "currency"), Get(row, alt))
  }

  /** Among the probed rows, the LAST one carrying a currency decides. */
  lemma {:induction false} AwinLastCurrencyWins(rows: seq<Row>, alt: string, n: nat, j: nat)
    requires j < n <= |rows|
    requires Truthy(ProbeValue(rows[j], alt))
    requires forall i :: j < i < n ==> !Truthy(ProbeValue(rows[i], alt))
    ensures AwinCurrencyAfter(rows, alt, n) == ProbeValue(rows[j], alt)
  {
    if n - 1 != j {
      AwinLastCurrencyWins(rows, alt, n - 1, j);
      assert !Truthy(ProbeValue(rows[n - 1], alt));
    }
  }

  /** With no probed row carrying a currency, the source currency is EUR. */
  lemma {:induction false} AwinCurrencyDefault(rows: seq<Row>, alt: string, n: nat)
    requires n <= |rows|
    requires forall i :: 0 <= i < n ==> !Truthy(Get(rows[i], "currency")) && !Truthy(Get(rows[i], alt))
    ensures AwinCurrencyAfter(rows, alt, n) == Str("EUR")
  {
    if n > 0 {
      AwinCurrencyDefault(rows, alt, n - 1);
      assert !Truthy(ProbeValue(rows[n - 1], alt));
    }
  }

  /** The rows the transactions aggregator sums: sub-id filter, then the
      optional status filter. */
  function AwinSelected(rows: seq<Row>, clickrefs: seq<string>, contains: bool, statusFilter: Value, bi: Builtins): (out: seq<Row>)
    ensures |out| <= |rows|
  {
    StatusFiltered(FilterRows(Awin, rows, clickrefs, contains, bi), statusFilter, bi)
  }

  function TxMeta(totalRows: nat, filtered: nat, src: string, tgt: string, fx: real): Row {
    map["rows_total" := Int(totalRows), "rows_after_filter" := Int(filtered),
        "source_currency" := Str(src), "target_currency" := Str(tgt), "fx_rate_used" := Float(fx)]
  }

  /** `awin_get_commission_from_transactions`: the window guard, the
      batched requests, the click-reference and status filters, the
      currency probe over the first three kept rows, and the sums by
      approved / pending status. `startDay`/`endDay` are day numbers;
      `preferred` is the PREFERRED_CURRENCY setting. */
  method AwinTransactions(startDay: int, endDay: int, clickrefs: seq<string>, allowed: set<int>, contains: bool,
                          statusFilter: Value, preferred: string, fetch: TxRequest -> Result<seq<Row>>,
                          lookup: (string, string) -> FxAnswer, bi: Builtins)
    returns (r: Result<Metrics>, sent: seq<TxRequest>)
    ensures endDay - startDay > MaxWindowDays ==> r == Err(WindowError) && sent == []
    ensures endDay - startDay <= MaxWindowDays ==> sent <= TxRequests(allowed) && sent != []
    ensures endDay - startDay <= MaxWindowDays && FetchAll(TxRequests(allowed), fetch).Err? ==> r.Err?
    ensures r.Ok? ==> sent == TxRequests(allowed) && FetchAll(sent, fetch).Ok?
    ensures r.Ok? <==>
              (endDay - startDay <= MaxWindowDays && FetchAll(TxRequests(allowed), fetch).Ok?
               && forall t :: (t in AwinSelected(FetchAll(TxRequests(allowed), fetch).value, clickrefs, contains, statusFilter, bi)
                               ==> AwinStatus(t).Some?))
    ensures r.Ok? ==>
      var rows := FetchAll(TxRequests(allowed), fetch).value;
      var f := AwinSelected(rows, clickrefs, contains, statusFilter, bi);
      var src, tgt := AwinCurrency(f, "commissionCurrency", bi), CurrencyOr(preferred, "EUR");
      var fx := FxRate(src, tgt, lookup, bi);
      r.value == Converted(AwinTxEntries(f, bi), fx, f, TxMeta(|rows|, |f|, src, tgt, fx))
  {
    if endDay - startDay > MaxWindowDays {
      return Err(WindowError), [];
    }
    var fetched;
    fetched, sent := FetchTransactions(TxRequests(allowed), fetch);
    if fetched.Err? {
      return Err(fetched.error), sent;
    }
    var all := fetched.value;
    var f := AwinSelected(all, clickrefs, contains, statusFilter, bi);
    var bad := FirstStatusError(f);
    if bad.Some? {
      return Err(bad.value), sent;
    }
    var src := ProbeAwinCurrency(f, "commissionCurrency", bi);
    var tgt := CurrencyOr(preferred, "EUR");
    var fx := FxRate(src, tgt, lookup, bi);
    var metrics := ConvertEntries(AwinTxEntries(f, bi), fx, f, TxMeta(|all|, |f|, src, tgt, fx));
    r := Ok(metrics);
  }

  /** The AttributeError of the first row whose status `.lower()` rejects;
      None when every status is text or falsy. */
  function FirstStatusError(rows: seq<Row>): (e: Option<string>)
    ensures e.None? <==> forall t :: t in rows ==> AwinStatus(t).Some?
    ensures e.Some? ==> exists t :: t in rows && AwinStatus(t).None? && e.value == LowerError(Get(t, "status"))
  {
    if rows == [] then None
    else if AwinStatus(rows[0]).None? then Some(LowerError(Get(rows[0], "status")))
    else FirstStatusError(rows[1..])
  }

  /** The request loop: one request per batch, in order, stopping at the
      first failure. */
  method FetchTransactions(reqs: seq<TxRequest>, fetch: TxRequest -> Result<seq<Row>>)
    returns (r: Result<seq<Row>>, sent: seq<TxRequest>)
    ensures r == FetchAll(reqs, fetch)
    ensures sent <= reqs && (|reqs| > 0 ==> |sent| > 0)
    ensures r.Ok? ==> sent == reqs
    ensures r.Err? ==> fetch(sent[|sent| - 1]).Err? && FetchAll(sent[..|sent| - 1], fetch).Ok?
  {
    var all: seq<Row> := [];
    sent := [];
    var i := 0;
    while i < |reqs|
      invariant 0 <= i <= |reqs|
      invariant sent == reqs[..i]
      invariant FetchAll(reqs[..i], fetch) == Ok(all)
    {
      sent := sent + [reqs[i]];
      FetchAllStep(reqs, fetch, i);
      var res := fetch(reqs[i]);
      if res.Err? {
        FetchAllFirstError(reqs, fetch, i);
        assert sent[..|sent| - 1] == reqs[..i];
        return Err(res.error), sent;
      }
      all := all + res.value;
      i := i + 1;
    }
    assert reqs[..i] == reqs;
    r := Ok(all);
  }

  /** One more request: its rows are appended, or its failure is the
      result, unless an earlier request already failed. */
  lemma FetchAllStep(reqs: seq<TxRequest>, fetch: TxRequest -> Result<seq<Row>>, i: nat)
    requires i < |reqs|
    ensures FetchAll(reqs[..i + 1], fetch) ==
      if FetchAll(reqs[..i], fetch).Err? then FetchAll(reqs[..i], fetch)
      else if fetch(reqs[i]).Err? then Err(fetch(reqs[i]).error)
      else Ok(FetchAll(reqs[..i], fetch).value + fetch(reqs[i]).value)
  {
    assert reqs[..i + 1][..i] == reqs[..i];
  }

  /** The failure reported is the first failing request's. */
  lemma {:induction false} FetchAllFirstError(reqs: seq<TxRequest>, fetch: TxRequest -> Result<seq<Row>>, i: nat)
    requires i < |reqs|
    requires FetchAll(reqs[..i], fetch).Ok? && fetch(reqs[i]).Err?
    ensures FetchAll(reqs, fetch) == Err(fetch(reqs[i]).error)
    decreases |reqs| - i
  {
    assert reqs[..i + 1][..i] == reqs[..i];
    if i + 1 == |reqs| {
      assert reqs[..i + 1] == reqs;
    } else {
      FetchAllErrKeeps(reqs, fetch, i + 1);
    }
  }

  lemma {:induction false} FetchAllErrKeeps(reqs: seq<TxRequest>, fetch: TxRequest -> Result<seq<Row>>, i: nat)
    requires i <= |reqs|
    requires FetchAll(reqs[..i], fetch).Err?
    ensures FetchAll(reqs, fetch) == FetchAll(reqs[..i], fetch)
    decreases |reqs| - i
  {
    if i < |reqs| {
      assert reqs[..i + 1][..i] == reqs[..i];
      FetchAllErrKeeps(reqs, fetch, i + 1);
    } else {
      assert reqs[..i] == reqs;
    }
  }

  /** The currency probe loop of the AWIN aggregators over the first three
      rows. */
  method ProbeAwinCurrency(rows: seq<Row>, alt: string, bi: Builtins) returns (src: string)
    ensures src == AwinCurrency(rows, alt, bi)
  {
    var v := ProbeAwinValue(rows, alt);
    src := Upper(Show(v, bi));
  }

  /** The probe loop itself: the value the currency is read from. */
  method ProbeAwinValue(rows: seq<Row>, alt: string) returns (v: Value)
    ensures v == AwinCurrencyAfter(rows, alt, ProbeWindow(rows))
  {
    v := Str("EUR");
    for j := 0 to ProbeWindow(rows)
      invariant v == AwinCurrencyAfter(rows, alt, j)
    {
      v := ProbeStep(rows[j], alt, v);
    }
  }

  /** The accumulation loop shared by the transaction aggregators
      (amounts of confirmed rows and of pending rows), then the converted
      result dict. */
  method ConvertEntries(es: seq<Entry>, fx: real, raw: seq<Row>, meta: Row) returns (m: Metrics)
    ensures m == Converted(es, fx, raw, meta)
  {
    var confirmed, pending := 0.0, 0.0;
    for j := 0 to |es|
      invariant confirmed == Tally(es[..j], Confirmed)
      invariant pending == Tally(es[..j], Pending)
    {
      assert es[..j + 1][..j] == es[..j];
      if es[j].bucket == Confirmed {
        confirmed := confirmed + es[j].amount;
      } else if es[j].bucket == Pending {
        pending := pending + es[j].amount;
      }
    }
    assert es[..|es|] == es;
    m := Scaled(confirmed + pending, confirmed, pending, fx, raw, meta);
  }

  /** Once a request fails, the whole fetch fails. */
  lemma {:induction false} FetchAllStops(reqs: seq<TxRequest>, fetch: TxRequest -> Result<seq<Row>>, i: nat)
    requires i <= |reqs|
    requires FetchAll(reqs[..i], fetch).Err?
    ensures FetchAll(reqs, fetch).Err?
    decreases |reqs| - i
  {
    if i < |reqs| {
      assert reqs[..i + 1][..i] == reqs[..i];
      FetchAllStops(reqs, fetch, i + 1);
    } else {
      assert reqs[..i] == reqs;
    }
  }

  /** The transaction requests ask for every allowed advertiser exactly
      once, in ascending id order, at most fifty ids per request. */
  lemma TxRequestsCoverAllowed(allowed: set<int>)
    requires allowed != {}
    ensures forall j :: 0 <= j < |TxRequests(allowed)| ==>
              (TxRequests(allowed)[j].Advertisers? && 0 < |TxRequests(allowed)[j].ids| <= BatchSize)
    ensures Flatten(IdBatches(allowed)) == SortedIds(allowed)
    ensures forall x :: x in SortedIds(allowed) <==> x in allowed
  {
  }

  // ----------------------------------------------------- AWIN report

  /** Sum of `to_num(row.get(key))` over the rows. */
  function FieldSum(rows: seq<Row>, key: string, bi: Builtins): real
    decreases |rows|
  {
    if rows == [] then 0.0 else FieldSum(rows[..|rows| - 1], key, bi) + ToNum(Get(rows[|rows| - 1], key), bi)
  }

  /** The advertiser report's total before conversion: the sum of
      totalComm, unless that is zero while a bucket is not. */
  function ReportTotal(rows: seq<Row>, bi: Builtins): real {
    var c, p, t := FieldSum(rows, "confirmedComm", bi), FieldSum(rows, "pendingComm", bi), FieldSum(rows, "totalComm", bi);
    if t == 0.0 && (c != 0.0 || p != 0.0) then c + p else t
  }

  /** The report total never drops a commission the buckets show: it is
      the totalComm sum unless that is zero, and then it is the bucket sum. */
  lemma ReportTotalFallback(rows: seq<Row>, bi: Builtins)
    ensures FieldSum(rows, "totalComm", bi) != 0.0 ==> ReportTotal(rows, bi) == FieldSum(rows, "totalComm", bi)
    ensures FieldSum(rows, "totalComm", bi) == 0.0 ==> ReportTotal(rows, bi) == FieldSum(rows, "confirmedComm", bi) + FieldSum(rows, "pendingComm", bi)
  {
  }

  /** When every row's totalComm is its confirmedComm plus pendingComm, the
      report total is the bucket sum. */
  lemma {:induction false} ReportTotalConsistent(rows: seq<Row>, bi: Builtins)
    requires forall j :: 0 <= j < |rows| ==>
      ToNum(Get(rows[j], "totalComm"), bi) == ToNum(Get(rows[j], "confirmedComm"), bi) + ToNum(Get(rows[j], "pendingComm"), bi)
    ensures FieldSum(rows, "totalComm", bi) == FieldSum(rows, "confirmedComm", bi) + FieldSum(rows, "pendingComm", bi)
    ensures ReportTotal(rows, bi) == FieldSum(rows, "confirmedComm", bi) + FieldSum(rows, "pendingComm", bi)
    decreases |rows|
  {
    if rows != [] {
      ReportTotalConsistent(rows[..|rows| - 1], bi);
    }
  }

  function ReportMeta(rowCount: nat, src: string, tgt: string, fx: real): Row {
    map["row_count" := Int(rowCount), "source_currency" := Str(src), "target_currency" := Str(tgt), "fx_rate_used" := Float(fx)]
  }

  /** `awin_get_earnings` / `get_earnings` on the advertiser report's rows:
      a failed request raises; otherwise the three columns are summed with
      `to_num`, the total falls back to confirmed + pending, and everything
      is converted from the probed currency. */
  method AwinEarnings(report: Result<seq<Row>>, preferred: string, lookup: (string, string) -> FxAnswer, bi: Builtins)
    returns (r: Result<Metrics>)
    ensures report.Err? ==> r == Err(report.error)
    ensures report.Ok? ==>
              (r.Ok? &&
               var rows := report.value;
               var src, tgt := AwinCurrency(rows, "currencyCode", bi), CurrencyOr(preferred, "EUR");
               var fx := FxRate(src, tgt, lookup, bi);
               r.value == Scaled(ReportTotal(rows, bi), FieldSum(rows, "confirmedComm", bi),
                                 FieldSum(rows, "pendingComm", bi), fx, rows, ReportMeta(|rows|, src, tgt, fx)))
  {
    if report.Err? {
      return Err(report.error);
    }
    var rows := report.value;
    var confirmed, pending, total := SumReport(rows, bi);
    if total == 0.0 && (confirmed != 0.0 || pending != 0.0) {
      total := confirmed + pending;
    }
    assert total == ReportTotal(rows, bi);
    var src := ProbeAwinCurrency(rows, "currencyCode", bi);
    var tgt := CurrencyOr(preferred, "EUR");
    var fx := FxRate(src, tgt, lookup, bi);
    r := Ok(Scaled(total, confirmed, pending, fx, rows, ReportMeta(|rows|, src, tgt, fx)));
  }

  /** The report's accumulation loop over confirmedComm, pendingComm and
      totalComm. */
  method SumReport(rows: seq<Row>, bi: Builtins) returns (confirmed: real, pending: real, total: real)
    ensures confirmed == FieldSum(rows, "confirmedComm", bi)
    ensures pending == FieldSum(rows, "pendingComm", bi)
    ensures total == FieldSum(rows, "totalComm", bi)
  {
    confirmed, pending, total := 0.0, 0.0, 0.0;
    for j := 0 to |rows|
      invariant confirmed == FieldSum(rows[..j], "confirmedComm", bi)
      invariant pending == FieldSum(rows[..j], "pendingComm", bi)
      invariant total == FieldSum(rows[..j], "totalComm", bi)
    {
      assert rows[..j + 1][..j] == rows[..j];
      confirmed := confirmed + ToNum(Get(rows[j], "confirmedComm"), bi);
      pending := pending + ToNum(Get(rows[j], "pendingComm"), bi);
      total := total + ToNum(Get(rows[j], "totalComm"), bi);
    }
    assert rows[..|rows|] == rows;
  }

  // ----------------------------------------------------- Addrevenue

  const AddrevAmountKeys: seq<string> := ["commission", "publisherCommission", "reward", "amount", "value"]
  const AddrevCurrencyKeys: seq<string> := ["currency", "currencyCode", "commissionCurrency"]

  /** One amount field: `None` when it is null or does not parse as a
      number once commas are removed. */
  function AddrevParse(row: Row, key: string, bi: Builtins): Option<real> {
    var v := Get(row, key);
    if v == Null then None else bi.parseFloat(RemoveChar(Show(v, bi), ','))
  }

  /** `get_amount`: the first non-null amount field that parses as a
      number once commas are removed; 0.0 if none does. */
  function AddrevAmount(row: Row, keys: seq<string>, bi: Builtins): (a: real)
    ensures a != 0.0 ==>
              exists j :: (0 <= j < |keys| && Get(row, keys[j]) != Null
                           && bi.parseFloat(RemoveChar(Show(Get(row, keys[j]), bi), ',')) == Some(a))
  {
    if keys == [] then 0.0
    else match AddrevParse(row, keys[0], bi)
      case Some(x) => x
      case None => AddrevAmount(row, keys[1..], bi)
  }

  /** The first field that parses gives the amount, even when it parses as
      zero: the fields after it are not looked at. */
  lemma {:induction false} AddrevAmountFirstParsed(row: Row, keys: seq<string>, bi: Builtins, k: nat)
    requires k < |keys| && AddrevParse(row, keys[k], bi).Some?
    requires forall i :: 0 <= i < k ==> AddrevParse(row, keys[i], bi).None?
    ensures AddrevAmount(row, keys, bi) == AddrevParse(row, keys[k], bi).value
    decreases k
  {
    if k > 0 {
      assert forall i :: 0 <= i < k - 1 ==> keys[1..][i] == keys[i + 1];
      AddrevAmountFirstParsed(row, keys[1..], bi, k - 1);
    }
  }

  /** When no field parses the amount is 0.0. */
  lemma {:induction false} AddrevAmountNoneParsed(row: Row, keys: seq<string>, bi: Builtins)
    requires forall i :: 0 <= i < |keys| ==> AddrevParse(row, keys[i], bi).None?
    ensures AddrevAmount(row, keys, bi) == 0.0
    decreases |keys|
  {
    if keys != [] {
      assert forall i :: 0 <= i < |keys| - 1 ==> keys[1..][i] == keys[i + 1];
      AddrevAmountNoneParsed(row, keys[1..], bi);
    }
  }

  /** `str(r.get("status") or r.get("state") or "").lower()`. */
  function AddrevStatus(row: Row, bi: Builtins): string {
    Lower(Show(Or([Get(row, "status"), Get(row, "state"), Str("")]), bi))
  }

  function AddrevBucket(status: string): (b: Bucket)
    ensures b == Confirmed <==> status in {"approved", "confirmed", "paid"}
    ensures b == Pending <==> status in {"pending", "awaiting"}
  {
    if status in {"approved", "confirmed", "paid"} then Confirmed
    else if status in {"pending", "awaiting"} then Pending
    else Ignored
  }

  function AddrevEntries(rows: seq<Row>, bi: Builtins): (es: seq<Entry>)
    ensures |es| == |rows|
  {
    if rows == [] then []
    else [Entry(AddrevBucket(AddrevStatus(rows[0], bi)), AddrevAmount(rows[0], AddrevAmountKeys, bi))] + AddrevEntries(rows[1..], bi)
  }

  /** `detect_ccy`: the first present currency field of the row,
      upper-cased, else the default. */
  function AddrevRowCurrency(row: Row, default: string, bi: Builtins): string {
    var v := OrKeys(row, AddrevCurrencyKeys);
    if Truthy(v) then Upper(Show(v, bi)) else default
  }

  /** Addrevenue's source currency comes from the first row alone. */
  function AddrevCurrency(rows: seq<Row>, default: string, bi: Builtins): string {
    if rows == [] then default else AddrevRowCurrency(rows[0], default, bi)
  }

  /** The rate used when converting: 1.0 whenever the codes are equal. */
  function GuardedRate(src: string, tgt: string, lookup: (string, string) -> FxAnswer, bi: Builtins): (fx: real)
    ensures src == tgt ==> fx == 1.0
    ensures src != tgt ==> fx == FxRate(src, tgt, lookup, bi)
  {
    if src != tgt then FxRate(src, tgt, lookup, bi) else 1.0
  }

  function AddrevMeta(src: string, tgt: string, fx: real, rowCount: nat): Row {
    map["source_currency" := Str(src), "target_currency" := Str(tgt), "fx_rate_used" := Float(fx), "row_count" := Int(rowCount)]
  }

  /** `addrev_commission_aggregate` over the transactions the API returned
      (`addrev_transactions` filters them by sub-id first).
      `defaultCcy` is ADDREV_DEFAULT_CURRENCY, already upper-cased. */
  method AddrevAggregate(fetched: Result<seq<Row>>, subrefs: seq<string>, contains: bool, targetCcy: string,
                         defaultCcy: string, lookup: (string, string) -> FxAnswer, bi: Builtins)
    returns (r: Result<Metrics>)
    ensures fetched.Err? ==> r == Err(fetched.error)
    ensures fetched.Ok? ==>
              (r.Ok? &&
               var rows := FilterRows(Addrev, fetched.value, subrefs, contains, bi);
               var src, tgt := AddrevCurrency(rows, defaultCcy, bi), CurrencyOr(targetCcy, defaultCcy);
               var fx := GuardedRate(src, tgt, lookup, bi);
               r.value == Converted(AddrevEntries(rows, bi), fx, rows, AddrevMeta(src, tgt, fx, |rows|)))
  {
    if fetched.Err? {
      return Err(fetched.error);
    }
    var rows := FilterRows(Addrev, fetched.value, subrefs, contains, bi);
    var src := if rows != [] then AddrevRowCurrency(rows[0], defaultCcy, bi) else defaultCcy;
    var tgt := CurrencyOr(targetCcy, defaultCcy);
    var fx := if src != tgt then FxRate(src, tgt, lookup, bi) else 1.0;
    var metrics := ConvertEntries(AddrevEntries(rows, bi), fx, rows, AddrevMeta(src, tgt, fx, |rows|));
    r := Ok(metrics);
  }

  // ----------------------------------------------------- Impact

  /** Page cap of the Impact paging loops (Actions and Catalogs). */
  const MaxImpactPages: int := 10

  /** One page of an Impact list endpoint: its items (actions or
      catalogues) and the two spellings of the next-page link. */
  datatype ImpactPage = ImpactPage(items: seq<Row>, nextPageUri: Value, nextPageUriAlt: Value)

  /** Either spelling of the next-page link is truthy. */
  predicate HasNext(p: ImpactPage) {
    Truthy(p.nextPageUri) || Truthy(p.nextPageUriAlt)
  }

  /** `HasNext` is the truthiness of the source's chain
      `data.get("@nextpageuri") or data.get("@nextPageUri") or ""`. */
  lemma HasNextIsOrChain(p: ImpactPage)
    ensures HasNext(p) <==> Truthy(Or([p.nextPageUri, p.nextPageUriAlt, Str("")]))
  {
    var vs := [p.nextPageUri, p.nextPageUriAlt, Str("")];
    assert vs[0] == p.nextPageUri && vs[1] == p.nextPageUriAlt && !Truthy(vs[2]);
  }

  function Prepend(xs: seq<Row>, r: Result<seq<Row>>): Result<seq<Row>> {
    match r
    case Err(e) => Err(e)
    case Ok(ys) => Ok(xs + ys)
  }

  /** The items of pages `page`, `page + 1`, ... until a page without a
      next link or the page cap; the first failing request fails all. */
  function ImpactPaged(fetch: int -> Result<ImpactPage>, page: int): Result<seq<Row>>
    requires 1 <= page <= MaxImpactPages
    decreases MaxImpactPages - page
  {
    match fetch(page)
    case Err(e) => Err(e)
    case Ok(p) =>
      if !HasNext(p) || page + 1 > MaxImpactPages then Ok(p.items)
      else Prepend(p.items, ImpactPaged(fetch, page + 1))
  }

  /** The number of pages requested starting from `page`. */
  function ImpactPagesRequested(fetch: int -> Result<ImpactPage>, page: int): (n: nat)
    requires 1 <= page <= MaxImpactPages
    ensures 1 <= n <= MaxImpactPages - page + 1
    decreases MaxImpactPages - page
  {
    match fetch(page)
    case Err(_) => 1
    case Ok(p) => if !HasNext(p) || page + 1 > MaxImpactPages then 1 else 1 + ImpactPagesRequested(fetch, page + 1)
  }

  /** The page numbers 1, 2, ..., n. */
  function PageNumbers(n: nat): (ps: seq<int>)
    ensures |ps| == n
    ensures forall j :: 0 <= j < n ==> ps[j] == j + 1
  {
    if n == 0 then [] else PageNumbers(n - 1) + [n]
  }

  /** The Impact paging loop: request pages until there is no next link
      or the Page parameter would pass ten: at most ten requests, for pages 1, 2, ... in turn. */
  method FetchImpactPages(fetch: int -> Result<ImpactPage>) returns (r: Result<seq<Row>>, pages: seq<int>)
    ensures r == ImpactPaged(fetch, 1)
    ensures pages == PageNumbers(ImpactPagesRequested(fetch, 1))
    ensures 1 <= |pages| <= MaxImpactPages
  {
    var all: seq<Row> := [];
    var page := 1;
    if ImpactPaged(fetch, 1).Ok? {
      assert [] + ImpactPaged(fetch, 1).value == ImpactPaged(fetch, 1).value;
    }
    while true
      invariant 1 <= page <= MaxImpactPages
      invariant ImpactPaged(fetch, 1) == Prepend(all, ImpactPaged(fetch, page))
      invariant ImpactPagesRequested(fetch, 1) == page - 1 + ImpactPagesRequested(fetch, page)
      decreases MaxImpactPages - page
    {
      var data := fetch(page);
      if data.Err? {
        ImpactPageFails(fetch, all, page);
        return Err(data.error), PageNumbers(page);
      }
      var p := data.value;
      var more := HasNext(p);
      if !more || page + 1 > MaxImpactPages {
        ImpactPageLast(fetch, all, page);
        return Ok(all + p.items), PageNumbers(page);
      }
      ImpactPageNext(fetch, all, page);
      all := all + p.items;
      page := page + 1;
    }
  }

  /** The paging loop's step on a failed request. */
  lemma ImpactPageFails(fetch: int -> Result<ImpactPage>, all: seq<Row>, page: int)
    requires 1 <= page <= MaxImpactPages && fetch(page).Err?
    requires ImpactPaged(fetch, 1) == Prepend(all, ImpactPaged(fetch, page))
    ensures ImpactPaged(fetch, 1) == Err(fetch(page).error) && ImpactPagesRequested(fetch, page) == 1
  {
  }

  /** The paging loop's step on the last page. */
  lemma ImpactPageLast(fetch: int -> Result<ImpactPage>, all: seq<Row>, page: int)
    requires 1 <= page <= MaxImpactPages && fetch(page).Ok?
    requires !HasNext(fetch(page).value) || page + 1 > MaxImpactPages
    requires ImpactPaged(fetch, 1) == Prepend(all, ImpactPaged(fetch, page))
    ensures ImpactPaged(fetch, 1) == Ok(all + fetch(page).value.items) && ImpactPagesRequested(fetch, page) == 1
  {
  }

  /** The paging loop's step onto the next page. */
  lemma ImpactPageNext(fetch: int -> Result<ImpactPage>, all: seq<Row>, page: int)
    requires 1 <= page < MaxImpactPages && fetch(page).Ok? && HasNext(fetch(page).value)
    requires ImpactPaged(fetch, 1) == Prepend(all, ImpactPaged(fetch, page))
    requires ImpactPagesRequested(fetch, 1) == page - 1 + ImpactPagesRequested(fetch, page)
    ensures ImpactPaged(fetch, 1) == Prepend(all + fetch(page).value.items, ImpactPaged(fetch, page + 1))
    ensures ImpactPagesRequested(fetch, 1) == page + ImpactPagesRequested(fetch, page + 1)
  {
    PrependTwice(all, fetch(page).value.items, ImpactPaged(fetch, page + 1));
  }

  /** One step of the paging specification. */
  lemma ImpactPageUnfold(fetch: int -> Result<ImpactPage>, page: int)
    requires 1 <= page <= MaxImpactPages
    ensures fetch(page).Err? ==> ImpactPaged(fetch, page) == Err(fetch(page).error) && ImpactPagesRequested(fetch, page) == 1
    ensures fetch(page).Ok? && (!HasNext(fetch(page).value) || page + 1 > MaxImpactPages) ==>
      ImpactPaged(fetch, page) == Ok(fetch(page).value.items) == Prepend(fetch(page).value.items, Ok([]))
      && ImpactPagesRequested(fetch, page) == 1
    ensures fetch(page).Ok? && HasNext(fetch(page).value) && page + 1 <= MaxImpactPages ==>
      ImpactPaged(fetch, page) == Prepend(fetch(page).value.items, ImpactPaged(fetch, page + 1))
      && ImpactPagesRequested(fetch, page) == 1 + ImpactPagesRequested(fetch, page + 1)
  {
    if fetch(page).Ok? {
      assert fetch(page).value.items + [] == fetch(page).value.items;
    }
  }

  lemma PrependTwice(xs: seq<Row>, ys: seq<Row>, r: Result<seq<Row>>)
    ensures Prepend(xs, Prepend(ys, r)) == Prepend(xs + ys, r)
  {
    if r.Ok? {
      assert xs + (ys + r.value) == (xs + ys) + r.value;
    }
  }

  /** Paging terminates after at most ten requests, and a successful run
      ends on a page without a next link or on page ten. */
  lemma {:induction false} ImpactPagingStops(fetch: int -> Result<ImpactPage>, page: int)
    requires 1 <= page <= MaxImpactPages
    ensures var last := page + ImpactPagesRequested(fetch, page) - 1;
      last <= MaxImpactPages
      && (ImpactPaged(fetch, page).Ok? ==> fetch(last).Ok? && (!HasNext(fetch(last).value) || last == MaxImpactPages))
      && (ImpactPaged(fetch, page).Err? ==> fetch(last).Err?)
    decreases MaxImpactPages - page
  {
    match fetch(page)
    case Err(_) =>
    case Ok(p) =>
      if HasNext(p) && page + 1 <= MaxImpactPages {
        ImpactPagingStops(fetch, page + 1);
      }
  }

  /** A successful paging begins with the first page's actions. */
  lemma {:induction false} ImpactPagedFromPages(fetch: int -> Result<ImpactPage>, page: int)
    requires 1 <= page <= MaxImpactPages
    requires ImpactPaged(fetch, page).Ok?
    ensures fetch(page).Ok? && fetch(page).value.items <= ImpactPaged(fetch, page).value
    decreases MaxImpactPages - page
  {
  }

  /** `to_float(a.get("Payout") or a.get("DeltaPayout") or 0.0)`. */
  function ImpactPayout(a: Row, bi: Builtins): real {
    ToFloat(Or([Get(a, "Payout"), Get(a, "DeltaPayout"), Float(0.0)]), bi)
  }

  /** `str(a.get("State") or "").upper()`. */
  function ImpactState(a: Row, bi: Builtins): string {
    Upper(Show(Or([Get(a, "State"), Str("")]), bi))
  }

  function ImpactBucket(state: string): (b: Bucket)
    ensures b == Confirmed <==> state == "APPROVED"
    ensures b == Pending <==> state == "PENDING"
  {
    if state == "APPROVED" then Confirmed else if state == "PENDING" then Pending else Ignored
  }

  function ImpactEntries(rows: seq<Row>, bi: Builtins): (es: seq<Entry>)
    ensures |es| == |rows|
  {
    if rows == [] then []
    else [Entry(ImpactBucket(ImpactState(rows[0], bi)), ImpactPayout(rows[0], bi))] + ImpactEntries(rows[1..], bi)
  }

  /** The first of `rows` with a truthy Currency decides, upper-cased. */
  function FirstCurrency(rows: seq<Row>, default: string, bi: Builtins): (c: string)
    ensures (forall j :: 0 <= j < |rows| ==> !Truthy(Get(rows[j], "Currency"))) ==> c == default
  {
    if rows == [] then default
    else if Truthy(Get(rows[0], "Currency")) then Upper(Show(Get(rows[0], "Currency"), bi))
    else FirstCurrency(rows[1..], default, bi)
  }

  /** Impact's source currency: the first of the first three kept actions
      that carries a Currency. */
  function ImpactCurrency(rows: seq<Row>, default: string, bi: Builtins): string {
    FirstCurrency(rows[..ProbeWindow(rows)], default, bi)
  }

  /** The earliest probed action with a Currency decides. */
  lemma {:induction false} FirstCurrencyWins(rows: seq<Row>, default: string, bi: Builtins, j: nat)
    requires j < |rows| && Truthy(Get(rows[j], "Currency"))
    requires forall i :: 0 <= i < j ==> !Truthy(Get(rows[i], "Currency"))
    ensures FirstCurrency(rows, default, bi) == Upper(Show(Get(rows[j], "Currency"), bi))
  {
    if j > 0 {
      FirstCurrencyWins(rows[1..], default, bi, j - 1);
    }
  }

  function ImpactMeta(rowsTotal: nat, kept: nat, src: string, tgt: string, fx: real): Row {
    map["rows_total" := Int(rowsTotal), "rows_after_filter" := Int(kept),
        "source_currency" := Str(src), "target_currency" := Str(tgt), "fx_rate_used" := Float(fx)]
  }

  /** What the unconfigured Impact aggregator returns: blank metrics in
      job.py, blank metrics with a reason in app.py. */
  function ImpactNotConfigured(origin: Origin): (m: Metrics)
    ensures m.total == 0.0 && m.confirmed == 0.0 && m.pending == 0.0 && m.raw == []
  {
    if origin == Job then BlankMetrics() else BlankMetrics().(meta := map["reason" := Str("impact_not_configured")])
  }

  /** `impact_commission_aggregate`: nothing is requested without
      credentials; otherwise the paged actions are filtered by sub-id,
      converted from the first-seen currency, and summed by APPROVED /
      PENDING state. `defaultCcy` is IMPACT_DEFAULT_CURRENCY, upper-cased. */
  method ImpactAggregate(configured: bool, origin: Origin, fetch: int -> Result<ImpactPage>, subrefs: seq<string>,
                         contains: bool, targetCcy: string, defaultCcy: string,
                         lookup: (string, string) -> FxAnswer, bi: Builtins)
    returns (r: Result<Metrics>, pages: seq<int>)
    ensures !configured ==> r == Ok(ImpactNotConfigured(origin)) && pages == []
    ensures configured ==> 1 <= |pages| <= MaxImpactPages && |pages| == ImpactPagesRequested(fetch, 1)
    ensures configured && ImpactPaged(fetch, 1).Err? ==> r == Err(ImpactPaged(fetch, 1).error)
    ensures configured && ImpactPaged(fetch, 1).Ok? ==>
              (r.Ok? &&
               var all := ImpactPaged(fetch, 1).value;
               var f := FilterRows(Impact, all, subrefs, contains, bi);
               var src, tgt := ImpactCurrency(f, defaultCcy, bi), CurrencyOr(targetCcy, defaultCcy);
               var fx := GuardedRate(src, tgt, lookup, bi);
               r.value == Converted(ImpactEntries(f, bi), fx, f, ImpactMeta(|all|, |f|, src, tgt, fx)))
  {
    if !configured {
      return Ok(ImpactNotConfigured(origin)), [];
    }
    var fetched;
    fetched, pages := FetchImpactPages(fetch);
    if fetched.Err? {
      return Err(fetched.error), pages;
    }
    var all := fetched.value;
    var f := FilterRows(Impact, all, subrefs, contains, bi);

    var src := ProbeImpactCurrency(f, defaultCcy, bi);
    var tgt := CurrencyOr(targetCcy, defaultCcy);
    var fx := if src != tgt then FxRate(src, tgt, lookup, bi) else 1.0;
    var metrics := ConvertEntries(ImpactEntries(f, bi), fx, f, ImpactMeta(|all|, |f|, src, tgt, fx));
    r := Ok(metrics);
  }

  /** Impact's currency loop: the first of the first three actions with a
      Currency, then stop. */
  method ProbeImpactCurrency(rows: seq<Row>, default: string, bi: Builtins) returns (src: string)
    ensures src == ImpactCurrency(rows, default, bi)
  {
    src := default;
    var n := ProbeWindow(rows);
    var j := 0;
    while j < n
      invariant 0 <= j <= n
      invariant forall i :: 0 <= i < j ==> !Truthy(Get(rows[i], "Currency"))
    {
      var c := Get(rows[j], "Currency");
      if Truthy(c) {
        FirstCurrencyWins(rows[..n], default, bi, j);
        return Upper(Show(c, bi));
      }
      j := j + 1;
    }
    assert forall i :: 0 <= i < n ==> rows[..n][i] == rows[i];
  }

  // ----------------------------------------------------- Partnerize

  /** The Partnerize commission stub: zero totals, with the reason and the
      target currency in `meta`. */
  function PartnerizeStub(targetCcy: string, preferred: string): (m: Metrics)
    ensures m.total == m.confirmed == m.pending == 0.0 && m.raw == []
    ensures "reason" in m.meta && m.meta["reason"] == Str("partnerize_commission_not_implemented")
  {
    Metrics(0.0, 0.0, 0.0, [], map["reason" := Str("partnerize_commission_not_implemented"),
                                   "target_currency" := Str(CurrencyOr(targetCcy, CurrencyOr(preferred, "EUR")))])
  }
}
