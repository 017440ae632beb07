/** Partnerize: the participation list normalised from the v3 API with
    the v1 campaign list as fallback, and the campaign-to-feeds map; both
    page through the API with the same stops (app.py:1995-2294). */
module Partnerize {
  import opened Wrappers
  import opened PyValue
  import opened UrlMaps
  import opened Searches

  // ------------------------------------------------------------ paging

  /** The safety cap of both paging loops: `page += 1; if page > 20: break`. */
  const MaxPages: int := 20

  /** `page_size` of the participations request. */
  const ParticipationPageSize: nat := 100

  /** `page_size` of the feed request. */
  const FeedPageSize: nat := 50

  /** How a paging loop ended: with the items of every page, on a failed
      request, or on an exception while handling a page's rows. */
  datatype Paged<T> = Done(items: seq<T>) | FetchFailed(error: string) | Raised(error: string)

  function PrependPaged<T>(xs: seq<T>, r: Paged<T>): Paged<T> {
    match r
    case Done(ys) => Done(xs + ys)
    case _ => r
  }

  /** The loop from `page` on: request the page; stop on a failed request
      or an empty page; handle every row; stop on a short page or at the
      cap, else go on with the next page. */
  function PagedFrom<T>(fetch: int -> Result<seq<Row>>, page: int, size: nat, handle: Row -> Result<seq<T>>): (r: Paged<T>)
    requires 1 <= page <= MaxPages
    ensures r.FetchFailed? ==> exists q :: page <= q <= MaxPages && fetch(q) == Err(r.error)
    ensures r.Raised? ==> exists q :: page <= q <= MaxPages && fetch(q).Ok? && FlattenResult(fetch(q).value, handle) == Err(r.error)
    decreases MaxPages - page
  {
    match fetch(page)
    case Err(e) => FetchFailed(e)
    case Ok(rows) =>
      if rows == [] then Done([])
      else match FlattenResult(rows, handle)
        case Err(e) => Raised(e)
        case Ok(xs) =>
          if |rows| < size || page + 1 > MaxPages then Done(xs)
          else PrependPaged(xs, PagedFrom(fetch, page + 1, size, handle))
  }

  /** The number of requests made from `page` on. */
  function PagesRequested<T>(fetch: int -> Result<seq<Row>>, page: int, size: nat, handle: Row -> Result<seq<T>>): (n: nat)
    requires 1 <= page <= MaxPages
    ensures 1 <= n <= MaxPages - page + 1
    decreases MaxPages - page
  {
    match fetch(page)
    case Err(_) => 1
    case Ok(rows) =>
      if rows == [] || FlattenResult(rows, handle).Err? || |rows| < size || page + 1 > MaxPages then 1
      else 1 + PagesRequested(fetch, page + 1, size, handle)
  }

  /** The loop goes on past a page only when that page came back full. */
  lemma {:induction false} PagesBeforeLastAreFull<T>(fetch: int -> Result<seq<Row>>, page: int, size: nat,
                                                     handle: Row -> Result<seq<T>>, j: int)
    requires 1 <= page <= j <= MaxPages && j - page + 1 < PagesRequested(fetch, page, size, handle)
    ensures fetch(j).Ok? && |fetch(j).value| >= size
    decreases j - page
  {
    if j > page {
      PagesBeforeLastAreFull(fetch, page + 1, size, handle, j);
    }
  }

  /** A failed request on a page the loop reaches ends it as a failure. */
  lemma {:induction false} PagedReachesFailure<T>(fetch: int -> Result<seq<Row>>, page: int, size: nat,
                                                  handle: Row -> Result<seq<T>>, j: int)
    requires 1 <= page <= j <= MaxPages && j - page < PagesRequested(fetch, page, size, handle) && fetch(j).Err?
    ensures PagedFrom(fetch, page, size, handle).FetchFailed?
    decreases j - page
  {
    if j > page {
      PagedReachesFailure(fetch, page + 1, size, handle, j);
    }
  }

  /** A property of every handled item holds of everything paged in. */
  lemma {:induction false} PagedAll<T>(fetch: int -> Result<seq<Row>>, page: int, size: nat,
                                       handle: Row -> Result<seq<T>>, ok: T -> bool)
    requires 1 <= page <= MaxPages
    requires forall r :: handle(r).Ok? ==> forall x :: x in handle(r).value ==> ok(x)
    ensures PagedFrom(fetch, page, size, handle).Done? ==>
              forall x :: x in PagedFrom(fetch, page, size, handle).items ==> ok(x)
    decreases MaxPages - page
  {
    if fetch(page).Ok? && fetch(page).value != [] {
      FlattenResultAll(fetch(page).value, handle, ok);
      if page + 1 <= MaxPages {
        PagedAll(fetch, page + 1, size, handle, ok);
      }
    }
  }

  lemma PrependPagedTwice<T>(xs: seq<T>, ys: seq<T>, r: Paged<T>)
    ensures PrependPaged(xs, PrependPaged(ys, r)) == PrependPaged(xs + ys, r)
  {
    if r.Done? {
      assert xs + (ys + r.items) == (xs + ys) + r.items;
    }
  }

  /** The loop's step on a failed request. */
  lemma PagedFails<T>(fetch: int -> Result<seq<Row>>, page: int, size: nat, handle: Row -> Result<seq<T>>)
    requires 1 <= page <= MaxPages && fetch(page).Err?
    ensures PagedFrom(fetch, page, size, handle) == FetchFailed(fetch(page).error)
    ensures PagesRequested(fetch, page, size, handle) == 1
  {
  }

  /** The loop's step on an empty page. */
  lemma PagedEmpty<T>(fetch: int -> Result<seq<Row>>, page: int, size: nat, handle: Row -> Result<seq<T>>)
    requires 1 <= page <= MaxPages && fetch(page) == Ok([])
    ensures PagedFrom(fetch, page, size, handle) == Done([])
    ensures PagesRequested(fetch, page, size, handle) == 1
  {
  }

  /** The loop's step on a page whose rows raise. */
  lemma PagedRaises<T>(fetch: int -> Result<seq<Row>>, page: int, size: nat, handle: Row -> Result<seq<T>>)
    requires 1 <= page <= MaxPages && fetch(page).Ok? && fetch(page).value != []
    requires FlattenResult(fetch(page).value, handle).Err?
    ensures PagedFrom(fetch, page, size, handle) == Raised(FlattenResult(fetch(page).value, handle).error)
    ensures PagesRequested(fetch, page, size, handle) == 1
  {
  }

  /** The loop's step on its last page: a short one, or the twentieth. */
  lemma PagedLast<T>(fetch: int -> Result<seq<Row>>, page: int, size: nat, handle: Row -> Result<seq<T>>)
    requires 1 <= page <= MaxPages && fetch(page).Ok? && fetch(page).value != []
    requires FlattenResult(fetch(page).value, handle).Ok?
    requires |fetch(page).value| < size || page + 1 > MaxPages
    ensures PagedFrom(fetch, page, size, handle) == Done(FlattenResult(fetch(page).value, handle).value)
    ensures PagesRequested(fetch, page, size, handle) == 1
  {
  }

  /** The loop's step onto the next page. */
  lemma PagedNext<T>(fetch: int -> Result<seq<Row>>, page: int, size: nat, handle: Row -> Result<seq<T>>)
    requires 1 <= page < MaxPages && fetch(page).Ok? && fetch(page).value != []
    requires FlattenResult(fetch(page).value, handle).Ok?
    requires |fetch(page).value| >= size
    ensures PagedFrom(fetch, page, size, handle) ==
              PrependPaged(FlattenResult(fetch(page).value, handle).value, PagedFrom(fetch, page + 1, size, handle))
    ensures PagesRequested(fetch, page, size, handle) == 1 + PagesRequested(fetch, page + 1, size, handle)
  {
  }

  /** The paging loops' invariant carried onto the next page: the items
      so far, then what the rest of the loop pages in. */
  lemma PagedAdvance<T>(fetch: int -> Result<seq<Row>>, size: nat, handle: Row -> Result<seq<T>>, all: seq<T>, page: int)
    requires 1 <= page < MaxPages && fetch(page).Ok? && fetch(page).value != []
    requires FlattenResult(fetch(page).value, handle).Ok? && |fetch(page).value| >= size
    requires PagedFrom(fetch, 1, size, handle) == PrependPaged(all, PagedFrom(fetch, page, size, handle))
    ensures PagedFrom(fetch, 1, size, handle) ==
              PrependPaged(all + FlattenResult(fetch(page).value, handle).value, PagedFrom(fetch, page + 1, size, handle))
  {
    PagedNext(fetch, page, size, handle);
    PrependPagedTwice(all, FlattenResult(fetch(page).value, handle).value, PagedFrom(fetch, page + 1, size, handle));
  }

  /** The rows of one page handled in order: `for p in rows: ...`. */
  method HandleRows<T>(rows: seq<Row>, handle: Row -> Result<seq<T>>) returns (r: Result<seq<T>>)
    ensures r == FlattenResult(rows, handle)
  {
    var out: seq<T> := [];
    for i := 0 to |rows|
      invariant FlattenResult(rows[..i], handle) == Ok(out)
    {
      FlattenResultStep(rows, handle, i, out);
      var step := handle(rows[i]);
      if step.Err? {
        FlattenResultErrKeeps(rows, handle, i + 1);
        return Err(step.error);
      }
      out := out + step.value;
    }
    assert rows[..|rows|] == rows;
    return Ok(out);
  }

  /** The paging loop: pages 1, 2, ... in turn, at most twenty requests;
      `requests` counts them. */
  method FetchPaged<T>(fetch: int -> Result<seq<Row>>, size: nat, handle: Row -> Result<seq<T>>)
    returns (r: Paged<T>, requests: nat)
    ensures r == PagedFrom(fetch, 1, size, handle)
    ensures requests == PagesRequested(fetch, 1, size, handle) <= MaxPages
  {
    var all: seq<T> := [];
    var page := 1;
    assert PrependPaged([], PagedFrom(fetch, 1, size, handle)) == PagedFrom(fetch, 1, size, handle) by {
      if PagedFrom(fetch, 1, size, handle).Done? {
        assert [] + PagedFrom(fetch, 1, size, handle).items == PagedFrom(fetch, 1, size, handle).items;
      }
    }
    while true
      invariant 1 <= page <= MaxPages
      invariant PagedFrom(fetch, 1, size, handle) == PrependPaged(all, PagedFrom(fetch, page, size, handle))
      invariant PagesRequested(fetch, 1, size, handle) == page - 1 + PagesRequested(fetch, page, size, handle)
      decreases MaxPages - page
    {
      var data := fetch(page);
      if data.Err? {
        PagedFails(fetch, page, size, handle);
        return FetchFailed(data.error), page;
      }
      var rows := data.value;
      if rows == [] {
        PagedEmpty(fetch, page, size, handle);
        assert all + [] == all;
        return Done(all), page;
      }
      var handled := HandleRows(rows, handle);
      if handled.Err? {
        PagedRaises(fetch, page, size, handle);
        return Raised(handled.error), page;
      }
      if |rows| < size || page + 1 > MaxPages {
        PagedLast(fetch, page, size, handle);
        return Done(all + handled.value), page;
      }
      PagedAdvance(fetch, size, handle, all, page);
      PagedNext(fetch, page, size, handle);
      all := all + handled.value;
      page := page + 1;
    }
  }

  // ------------------------------------------------------ participations

  /** One normalised participation. */
  datatype Participation = Participation(
    campaignId: string,
    status: string,
    defaultCurrency: string,
    promotionalCountries: seq<string>,
    title: Value,
    trackingLink: Value)

  /** What every normalised participation satisfies: a non-blank stripped
      campaign id, a lower-case status, an upper-case currency and country
      list, and a title that is set. */
  predicate WellNormalized(q: Participation) {
    Clean(q.campaignId) &&
    NoUpperCase(q.status) && NoLowerCase(q.defaultCurrency) &&
    (forall k :: 0 <= k < |q.promotionalCountries| ==> NoLowerCase(q.promotionalCountries[k])) &&
    Truthy(q.title)
  }

  /** Non-blank text with no space at either end. */
  predicate Clean(t: string) {
    t != "" && !IsSpace(t[0]) && !IsSpace(t[|t| - 1])
  }

  /** The upper-cased text of each value. */
  function UpperTexts(vs: seq<Value>, bi: Builtins): (us: seq<string>)
    ensures |us| == |vs|
    ensures forall k :: 0 <= k < |us| ==> us[k] == Upper(Show(vs[k], bi)) && NoLowerCase(us[k])
    decreases |vs|
  {
    if vs == [] then []
    else
      UpperIsUpper(Show(vs[0], bi));
      [Upper(Show(vs[0], bi))] + UpperTexts(vs[1..], bi)
  }

  /** The promotional countries: an object's keys, a list's items or a
      single string, each upper-cased; nothing for any other value. The
      order of an object's keys is `keysOf`'s. */
  function PromoList(v: Value, keysOf: map<string, Value> -> seq<string>, bi: Builtins): (us: seq<string>)
    ensures forall k :: 0 <= k < |us| ==> NoLowerCase(us[k])
  {
    match v
    case Dict(f) => UpperTexts(KeyValues(keysOf(f)), bi)
    case List(xs) => UpperTexts(xs, bi)
    case Str(s) => UpperIsUpper(s); [Upper(s)]
    case _ => []
  }

  /** Each key as a text value. */
  function KeyValues(ks: seq<string>): (vs: seq<Value>)
    ensures |vs| == |ks| && forall i :: 0 <= i < |ks| ==> vs[i] == Str(ks[i])
  {
    seq(|ks|, i requires 0 <= i < |ks| => Str(ks[i]))
  }

  /** `str(v or "")`: the text of a set value, else empty. */
  function TextOr(v: Value, bi: Builtins): string {
    if Truthy(v) then Show(v, bi) else ""
  }

  /** `str(v).strip()`. */
  function StrippedText(v: Value, bi: Builtins): (t: string)
    ensures t == "" || Clean(t)
  {
    Trimmed(Show(v, bi))
  }

  /** `s.strip()`: blank, or clean. */
  function Trimmed(s: string): (t: string)
    ensures t == "" || Clean(t)
  {
    Strip(s)
  }

  /** `s.lower()`, with no upper-case letter left. */
  function Lowered(s: string): (t: string)
    ensures NoUpperCase(t)
  {
    LowerIsLower(s);
    Lower(s)
  }

  /** `str(v or "").strip().lower()`. */
  function LowerText(v: Value, bi: Builtins): (t: string)
    ensures NoUpperCase(t)
  {
    Lowered(Trimmed(TextOr(v, bi)))
  }

  /** `str(v).upper()`. */
  function UpperText(v: Value, bi: Builtins): (t: string)
    ensures NoLowerCase(t)
  {
    UpperTexts([v], bi)[0]
  }

  /** The record built once the id, the object holding title and link, and
      the country value are known. */
  function Build(cid: string, status: Value, ccy: Value, info: map<string, Value>, tracking: Value,
                 promos: Value, keysOf: map<string, Value> -> seq<string>, bi: Builtins): (q: Participation)
    ensures q.campaignId == cid
    ensures Clean(cid) ==> WellNormalized(q)
  {
    var st, cu, pr, ti := LowerText(status, bi), UpperText(ccy, bi), PromoList(promos, keysOf, bi), Title(info);
    if Clean(cid) then
      FieldsWellNormalized(cid, st, cu, pr, ti, tracking);
      Participation(cid, st, cu, pr, ti, tracking)
    else Participation(cid, st, cu, pr, ti, tracking)
  }

  /** The one record a row with a clean id contributes. */
  function Record(cid: string, status: Value, ccy: Value, info: map<string, Value>, tracking: Value,
                  promos: Value, keysOf: map<string, Value> -> seq<string>, bi: Builtins): (r: seq<Participation>)
    requires Clean(cid)
    ensures |r| == 1 && forall q :: q in r ==> WellNormalized(q) && q.campaignId == cid
  {
    [Build(cid, status, ccy, info, tracking, promos, keysOf, bi)]
  }

  /** The record's invariant follows from its fields' own properties. */
  lemma FieldsWellNormalized(cid: string, st: string, cu: string, pr: seq<string>, ti: Value, tr: Value)
    requires Clean(cid)
    requires NoUpperCase(st) && NoLowerCase(cu)
    requires forall k :: 0 <= k < |pr| ==> NoLowerCase(pr[k])
    requires Truthy(ti)
    ensures WellNormalized(Participation(cid, st, cu, pr, ti, tr))
  {
  }

  /** `info.get("title") or info.get("name") or "(unknown)"`: always set. */
  function Title(info: map<string, Value>): (t: Value)
    ensures Truthy(t)
  {
    OrElse(Get(info, "title"), OrElse(Get(info, "name"), Str("(unknown)")))
  }

  /** The v3 campaign id: `campaign_id`, or the key spelled with a colon. */
  function V3Id(p: Row, bi: Builtins): string {
    StrippedText(OrElse(Get(p, "campaign_id"), OrElse(Get(p, "campaign_id:"), Str(""))), bi)
  }

  /** The v3 `campaign_info` object: `.get` on anything else raises. */
  function V3Info(p: Row): Value {
    OrElse(Get(p, "campaign_info"), OrElse(Get(p, "campaign_info:"), Dict(map[])))
  }

  /** The v3 currency, tracking link and country fields, each the first
      set spelling. */
  function V3Currency(p: Row): Value {
    OrElse(Get(p, "default_currency"), OrElse(Get(p, "default_currency:"), Str("")))
  }

  function V3Tracking(info: map<string, Value>): Value {
    OrElse(Get(info, "tracking_link"), OrElse(Get(info, "trackingLink"), OrElse(Get(info, "tracking_url"), Str(""))))
  }

  function V3Promos(p: Row): Value {
    OrElse(Get(p, "promotional_countries"), OrElse(Get(p, "promotional_countries:"), List([])))
  }

  /** A v3 participation row: skipped without a campaign id; raises when
      its campaign info is set but not an object; else one record. */
  function V3Row(p: Row, keysOf: map<string, Value> -> seq<string>, bi: Builtins): (r: Result<seq<Participation>>)
    ensures V3Id(p, bi) == "" ==> r == Ok([])
    ensures V3Id(p, bi) != "" ==> (r.Ok? <==> V3Info(p).Dict?)
    ensures r.Ok? ==> |r.value| <= 1 && forall q :: q in r.value ==> WellNormalized(q) && q.campaignId == V3Id(p, bi)
  {
    var cid := V3Id(p, bi);
    if cid == "" then Ok([])
    else match V3Info(p)
      case Dict(info) =>
        Ok(Record(cid, Get(p, "status"), V3Currency(p), info, V3Tracking(info), V3Promos(p), keysOf, bi))
      case v => Err(MethodError(v, "get"))
  }

  function V3RowOf(keysOf: map<string, Value> -> seq<string>, bi: Builtins): Row -> Result<seq<Participation>> {
    p => V3Row(p, keysOf, bi)
  }

  /** The v1 id, from the inner campaign object. */
  function V1Id(inner: map<string, Value>, bi: Builtins): string {
    StrippedText(OrElse(Get(inner, "campaign_id"), OrElse(Get(inner, "campaign_id:"), OrElse(Get(inner, "id"), Str("")))), bi)
  }

  /** The v1 inner object: `item.get("campaign") or item`. */
  function V1Inner(item: Row): Value {
    OrElse(Get(item, "campaign"), Dict(item))
  }

  /** The v1 currency, tracking link and country fields, each the first
      set spelling; the countries may also sit on the outer item. */
  function V1Currency(inner: map<string, Value>): Value {
    OrElse(Get(inner, "default_currency"), OrElse(Get(inner, "currency"), Str("")))
  }

  function V1Tracking(inner: map<string, Value>): Value {
    OrElse(Get(inner, "tracking_link"), OrElse(Get(inner, "tracking_url"), Str("")))
  }

  function V1Promos(inner: map<string, Value>, item: Row): Value {
    OrElse(Get(inner, "countries"), OrElse(Get(inner, "country_codes"), OrElse(Get(item, "countries"), List([]))))
  }

  /** A v1 campaign item: raises when its `campaign` entry is set but not
      an object; skipped without an id; else one record. */
  function V1Row(item: Row, keysOf: map<string, Value> -> seq<string>, bi: Builtins): (r: Result<seq<Participation>>)
    ensures r.Ok? <==> V1Inner(item).Dict?
    ensures r.Ok? ==> (r.value == [] <==> V1Id(V1Inner(item).fields, bi) == "")
    ensures r.Ok? ==> |r.value| <= 1 && forall q :: q in r.value ==> WellNormalized(q) && q.campaignId == V1Id(V1Inner(item).fields, bi)
  {
    match V1Inner(item)
    case Dict(inner) =>
      var cid := V1Id(inner, bi);
      if cid == "" then Ok([])
      else Ok(Record(cid, OrElse(Get(inner, "status"), Get(item, "status")), V1Currency(inner), inner,
                     V1Tracking(inner), V1Promos(inner, item), keysOf, bi))
    case v => Err(MethodError(v, "get"))
  }

  function V1RowOf(keysOf: map<string, Value> -> seq<string>, bi: Builtins): Row -> Result<seq<Participation>> {
    item => V1Row(item, keysOf, bi)
  }

  /** The v1 fallback: any failure gives the empty list. */
  function V1Participations(fetched: Result<seq<Row>>, keysOf: map<string, Value> -> seq<string>, bi: Builtins): (r: seq<Participation>)
    ensures fetched.Err? || FlattenResult(fetched.value, V1RowOf(keysOf, bi)).Err? ==> r == []
    ensures forall q :: q in r ==> WellNormalized(q)
  {
    match fetched
    case Err(_) => []
    case Ok(items) =>
      FlattenResultAll(items, V1RowOf(keysOf, bi), WellNormalized);
      match FlattenResult(items, V1RowOf(keysOf, bi))
      case Err(_) => []
      case Ok(qs) => qs
  }

  /** `partnerize_participations`: nothing when Partnerize is not
      configured; the v3 records when paging them succeeded with at least
      one; else the v1 fallback. */
  function Participations(configured: bool, fetchV3: int -> Result<seq<Row>>, fetchV1: Result<seq<Row>>,
                          keysOf: map<string, Value> -> seq<string>, bi: Builtins): (r: seq<Participation>)
    ensures forall q :: q in r ==> WellNormalized(q)
  {
    if !configured then []
    else
      var v3 := PagedFrom(fetchV3, 1, ParticipationPageSize, V3RowOf(keysOf, bi));
      PagedAll(fetchV3, 1, ParticipationPageSize, V3RowOf(keysOf, bi), WellNormalized);
      if v3.Done? && v3.items != [] then v3.items else V1Participations(fetchV1, keysOf, bi)
  }

  /** The participations loop and its fallback, as the source runs them. */
  method PartnerizeParticipations(configured: bool, fetchV3: int -> Result<seq<Row>>, fetchV1: Result<seq<Row>>,
                                  keysOf: map<string, Value> -> seq<string>, bi: Builtins)
    returns (allNorm: seq<Participation>)
    ensures allNorm == Participations(configured, fetchV3, fetchV1, keysOf, bi)
  {
    if !configured {
      return [];
    }
    var v3, _ := FetchPaged(fetchV3, ParticipationPageSize, V3RowOf(keysOf, bi));
    if v3.Done? && v3.items != [] {
      return v3.items;
    }
    if fetchV1.Err? {
      return [];
    }
    var v1 := HandleRows(fetchV1.value, V1RowOf(keysOf, bi));
    if v1.Err? {
      return [];
    }
    return v1.value;
  }

  /** A failed v3 request on any page the loop reaches discards the
      records of the pages before it: the result is the v1 fallback. */
  lemma V3FailureFallsBack(fetchV3: int -> Result<seq<Row>>, fetchV1: Result<seq<Row>>,
                           keysOf: map<string, Value> -> seq<string>, bi: Builtins, j: int)
    requires 1 <= j <= MaxPages && fetchV3(j).Err?
    requires j - 1 < PagesRequested(fetchV3, 1, ParticipationPageSize, V3RowOf(keysOf, bi))
    ensures Participations(true, fetchV3, fetchV1, keysOf, bi) == V1Participations(fetchV1, keysOf, bi)
  {
    PagedReachesFailure(fetchV3, 1, ParticipationPageSize, V3RowOf(keysOf, bi), j);
  }

  /** A short first v3 page with at least one record ends the loop: its
      records are the result, whatever the v1 endpoint and the later v3
      pages would return. */
  lemma ShortV3PageIsUsed(fetchV3: int -> Result<seq<Row>>, fetchV1: Result<seq<Row>>,
                          keysOf: map<string, Value> -> seq<string>, bi: Builtins)
    requires fetchV3(1).Ok? && |fetchV3(1).value| < ParticipationPageSize
    requires FlattenResult(fetchV3(1).value, V3RowOf(keysOf, bi)).Ok?
    requires FlattenResult(fetchV3(1).value, V3RowOf(keysOf, bi)).value != []
    ensures Participations(true, fetchV3, fetchV1, keysOf, bi) == FlattenResult(fetchV3(1).value, V3RowOf(keysOf, bi)).value
  {
  }

  /** A country object's keys become its upper-cased country codes. */
  lemma PromoKeys(f: map<string, Value>, keysOf: map<string, Value> -> seq<string>, bi: Builtins)
    requires forall k :: k in keysOf(f) <==> k in f
    ensures forall c :: c in PromoList(Dict(f), keysOf, bi) <==> exists k :: k in f && c == Upper(k)
  {
    UpperKeys(keysOf(f), bi);
    KeysMapped(keysOf(f), f, PromoList(Dict(f), keysOf, bi), Upper);
  }

  /** A list holding `g` of each listed key holds `g` of exactly the
      object's keys. */
  lemma KeysMapped(ks: seq<string>, f: map<string, Value>, us: seq<string>, g: string -> string)
    requires forall k :: k in ks <==> k in f
    requires |us| == |ks| && forall i :: 0 <= i < |ks| ==> us[i] == g(ks[i])
    ensures forall c :: c in us <==> exists k :: k in f && c == g(k)
  {
    forall c ensures c in us <==> exists k :: k in f && c == g(k) {
      if c in us {
        var i :| 0 <= i < |us| && us[i] == c;
        assert ks[i] in f;
      }
      if exists k :: k in f && c == g(k) {
        var k :| k in f && c == g(k);
        var i :| 0 <= i < |ks| && ks[i] == k;
        assert us[i] == c;
      }
    }
  }

  /** Upper-casing keys as text values upper-cases the keys. */
  lemma UpperKeys(ks: seq<string>, bi: Builtins)
    ensures var us := UpperTexts(KeyValues(ks), bi);
      |us| == |ks| && forall i :: 0 <= i < |ks| ==> us[i] == Upper(ks[i])
  {
    var vs := KeyValues(ks);
    forall i | 0 <= i < |ks| ensures Show(vs[i], bi) == ks[i] {
      assert vs[i] == Str(ks[i]);
    }
  }

  // ------------------------------------------------------------- feeds

  /** The feed object's URL: the first set of its four URL fields. */
  function FeedLocation(f: map<string, Value>): Value {
    OrElse(Get(f, "location"), OrElse(Get(f, "location_compressed"), OrElse(Get(f, "feed_url"), Get(f, "url"))))
  }

  /** `loc.strip()` when the location is text that is not blank. */
  function FeedUrl(loc: Value): (us: seq<string>)
    ensures |us| <= 1
    ensures forall u :: u in us ==> Clean(u)
  {
    if loc.Str? then StrippedUrl(Strip(loc.s)) else []
  }

  /** A stripped text as a URL list: itself unless it is blank. */
  function StrippedUrl(t: string): (us: seq<string>)
    requires t == [] || (!IsSpace(t[0]) && !IsSpace(t[|t| - 1]))
    ensures |us| <= 1
    ensures forall u :: u in us ==> Clean(u)
  {
    if t == [] then [] else [t]
  }

  /** The stripped non-blank URLs of the feed values in order; a value
      that is not an object makes `.get` raise. */
  function FeedUrls(feeds: seq<Value>): (r: Result<seq<string>>)
    ensures r.Ok? ==> forall u :: u in r.value ==> Clean(u)
    decreases |feeds|
  {
    if feeds == [] then Ok([])
    else match feeds[0]
      case Dict(f) =>
        (match FeedUrls(feeds[1..])
         case Err(e) => Err(e)
         case Ok(rest) => Ok(FeedUrl(FeedLocation(f)) + rest))
      case v => Err(MethodError(v, "get"))
  }

  /** The feed values of a campaign: an object stands for itself, a list
      for its items; text is iterated character by character and a number
      or `True` is not iterable, and either raises. */
  function CampaignFeedValues(camp: map<string, Value>): Result<seq<Value>> {
    match OrElse(Get(camp, "feeds"), List([]))
    case Dict(f) => Ok([Dict(f)])
    case List(items) => Ok(items)
    case Str(_) => Err(MethodError(Str(""), "get"))
    case v => Err(NotIterableError(v))
  }

  /** The campaign id of a feed item's campaign object. */
  function FeedCampaignId(camp: map<string, Value>, bi: Builtins): string {
    StrippedText(OrElse(Get(camp, "campaign_id"), OrElse(Get(camp, "id"), Str(""))), bi)
  }

  /** The inner campaign of a feed item: `item.get("campaign") or item`. */
  function FeedCampaign(item: Row): Value {
    OrElse(Get(item, "campaign"), Dict(item))
  }

  /** What one campaign item contributes: its URLs under its id; nothing
      without an id; raises on a campaign or feed that is not an object.
      The URLs are merged one at a time, which is merging them as one
      batch. */
  function FeedBatch(item: Row, bi: Builtins): (r: Result<seq<Batch<string>>>)
    ensures r.Ok? ==> |r.value| <= 1
    ensures r.Ok? ==> forall b :: b in r.value ==> CleanBatch(b)
  {
    match FeedCampaign(item)
    case Dict(camp) =>
      var cid := FeedCampaignId(camp, bi);
      if cid == "" then Ok([])
      else
        (match CampaignUrls(camp)
         case Err(e) => Err(e)
         case Ok(us) => Ok([Batch(cid, us)]))
    case v => Err(MethodError(v, "get"))
  }

  /** The URLs of a campaign's feeds, in order. */
  function CampaignUrls(camp: map<string, Value>): (r: Result<seq<string>>)
    ensures r.Ok? ==> forall u :: u in r.value ==> Clean(u)
  {
    match CampaignFeedValues(camp)
    case Err(e) => Err(e)
    case Ok(vs) => FeedUrls(vs)
  }

  function FeedBatchOf(bi: Builtins): Row -> Result<seq<Batch<string>>> {
    item => FeedBatch(item, bi)
  }

  /** A batch whose URLs are non-blank and stripped. */
  predicate CleanBatch(b: Batch<string>) {
    Clean(b.key) && forall u :: u in b.urls ==> Clean(u)
  }

  /** `partnerize_feeds_by_campaign`: nothing when not configured; nothing
      at all when any page request fails, even after earlier pages; the
      exception of a campaign or feed that is not an object; else the
      campaign-to-feeds map over every page's campaigns in order. */
  function FeedsByCampaign(configured: bool, fetch: int -> Result<seq<Row>>, bi: Builtins): (r: Result<map<string, seq<string>>>)
    ensures r.Ok? ==> WellFormedUrls(r.value)
  {
    if !configured then Ok(map[])
    else match PagedFrom(fetch, 1, FeedPageSize, FeedBatchOf(bi))
      case FetchFailed(_) => Ok(map[])
      case Raised(e) => Err(e)
      case Done(bs) =>
        MergeAllKeeps(map[], bs, "");
        Ok(MergeAll(map[], bs))
  }

  /** The rows of one feed page merged in order into the map. */
  method MergeFeedRows(feeds: map<string, seq<string>>, rows: seq<Row>, bi: Builtins)
    returns (r: Result<map<string, seq<string>>>)
    ensures FlattenResult(rows, FeedBatchOf(bi)).Err? ==> r == Err(FlattenResult(rows, FeedBatchOf(bi)).error)
    ensures FlattenResult(rows, FeedBatchOf(bi)).Ok? ==> r == Ok(MergeAll(feeds, FlattenResult(rows, FeedBatchOf(bi)).value))
  {
    var f := FeedBatchOf(bi);
    var m := feeds;
    ghost var bs: seq<Batch<string>> := [];
    for i := 0 to |rows|
      invariant FlattenResult(rows[..i], f) == Ok(bs)
      invariant m == MergeAll(feeds, bs)
    {
      FlattenResultStep(rows, f, i, bs);
      var step := f(rows[i]);
      if step.Err? {
        FlattenResultErrKeeps(rows, f, i + 1);
        return Err(step.error);
      }
      MergeAllConcat(feeds, bs, step.value);
      if step.value != [] {
        var b := step.value[0];
        assert step.value == [b];
        m := MergeInto(m, b);
      } else {
        assert bs + step.value == bs;
      }
      bs := bs + step.value;
    }
    assert rows[..|rows|] == rows;
    return Ok(m);
  }

  /** The feed paging loop, filling the map page by page. */
  method PartnerizeFeedsByCampaign(configured: bool, fetch: int -> Result<seq<Row>>, bi: Builtins)
    returns (r: Result<map<string, seq<string>>>)
    ensures r == FeedsByCampaign(configured, fetch, bi)
  {
    if !configured {
      return Ok(map[]);
    }
    var f := FeedBatchOf(bi);
    var feeds: map<string, seq<string>> := map[];
    var bs: seq<Batch<string>> := [];
    var page := 1;
    assert PrependPaged([], PagedFrom(fetch, 1, FeedPageSize, f)) == PagedFrom(fetch, 1, FeedPageSize, f) by {
      if PagedFrom(fetch, 1, FeedPageSize, f).Done? {
        assert [] + PagedFrom(fetch, 1, FeedPageSize, f).items == PagedFrom(fetch, 1, FeedPageSize, f).items;
      }
    }
    while true
      invariant 1 <= page <= MaxPages
      invariant PagedFrom(fetch, 1, FeedPageSize, f) == PrependPaged(bs, PagedFrom(fetch, page, FeedPageSize, f))
      invariant feeds == MergeAll(map[], bs)
      decreases MaxPages - page
    {
      var done;
      done, r, feeds, bs := FeedPage(fetch, page, feeds, bs, bi);
      if done {
        return r;
      }
      page := page + 1;
    }
  }

  /** One request of the feed loop: either the loop's outcome, or the map
      grown by this page's campaigns with the loop going on. `bs` carries
      the campaign batches merged so far, which the map is built from. */
  method FeedPage(fetch: int -> Result<seq<Row>>, page: int, feeds: map<string, seq<string>>, bs: seq<Batch<string>>,
                  bi: Builtins)
    returns (done: bool, r: Result<map<string, seq<string>>>, feeds': map<string, seq<string>>, bs': seq<Batch<string>>)
    requires 1 <= page <= MaxPages
    requires PagedFrom(fetch, 1, FeedPageSize, FeedBatchOf(bi)) == PrependPaged(bs, PagedFrom(fetch, page, FeedPageSize, FeedBatchOf(bi)))
    requires feeds == MergeAll(map[], bs)
    ensures done ==> r == FeedsByCampaign(true, fetch, bi)
    ensures !done ==> page < MaxPages && feeds' == MergeAll(map[], bs')
    ensures !done ==>
      PagedFrom(fetch, 1, FeedPageSize, FeedBatchOf(bi)) == PrependPaged(bs', PagedFrom(fetch, page + 1, FeedPageSize, FeedBatchOf(bi)))
  {
    var f := FeedBatchOf(bi);
    feeds', bs', r := feeds, bs, Ok(feeds);
    var data := fetch(page);
    if data.Err? {
      PagedFails(fetch, page, FeedPageSize, f);
      return true, Ok(map[]), feeds', bs';
    }
    var campaigns := data.value;
    if campaigns == [] {
      PagedEmpty(fetch, page, FeedPageSize, f);
      assert bs + [] == bs;
      return true, Ok(feeds), feeds', bs';
    }
    var merged := MergeFeedRows(feeds, campaigns, bi);
    if merged.Err? {
      PagedRaises(fetch, page, FeedPageSize, f);
      return true, merged, feeds', bs';
    }
    var pageBatches := FlattenResult(campaigns, f).value;
    MergeAllConcat(map[], bs, pageBatches);
    feeds' := merged.value;
    bs' := bs + pageBatches;
    if |campaigns| < FeedPageSize || page + 1 > MaxPages {
      PagedLast(fetch, page, FeedPageSize, f);
      return true, Ok(feeds'), feeds', bs';
    }
    PagedAdvance(fetch, FeedPageSize, f, bs, page);
    done := false;
  }

  /** Every listed URL is non-blank and stripped, under a non-blank id. */
  lemma FeedsClean(configured: bool, fetch: int -> Result<seq<Row>>, bi: Builtins, cid: string, u: string)
    requires FeedsByCampaign(configured, fetch, bi).Ok?
    requires u in Urls(FeedsByCampaign(configured, fetch, bi).value, cid)
    ensures Clean(cid) && Clean(u)
  {
    var f := FeedBatchOf(bi);
    var bs := PagedFrom(fetch, 1, FeedPageSize, f).items;
    PagedAll(fetch, 1, FeedPageSize, f, CleanBatch);
    MergeAllHolds(map[], bs, cid, u);
    var b :| b in bs && b.key == cid && u in b.urls;
  }

  /** A failed request on any page the loop reaches discards every
      earlier page. */
  lemma FeedFetchFailureDiscards(fetch: int -> Result<seq<Row>>, bi: Builtins, j: int)
    requires 1 <= j <= MaxPages && j <= PagesRequested(fetch, 1, FeedPageSize, FeedBatchOf(bi)) && fetch(j).Err?
    ensures FeedsByCampaign(true, fetch, bi) == Ok(map[])
  {
    PagedReachesFailure(fetch, 1, FeedPageSize, FeedBatchOf(bi), j);
  }
}
