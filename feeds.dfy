/** The feed and tracking-link maps the merchant tables show, and the
    pickers that choose one feed, link or label per advertiser (app.py). */
module Feeds {
  import opened Wrappers
  import opened PyValue
  import opened UrlMaps
  import opened Commissions
  import opened Searches

  /** The value is a string that is not blank. */
  predicate NonBlankText(v: Value) {
    v.Str? && Strip(v.s) != ""
  }

  /** The non-blank strings among `vs`, in order, each stripped when
      `strip` holds. */
  function NonBlankTexts(vs: seq<Value>, strip: bool): (us: seq<string>)
    ensures |us| <= |vs|
    decreases |vs|
  {
    if vs == [] then []
    else (if NonBlankText(vs[0]) then [if strip then Strip(vs[0].s) else vs[0].s] else [])
         + NonBlankTexts(vs[1..], strip)
  }

  /** `int(str(v))`; None where Python raises. */
  function ParsedId(v: Value, bi: Builtins): Option<int> {
    bi.parseInt(Show(v, bi))
  }

  // ------------------------------------------------- Impact catalogues

  const ImpactApiHost: string := "https://api.impact.com"

  /** `str(c.get("CampaignId") or "").strip()`. */
  function CatalogCampaign(c: Row, bi: Builtins): string {
    ShowStripped(OrElse(Get(c, "CampaignId"), Str("")), bi)
  }

  /** The API URL built from a non-blank `ItemsUri`. */
  function ItemsUrl(c: Row): (us: seq<string>)
    ensures |us| <= 1
    ensures us != [] ==> ImpactApiHost <= us[0]
  {
    match Get(c, "ItemsUri")
    case Str(s) => if Strip(s) != "" then [ImpactApiHost + Strip(s)] else []
    case _ => []
  }

  /** The stripped non-blank strings of a `Locations` list. */
  function CatalogLocations(c: Row): seq<string> {
    match OrElse(Get(c, "Locations"), List([]))
    case List(items) => NonBlankTexts(items, true)
    case _ => []
  }

  /** A catalogue's URLs: the items URL first, then its locations. */
  function CatalogUrls(c: Row): seq<string> {
    ItemsUrl(c) + CatalogLocations(c)
  }

  /** What one catalogue contributes: nothing without a campaign id, else
      its de-duplicated URLs for its campaign. */
  function CatalogBatch(c: Row, bi: Builtins): (b: seq<Batch<string>>)
    ensures |b| <= 1
  {
    BatchFor(CatalogCampaign(c, bi), CatalogUrls(c))
  }

  /** The batch of a campaign id and the URLs collected for it. */
  function BatchFor(id: string, urls: seq<string>): seq<Batch<string>> {
    if id == "" then [] else [Batch(id, AppendAll([], urls))]
  }

  /** `CatalogBatch` as a function value, for the fold over catalogues. */
  function CatalogBatchOf(bi: Builtins): Row -> seq<Batch<string>> {
    c => CatalogBatch(c, bi)
  }

  /** The campaign-to-feeds map over the catalogues `cs` in order. */
  function CatalogFeeds(cs: seq<Row>, bi: Builtins): map<string, seq<string>> {
    MergeAll(map[], Flatten(cs, CatalogBatchOf(bi)))
  }

  /** `impact_catalog_feeds_by_campaign`: empty when Impact is not
      configured, the paging failure when a page request fails, and
      otherwise the map built over every page's catalogues in order. */
  method ImpactCatalogFeedsByCampaign(configured: bool, fetch: int -> Result<ImpactPage>, bi: Builtins)
    returns (r: Result<map<string, seq<string>>>)
    ensures !configured ==> r == Ok(map[])
    ensures configured && ImpactPaged(fetch, 1).Err? ==> r == Err(ImpactPaged(fetch, 1).error)
    ensures configured && ImpactPaged(fetch, 1).Ok? ==> r == Ok(CatalogFeeds(ImpactPaged(fetch, 1).value, bi))
  {
    if !configured {
      return Ok(map[]);
    }
    var fetched, _ := FetchImpactPages(fetch);
    if fetched.Err? {
      return Err(fetched.error);
    }
    var cs := fetched.value;
    var f := CatalogBatchOf(bi);
    var feeds: map<string, seq<string>> := map[];
    for i := 0 to |cs|
      invariant feeds == MergeAll(map[], Flatten(cs[..i], f))
    {
      FlattenStep(cs, f, i);
      MergeAllConcat(map[], Flatten(cs[..i], f), f(cs[i]));
      feeds := AddCatalog(feeds, cs[i], bi);
    }
    assert cs[..|cs|] == cs;
    return Ok(feeds);
  }

  /** The loop body over one catalogue: collect its URLs, de-duplicate
      them, and merge them into the campaign's list. */
  method AddCatalog(feeds: map<string, seq<string>>, c: Row, bi: Builtins) returns (feeds': map<string, seq<string>>)
    ensures feeds' == MergeAll(feeds, CatalogBatch(c, bi))
  {
    var id := CatalogCampaign(c, bi);
    var urls := CatalogUrls(c);
    assert CatalogBatch(c, bi) == BatchFor(id, urls);
    if id != "" {
      var uniq := AppendMissing([], urls);
      feeds' := MergeInto(feeds, Batch(id, uniq));
    } else {
      feeds' := feeds;
      assert MergeAll(feeds, []) == feeds;
    }
  }

  /** Every campaign's list is non-empty and free of duplicates. */
  lemma CatalogFeedsWellFormed(cs: seq<Row>, bi: Builtins)
    ensures WellFormedUrls(CatalogFeeds(cs, bi))
  {
    MergeAllKeeps(map[], Flatten(cs, CatalogBatchOf(bi)), "");
  }

  /** A URL listed for a campaign is carried by some catalogue of that
      campaign... */
  lemma CatalogFeedsFrom(cs: seq<Row>, bi: Builtins, id: string, u: string)
    requires u in Urls(CatalogFeeds(cs, bi), id)
    ensures exists j :: 0 <= j < |cs| && id != "" && CatalogCampaign(cs[j], bi) == id && u in CatalogUrls(cs[j])
  {
    var f := CatalogBatchOf(bi);
    var bs := Flatten(cs, f);
    MergeAllHolds(map[], bs, id, u);
    var b :| b in bs && b.key == id && u in b.urls;
    FlattenHolds(cs, f, b);
    var j :| 0 <= j < |cs| && b in f(cs[j]);
    CatalogBatchFrom(cs[j], bi, b, u);
  }

  lemma CatalogBatchFrom(c: Row, bi: Builtins, b: Batch<string>, u: string)
    requires b in CatalogBatch(c, bi) && u in b.urls
    ensures b.key == CatalogCampaign(c, bi) != "" && u in CatalogUrls(c)
  {
    AppendAllKeeps([], CatalogUrls(c));
  }

  /** ...and every catalogue's URLs are listed under its campaign. */
  lemma CatalogFeedsHold(cs: seq<Row>, bi: Builtins, j: nat, u: string)
    requires j < |cs| && CatalogCampaign(cs[j], bi) != "" && u in CatalogUrls(cs[j])
    ensures u in Urls(CatalogFeeds(cs, bi), CatalogCampaign(cs[j], bi))
  {
    var f := CatalogBatchOf(bi);
    var b := CatalogBatch(cs[j], bi)[0];
    assert b in f(cs[j]);
    FlattenHolds(cs, f, b);
    AppendAllKeeps([], CatalogUrls(cs[j]));
    MergeAllHolds(map[], Flatten(cs, f), b.key, u);
  }

  /** The items URL comes before the locations: when a catalogue's items
      URL is new to its campaign, it lands right after the URLs the
      campaign already had, ahead of every location the catalogue adds. */
  lemma ItemsUrlFirst(m: map<string, seq<string>>, c: Row, bi: Builtins)
    requires CatalogCampaign(c, bi) != "" && ItemsUrl(c) != []
    requires ItemsUrl(c)[0] !in Urls(m, CatalogCampaign(c, bi))
    ensures var id, m' := CatalogCampaign(c, bi), MergeAll(m, CatalogBatch(c, bi));
      id in m' && Urls(m, id) <= m'[id] && |m'[id]| > |Urls(m, id)| && m'[id][|Urls(m, id)|] == ItemsUrl(c)[0]
  {
    var id := CatalogCampaign(c, bi);
    var us := CatalogUrls(c);
    AppendAllHead([], us);
    MergeAllOne(m, Batch(id, AppendAll([], us)));
    MergeFirstNew(m, id, AppendAll([], us));
  }

  // ------------------------------------------ Addrevenue product feeds

  const AddrevAdvertiserKeys: seq<string> := ["advertiserId", "advertiser_id", "programId", "programmeId", "id"]
  const AddrevFeedUrlKeys: seq<string> := ["feedUrl", "url", "downloadUrl", "downloadURL", "csvUrl", "xmlUrl"]
  const AddrevDownloadKeys: seq<string> := ["csv", "xml", "url"]

  /** A row's feed URLs: the non-blank direct URL fields, else the
      non-blank fields of its `download` object; a `download` value that
      is not an object makes `.get` raise. */
  function AddrevFeedUrls(r: Row, bi: Builtins): Result<seq<string>> {
    var direct := NonBlankTexts(Gets(r, AddrevFeedUrlKeys), false);
    if direct != [] then Ok(direct)
    else match OrElse(Get(r, "download"), Dict(map[]))
      case Dict(f) => Ok(NonBlankTexts(Gets(f, AddrevDownloadKeys), false))
      case v => Err(MethodError(v, "get"))
  }

  /** What one product-feed row contributes: nothing when its advertiser
      id does not parse, else its URLs for that advertiser. */
  function AddrevFeedBatch(r: Row, bi: Builtins): (b: Result<seq<Batch<int>>>)
    ensures b.Ok? ==> |b.value| <= 1
  {
    match ParsedId(OrKeys(r, AddrevAdvertiserKeys), bi)
    case None => Ok([])
    case Some(id) =>
      match AddrevFeedUrls(r, bi)
      case Err(e) => Err(e)
      case Ok(us) => Ok([Batch(id, us)])
  }

  function AddrevFeedBatchOf(bi: Builtins): Row -> Result<seq<Batch<int>>> {
    r => AddrevFeedBatch(r, bi)
  }

  /** The batches of the rows in order; the first raising row fails all. */
  function AddrevFeedBatches(rows: seq<Row>, bi: Builtins): Result<seq<Batch<int>>> {
    FlattenResult(rows, AddrevFeedBatchOf(bi))
  }

  /** `addrev_product_feeds_by_adv`: empty without a channel id; the
      request's failure; else the advertiser-to-feeds map over the rows. */
  method AddrevProductFeedsByAdv(channelId: string, fetched: Result<seq<Row>>, bi: Builtins)
    returns (r: Result<map<int, seq<string>>>)
    ensures channelId == "" ==> r == Ok(map[])
    ensures channelId != "" && fetched.Err? ==> r == Err(fetched.error)
    ensures channelId != "" && fetched.Ok? ==>
              r == match AddrevFeedBatches(fetched.value, bi)
                   case Err(e) => Err(e)
                   case Ok(bs) => Ok(MergeAll(map[], bs))
  {
    if channelId == "" {
      return Ok(map[]);
    }
    if fetched.Err? {
      return Err(fetched.error);
    }
    var rows := fetched.value;
    var f := AddrevFeedBatchOf(bi);
    var feeds: map<int, seq<string>> := map[];
    ghost var bs: seq<Batch<int>> := [];
    for i := 0 to |rows|
      invariant FlattenResult(rows[..i], f) == Ok(bs)
      invariant feeds == MergeAll(map[], bs)
    {
      FlattenResultStep(rows, f, i, bs);
      var step := f(rows[i]);
      if step.Err? {
        FlattenResultErrKeeps(rows, f, i + 1);
        return Err(step.error);
      }
      MergeAllConcat(map[], bs, step.value);
      feeds := MergeBatch(feeds, step.value);
      bs := bs + step.value;
    }
    assert rows[..|rows|] == rows;
    return Ok(feeds);
  }

  /** Merging the at most one batch a product-feed row yields. */
  method MergeBatch(feeds: map<int, seq<string>>, b: seq<Batch<int>>) returns (feeds': map<int, seq<string>>)
    requires |b| <= 1
    ensures feeds' == MergeAll(feeds, b)
  {
    feeds' := feeds;
    if b != [] {
      assert b == [b[0]];
      feeds' := MergeInto(feeds, b[0]);
    }
  }

  /** The advertiser-to-feeds map is well formed: no empty list, no URL
      twice. */
  lemma AddrevFeedsWellFormed(bs: seq<Batch<int>>)
    ensures WellFormedUrls(MergeAll(map[], bs))
  {
    MergeAllKeeps(map[], bs, 0);
  }

  // ----------------------------------------- Addrevenue tracking links

  const TrackingAdvertiserKeys: seq<string> := ["advertiserId", "advertiser_id", "id"]
  const TrackingLinkKeys: seq<string> := ["trackingLink", "tracking_url", "url"]

  /** The stripped link of a campaign row, when it is non-blank text. */
  function CampaignLink(c: Row): (l: Option<string>)
    ensures l.Some? ==> l.value != ""
  {
    match OrKeys(c, TrackingLinkKeys)
    case Str(s) => if Strip(s) != "" then Some(Strip(s)) else None
    case _ => None
  }

  /** What one campaign row offers the link map: its advertiser and link,
      when the id parses and the link is non-blank text. */
  function TrackingEntry(c: Row, bi: Builtins): (e: Option<(int, string)>)
    ensures e.Some? ==> e.value.1 != ""
  {
    match ParsedId(OrKeys(c, TrackingAdvertiserKeys), bi)
    case None => None
    case Some(a) =>
      match CampaignLink(c)
      case None => None
      case Some(l) => Some((a, l))
  }

  function TrackingEntryOf(bi: Builtins): Row -> Option<(int, string)> {
    c => TrackingEntry(c, bi)
  }

  /** `link_map.setdefault(adv_id, link)` over the campaign rows. */
  function TrackingLinks(cs: seq<Row>, bi: Builtins): map<int, string> {
    SetDefaults(cs, TrackingEntryOf(bi))
  }

  /** `addrev_campaign_tracking_by_adv`: empty without a channel id; the
      request's failure; else the first link per advertiser. */
  method AddrevCampaignTrackingByAdv(channelId: string, fetched: Result<seq<Row>>, bi: Builtins)
    returns (r: Result<map<int, string>>)
    ensures channelId == "" ==> r == Ok(map[])
    ensures channelId != "" && fetched.Err? ==> r == Err(fetched.error)
    ensures channelId != "" && fetched.Ok? ==> r == Ok(TrackingLinks(fetched.value, bi))
  {
    if channelId == "" {
      return Ok(map[]);
    }
    if fetched.Err? {
      return Err(fetched.error);
    }
    var cs := fetched.value;
    var f := TrackingEntryOf(bi);
    var links: map<int, string> := map[];
    for i := 0 to |cs|
      invariant links == SetDefaults(cs[..i], f)
    {
      SetDefaultsStep(cs, f, i);
      var e := f(cs[i]);
      if e.Some? && e.value.0 !in links {
        links := links[e.value.0 := e.value.1];
      }
    }
    assert cs[..|cs|] == cs;
    return Ok(links);
  }

  /** An advertiser has a link exactly when some campaign row gives one. */
  lemma TrackingLinkPresent(cs: seq<Row>, bi: Builtins, a: int)
    ensures a in TrackingLinks(cs, bi) <==>
              exists j :: 0 <= j < |cs| && TrackingEntry(cs[j], bi).Some? && TrackingEntry(cs[j], bi).value.0 == a
  {
    SetDefaultsKeys(cs, TrackingEntryOf(bi), a);
  }

  /** The first campaign row with a link for an advertiser gives its link;
      later rows never replace it. */
  lemma TrackingFirstWins(cs: seq<Row>, bi: Builtins, a: int, j: nat)
    requires j < |cs| && TrackingEntry(cs[j], bi).Some? && TrackingEntry(cs[j], bi).value.0 == a
    requires forall i :: 0 <= i < j ==> !(TrackingEntry(cs[i], bi).Some? && TrackingEntry(cs[i], bi).value.0 == a)
    ensures a in TrackingLinks(cs, bi) && TrackingLinks(cs, bi)[a] == CampaignLink(cs[j]).value
  {
    var f := TrackingEntryOf(bi);
    assert forall i :: 0 <= i < j ==> !HasEntry(cs[i], f, a);
    SetDefaultsFirstWins(cs, f, a, j);
  }

  // ------------------------------------------------ Addrevenue pickers

  /** `(r.get("url") or "").strip()`; a URL that is not text makes
      `.strip` raise. */
  function UrlText(r: Row): Result<string> {
    match OrElse(Get(r, "url"), Str(""))
    case Str(s) => Ok(Strip(s))
    case v => Err(MethodError(v, "strip"))
  }

  /** `str(r.get("country") or "").strip().upper()`. */
  function RowCountry(r: Row, bi: Builtins): string {
    Upper(ShowStripped(OrElse(Get(r, "country"), Str("")), bi))
  }

  /** The test a feed row passes when it is for country `cc`. */
  function CountryIs(cc: string, bi: Builtins): Row -> bool {
    r => RowCountry(r, bi) == cc
  }

  /** `addrev_pick_feed_url`: the first non-empty URL among the
      advertiser's feeds in the requested country, else among all of them,
      else "". */
  function AddrevPickFeedUrl(feedsByAdv: map<int, seq<Row>>, adv: int, country: string, bi: Builtins): (r: Result<string>)
    ensures var rows := if adv in feedsByAdv then feedsByAdv[adv] else [];
      rows == [] ==> r == Ok("")
    ensures var rows := if adv in feedsByAdv then feedsByAdv[adv] else [];
      r.Err? ==> exists j :: 0 <= j < |rows| && UrlText(rows[j]) == r
  {
    var rows := if adv in feedsByAdv then feedsByAdv[adv] else [];
    var cands := Filter(rows, CountryIs(Upper(Strip(country)), bi));
    if rows == [] then Ok("")
    else if country != "" && cands != [] then
      match FirstText(cands, UrlText)
      case Err(e) =>
        CandidateUrlRaises(rows, cands, Upper(Strip(country)), bi);
        Err(e)
      case Ok(u) => if u != "" then Ok(u) else FirstUrl(rows)
    else FirstUrl(rows)
  }

  /** A raise among the candidates is a raise of one of the rows. */
  lemma CandidateUrlRaises(rows: seq<Row>, cands: seq<Row>, cc: string, bi: Builtins)
    requires cands == Filter(rows, CountryIs(cc, bi)) && FirstText(cands, UrlText).Err?
    ensures exists j :: 0 <= j < |rows| && UrlText(rows[j]) == FirstText(cands, UrlText)
  {
    FirstTextErr(cands, UrlText);
    var j :| 0 <= j < |cands| && UrlText(cands[j]) == FirstText(cands, UrlText);
    FilteredFrom(rows, CountryIs(cc, bi), cands[j]);
  }

  /** The first non-empty URL of the rows; it raises on a row whose
      `url` is set but not text. */
  function FirstUrl(rows: seq<Row>): (r: Result<string>)
    ensures r == FirstText(rows, UrlText)
    ensures r.Err? ==> exists j :: 0 <= j < |rows| && UrlText(rows[j]) == r
  {
    match FirstText(rows, UrlText)
    case Err(e) =>
      FirstTextErr(rows, UrlText);
      Err(e)
    case Ok(u) => Ok(u)
  }

  /** The picker returns "" exactly when none of the advertiser's feeds
      has a URL. */
  lemma PickFeedUrlEmpty(feedsByAdv: map<int, seq<Row>>, adv: int, country: string, bi: Builtins)
    ensures var rows := if adv in feedsByAdv then feedsByAdv[adv] else [];
      AddrevPickFeedUrl(feedsByAdv, adv, country, bi) == Ok("") <==> forall j :: 0 <= j < |rows| ==> UrlText(rows[j]) == Ok("")
  {
    var rows := if adv in feedsByAdv then feedsByAdv[adv] else [];
    var cands := Filter(rows, CountryIs(Upper(Strip(country)), bi));
    FirstTextEmpty(rows, UrlText);
    if cands != [] && FirstText(cands, UrlText).Ok? && FirstText(cands, UrlText).value != "" {
      FirstTextFrom(cands, UrlText);
      var j :| 0 <= j < |cands| && UrlText(cands[j]) == FirstText(cands, UrlText);
      FilteredFrom(rows, CountryIs(Upper(Strip(country)), bi), cands[j]);
    }
    if cands != [] && FirstText(cands, UrlText).Err? {
      FirstTextErr(cands, UrlText);
      var j :| 0 <= j < |cands| && UrlText(cands[j]).Err?;
      FilteredFrom(rows, CountryIs(Upper(Strip(country)), bi), cands[j]);
    }
  }

  /** Whatever URL the picker returns is the URL of one of the
      advertiser's feeds. */
  lemma PickFeedUrlFromFeeds(feedsByAdv: map<int, seq<Row>>, adv: int, country: string, bi: Builtins)
    ensures var rows := if adv in feedsByAdv then feedsByAdv[adv] else [];
      var r := AddrevPickFeedUrl(feedsByAdv, adv, country, bi);
      r.Ok? && r.value != "" ==> exists j :: 0 <= j < |rows| && UrlText(rows[j]) == r
  {
    var rows := if adv in feedsByAdv then feedsByAdv[adv] else [];
    var cands := Filter(rows, CountryIs(Upper(Strip(country)), bi));
    var r := AddrevPickFeedUrl(feedsByAdv, adv, country, bi);
    if r.Ok? && r.value != "" {
      if r == FirstText(rows, UrlText) {
        FirstTextFrom(rows, UrlText);
      } else {
        assert r == FirstText(cands, UrlText);
        FirstTextFrom(cands, UrlText);
        var j :| 0 <= j < |cands| && UrlText(cands[j]) == r;
        FilteredFrom(rows, CountryIs(Upper(Strip(country)), bi), cands[j]);
      }
    }
  }

  /** The country preference: when a feed in the requested country has a
      URL and the country's earlier feeds have none, that URL is picked. */
  lemma PickFeedUrlPrefersCountry(feedsByAdv: map<int, seq<Row>>, adv: int, country: string, bi: Builtins, k: nat)
    requires adv in feedsByAdv && country != ""
    requires k < |feedsByAdv[adv]| && RowCountry(feedsByAdv[adv][k], bi) == Upper(Strip(country))
    requires UrlText(feedsByAdv[adv][k]).Ok? && UrlText(feedsByAdv[adv][k]).value != ""
    requires forall i :: 0 <= i < k && RowCountry(feedsByAdv[adv][i], bi) == Upper(Strip(country)) ==>
               UrlText(feedsByAdv[adv][i]) == Ok("")
    ensures AddrevPickFeedUrl(feedsByAdv, adv, country, bi) == UrlText(feedsByAdv[adv][k])
  {
    var rows := feedsByAdv[adv];
    var keep := CountryIs(Upper(Strip(country)), bi);
    FirstTextFiltered(rows, keep, UrlText, k);
    assert rows[k] in Filter(rows, keep);
  }

  /** Without a feed in the requested country, the advertiser's first feed
      with a URL gives it. */
  lemma PickFeedUrlFallsBack(feedsByAdv: map<int, seq<Row>>, adv: int, country: string, bi: Builtins, k: nat)
    requires adv in feedsByAdv
    requires forall i :: 0 <= i < |feedsByAdv[adv]| ==> RowCountry(feedsByAdv[adv][i], bi) != Upper(Strip(country))
    requires k < |feedsByAdv[adv]| && UrlText(feedsByAdv[adv][k]).Ok? && UrlText(feedsByAdv[adv][k]).value != ""
    requires forall i :: 0 <= i < k ==> UrlText(feedsByAdv[adv][i]) == Ok("")
    ensures AddrevPickFeedUrl(feedsByAdv, adv, country, bi) == UrlText(feedsByAdv[adv][k])
  {
    var rows := feedsByAdv[adv];
    var keep := CountryIs(Upper(Strip(country)), bi);
    forall i | 0 <= i < |rows|
      ensures !keep(rows[i])
    {
    }
    FilterNone(rows, keep);
    FirstTextAt(rows, UrlText, k);
  }

  const TrackingUrlKeys: seq<string> := ["trackingUrl", "clickUrl", "deeplink", "defaultDeeplink", "link", "url"]

  /** The value is set and its text, stripped and lower-cased, starts with
      `http://` or `https://`. */
  predicate IsHttpLink(v: Value, bi: Builtins) {
    Truthy(v) && HttpText(Lower(ShowStripped(v, bi)))
  }

  /** The text starts with `http://` or `https://`. */
  predicate HttpText(t: string) {
    StartsWith(t, "http://") || StartsWith(t, "https://")
  }

  /** The stripped text of the first key's value that is an http link. */
  function FirstHttpLink(p: Row, keys: seq<string>, bi: Builtins): (l: string)
    ensures l == "" || HttpText(Lower(l))
    ensures l != "" ==> exists k :: k in keys && IsHttpLink(Get(p, k), bi) && l == ShowStripped(Get(p, k), bi)
    decreases |keys|
  {
    if keys == [] then ""
    else if IsHttpLink(Get(p, keys[0]), bi) then ShowStripped(Get(p, keys[0]), bi)
    else FirstHttpLink(p, keys[1..], bi)
  }

  /** `addrev_pick_tracking_link`. */
  function AddrevPickTrackingLink(p: Row, bi: Builtins): (l: string)
    ensures l == "" || HttpText(Lower(l))
    ensures l != "" ==> exists k :: k in TrackingUrlKeys && IsHttpLink(Get(p, k), bi) && l == ShowStripped(Get(p, k), bi)
  {
    FirstHttpLink(p, TrackingUrlKeys, bi)
  }

  /** No link is picked when no field holds an http(s) link... */
  lemma {:induction false} FirstHttpLinkNone(p: Row, keys: seq<string>, bi: Builtins)
    requires forall k :: 0 <= k < |keys| ==> !IsHttpLink(Get(p, keys[k]), bi)
    ensures FirstHttpLink(p, keys, bi) == ""
    decreases |keys|
  {
    if keys != [] {
      assert forall k :: 1 <= k < |keys| ==> keys[k] == keys[1..][k - 1];
      FirstHttpLinkNone(p, keys[1..], bi);
    }
  }

  /** ...and one is picked whenever some field holds one. */
  lemma {:induction false} FirstHttpLinkFound(p: Row, keys: seq<string>, bi: Builtins, k: nat)
    requires k < |keys| && IsHttpLink(Get(p, keys[k]), bi)
    ensures FirstHttpLink(p, keys, bi) != ""
    decreases k
  {
    if IsHttpLink(Get(p, keys[0]), bi) {
      HttpLinkNotEmpty(Get(p, keys[0]), bi);
    } else {
      assert keys[1..][k - 1] == keys[k];
      FirstHttpLinkFound(p, keys[1..], bi, k - 1);
    }
  }

  lemma HttpLinkNotEmpty(v: Value, bi: Builtins)
    requires IsHttpLink(v, bi)
    ensures ShowStripped(v, bi) != ""
  {
    var t := ShowStripped(v, bi);
    assert |Lower(t)| == |t| && |Lower(t)| >= 7;
  }

  /** The picked link is the first field, in the fixed key order, holding
      an http(s) link. */
  lemma {:induction false} FirstHttpLinkIsFirst(p: Row, keys: seq<string>, bi: Builtins, k: nat)
    requires k < |keys| && IsHttpLink(Get(p, keys[k]), bi)
    requires forall i :: 0 <= i < k ==> !IsHttpLink(Get(p, keys[i]), bi)
    ensures FirstHttpLink(p, keys, bi) == ShowStripped(Get(p, keys[k]), bi)
    decreases k
  {
    if k > 0 {
      assert !IsHttpLink(Get(p, keys[0]), bi);
      assert forall i :: 0 <= i < k - 1 ==> keys[1..][i] == keys[i + 1];
      FirstHttpLinkIsFirst(p, keys[1..], bi, k - 1);
    }
  }

  // ------------------------------------------------------- AWIN feeds

  /** A row of the AWIN feed list after loading: the parsed advertiser id
      (None when it did not parse), the upper-cased primary region, and the
      remaining columns. */
  datatype FeedRow = FeedRow(advId: Option<int>, region: string, fields: Row)

  /** The test a feed row passes when it is advertiser `adv`'s. */
  function AdvertiserIs(adv: int): FeedRow -> bool {
    (r: FeedRow) => r.advId == Some(adv)
  }

  /** The test a feed row passes when its region is `cc`. */
  function RegionIs(cc: string): FeedRow -> bool {
    (r: FeedRow) => Upper(r.region) == cc
  }

  /** `find_best_feed_for_adv`: the advertiser's first feed in the
      requested country, else its first feed, else none. */
  function FindBestFeedForAdv(rows: seq<FeedRow>, adv: int, country: string): (r: Option<FeedRow>)
    ensures r.Some? ==> r.value in rows && r.value.advId == Some(adv)
  {
    var cand := Filter(rows, AdvertiserIs(adv));
    if cand == [] then None
    else
      var prefer := Filter(cand, RegionIs(Upper(Strip(country))));
      if prefer != [] then Some(prefer[0]) else Some(cand[0])
  }

  /** Nothing is picked exactly when the advertiser has no feed; whenever
      one of its feeds is in the requested region, so is the pick. */
  lemma FindBestFeedPrefersRegion(rows: seq<FeedRow>, adv: int, country: string)
    ensures FindBestFeedForAdv(rows, adv, country).None? <==> forall j :: 0 <= j < |rows| ==> rows[j].advId != Some(adv)
    ensures forall j :: 0 <= j < |rows| && rows[j].advId == Some(adv) && Upper(rows[j].region) == Upper(Strip(country)) ==>
              Upper(FindBestFeedForAdv(rows, adv, country).value.region) == Upper(Strip(country))
  {
    var cand := Filter(rows, AdvertiserIs(adv));
    var cc := Upper(Strip(country));
    forall j | 0 <= j < |rows| && rows[j].advId == Some(adv)
      ensures cand != []
      ensures Upper(rows[j].region) == cc ==> Filter(cand, RegionIs(cc)) != []
    {
      assert rows[j] in cand;
      if Upper(rows[j].region) == cc {
        assert rows[j] in Filter(cand, RegionIs(cc));
      }
    }
    if cand != [] {
      FilteredFrom(rows, AdvertiserIs(adv), cand[0]);
      var prefer := Filter(cand, RegionIs(cc));
      if prefer != [] {
        assert prefer[0] in prefer;
      }
    }
  }

  /** The advertiser's first feed in the requested region is the pick. */
  lemma FindBestFeedFirstInRegion(rows: seq<FeedRow>, adv: int, country: string, j: nat)
    requires j < |rows| && rows[j].advId == Some(adv) && Upper(rows[j].region) == Upper(Strip(country))
    requires forall i :: 0 <= i < j ==> !(rows[i].advId == Some(adv) && Upper(rows[i].region) == Upper(Strip(country)))
    ensures FindBestFeedForAdv(rows, adv, country) == Some(rows[j])
  {
    var cc := Upper(Strip(country));
    FilterTwiceFirst(rows, AdvertiserIs(adv), RegionIs(cc), j);
  }

  /** Without a feed in the requested region the advertiser's first feed
      is picked. */
  lemma FindBestFeedFallsBack(rows: seq<FeedRow>, adv: int, country: string, j: nat)
    requires j < |rows| && rows[j].advId == Some(adv)
    requires forall i :: 0 <= i < j ==> rows[i].advId != Some(adv)
    requires forall i :: 0 <= i < |rows| && rows[i].advId == Some(adv) ==> Upper(rows[i].region) != Upper(Strip(country))
    ensures FindBestFeedForAdv(rows, adv, country) == Some(rows[j])
  {
    var cand := Filter(rows, AdvertiserIs(adv));
    var cc := Upper(Strip(country));
    FilterFirst(rows, AdvertiserIs(adv), j);
    if Filter(cand, RegionIs(cc)) != [] {
      var x := Filter(cand, RegionIs(cc))[0];
      assert x in Filter(cand, RegionIs(cc));
      FilteredFrom(rows, AdvertiserIs(adv), x);
    }
  }

  // ---------------------------------------------- relationship label

  const RelationshipKeys: seq<string> :=
    ["relationship", "relationshipStatus", "partnershipStatus", "memberStatus",
     "membershipStatus", "relationStatus", "relation", "joinStatus"]

  /** The key's value is set and its stripped text is not empty. */
  predicate HasLabel(p: Row, k: string, bi: Builtins) {
    Get(p, k) != Null && |ShowStripped(Get(p, k), bi)| > 0
  }

  /** The label a key gives: the stripped text of its value, "" when the
      value is None. */
  function LabelOf(p: Row, bi: Builtins): string -> Result<string> {
    k => Ok(if Get(p, k) != Null then ShowStripped(Get(p, k), bi) else "")
  }

  /** The stripped text of the first key with a label, else "None". */
  function FirstLabel(p: Row, keys: seq<string>, bi: Builtins): (s: string)
    ensures |s| > 0
    ensures s != "None" ==> exists k :: k in keys && HasLabel(p, k, bi) && s == ShowStripped(Get(p, k), bi)
  {
    var found := FirstText(keys, LabelOf(p, bi));
    if found.Ok? && found.value != "" then
      FirstTextFrom(keys, LabelOf(p, bi));
      found.value
    else "None"
  }

  /** `_relationship_str`. */
  function RelationshipStr(p: Row, bi: Builtins): (s: string)
    ensures |s| > 0
    ensures s != "None" ==> exists k :: k in RelationshipKeys && HasLabel(p, k, bi) && s == ShowStripped(Get(p, k), bi)
  {
    FirstLabel(p, RelationshipKeys, bi)
  }

  /** The label is "None" when no key's value is set and not blank. */
  lemma FirstLabelNone(p: Row, keys: seq<string>, bi: Builtins)
    requires forall k :: 0 <= k < |keys| ==> !HasLabel(p, keys[k], bi)
    ensures FirstLabel(p, keys, bi) == "None"
  {
    var text := LabelOf(p, bi);
    forall k | 0 <= k < |keys|
      ensures text(keys[k]) == Ok("")
    {
      assert !HasLabel(p, keys[k], bi);
    }
    FirstTextEmpty(keys, text);
  }

  /** The label is the stripped text of the first key whose value is set
      and not blank. */
  lemma FirstLabelIsFirst(p: Row, keys: seq<string>, bi: Builtins, k: nat)
    requires k < |keys| && HasLabel(p, keys[k], bi)
    requires forall i :: 0 <= i < k ==> !HasLabel(p, keys[i], bi)
    ensures FirstLabel(p, keys, bi) == ShowStripped(Get(p, keys[k]), bi)
  {
    var text := LabelOf(p, bi);
    forall i | 0 <= i < k
      ensures text(keys[i]) == Ok("")
    {
      assert !HasLabel(p, keys[i], bi);
    }
    FirstTextAt(keys, text, k);
  }

}
