/** The Impact market policy: whether a campaign is shown for the selected
    country, judged on the regions it ships to, its primary region and its
    currency (app.py:706-802). */
module Market {
  import opened Wrappers
  import opened PyValue

  /** `str(x).strip().upper().replace(" ", "")` on text. */
  function Norm(s: string): (t: string)
    ensures ' ' !in t
  {
    RemoveChar(Upper(Strip(s)), ' ')
  }

  /** `COUNTRY_ALIASES.get(cc, [])`: how Impact may spell each market's
      regions; none for a market the table lacks. */
  function Aliases(cc: string): seq<string> {
    match cc
    case "IT" => ["IT", "ITALY"]
    case "SE" => ["SE", "SWEDEN"]
    case "DK" => ["DK", "DENMARK"]
    case "NO" => ["NO", "NORWAY"]
    case "FI" => ["FI", "FINLAND"]
    case "DE" => ["DE", "GERMANY"]
    case "FR" => ["FR", "FRANCE"]
    case "ES" => ["ES", "SPAIN"]
    case "NL" => ["NL", "NETHERLANDS"]
    case "BE" => ["BE", "BELGIUM"]
    case "PL" => ["PL", "POLAND"]
    case "UK" => ["UK", "UNITEDKINGDOM", "GB"]
    case "GB" => ["GB", "UNITEDKINGDOM", "UK"]
    case "US" => ["US", "USA", "UNITEDSTATES"]
    case _ => []
  }

  /** `CURRENCY_BY_CC.get(cc)`: the currencies expected of a market's
      campaigns; none when it has no mapping. */
  function ExpectedCurrencies(cc: string): seq<string> {
    match cc
    case "IT" => ["EUR"]
    case "SE" => ["SEK"]
    case "DK" => ["DKK"]
    case "NO" => ["NOK"]
    case "FI" => ["EUR"]
    case "DE" => ["EUR"]
    case "FR" => ["EUR"]
    case "ES" => ["EUR"]
    case "NL" => ["EUR"]
    case "BE" => ["EUR"]
    case "PL" => ["PLN"]
    case "UK" => ["GBP"]
    case "GB" => ["GBP"]
    case "US" => ["USD"]
    case _ => []
  }

  /** The selected market: `(country_code or "").strip().upper()`,
      computed once by the page and captured by the policy. */
  function MarketCode(country: string): (cc: string)
    ensures NoLowerCase(cc)
    ensures cc == [] || (!IsSpace(cc[0]) && !IsSpace(cc[|cc| - 1]))
  {
    UpperIsUpper(Strip(country));
    Upper(Strip(country))
  }

  /** The regions the policy iterates: a string stands for itself, an
      object for its `ShippingRegion` or `Region` entry, a list for its
      items; a number or `True` is not iterable and raises. */
  function Regions(c: Row): Result<seq<Value>> {
    RegionsOf(OrElse(Get(c, "ShippingRegions"), List([])))
  }

  /** The regions of a `ShippingRegions` value. */
  function RegionsOf(v: Value): Result<seq<Value>> {
    match v
    case Str(s) => Ok([Str(s)])
    case Dict(f) =>
      var maybe := OrElse(Get(f, "ShippingRegion"), OrElse(Get(f, "Region"), List([])));
      if maybe.List? then Ok(maybe.items) else Ok([maybe])
    case List(items) => Ok(items)
    case _ => Err(NotIterableError(v))
  }

  /** The normalised spelling of every region that is not None. */
  function RegionsNorm(regions: seq<Value>, bi: Builtins): set<string> {
    set i | 0 <= i < |regions| && regions[i] != Null :: Norm(Show(regions[i], bi))
  }

  /** The market code and its aliases, normalised. */
  function Wanted(cc: string): set<string> {
    NormSet([cc] + Aliases(cc))
  }

  /** The normalised spellings of a list of names. */
  function NormSet(ws: seq<string>): set<string> {
    set w | w in ws :: Norm(w)
  }

  /** Lists with the same names have the same normalised spellings. */
  lemma NormSetSame(a: seq<string>, b: seq<string>)
    requires forall w :: w in a <==> w in b
    ensures NormSet(a) == NormSet(b)
  {
  }

  /** The first set of the four primary-region spellings. */
  function PrimaryRegion(c: Row): Value {
    OrElse(Get(c, "PrimaryRegion"), OrElse(Get(c, "Primary Region"),
      OrElse(Get(c, "primaryRegion"), Get(c, "primary_region"))))
  }

  /** The normalised primary region, "" when there is none. */
  function PrimaryNorm(c: Row, bi: Builtins): string {
    if Truthy(PrimaryRegion(c)) then Norm(Show(PrimaryRegion(c), bi)) else ""
  }

  /** `str(c.get("Currency") or "").upper().strip()`. */
  function CampaignCurrency(c: Row, bi: Builtins): string {
    Strip(Upper(Show(OrElse(Get(c, "Currency"), Str("")), bi)))
  }

  /** The policy once the market is known: a campaign that does not ship
      there is rejected; otherwise its primary region decides when it has
      one, and else its currency, when the market expects any. */
  function Decide(ships: bool, primary: string, wanted: set<string>, currency: string, allowed: seq<string>): bool {
    if !ships then false
    else if primary != "" then primary in wanted
    else allowed == [] || currency in allowed
  }

  /** The policy's body for a market whose wanted spellings and expected
      currencies are given. */
  function Policy(c: Row, wanted: set<string>, allowed: seq<string>, bi: Builtins): Result<bool> {
    match Regions(c)
    case Err(e) => Err(e)
    case Ok(regions) =>
      Ok(Decide(RegionsNorm(regions, bi) * wanted != {}, PrimaryNorm(c, bi), wanted,
                CampaignCurrency(c, bi), allowed))
  }

  /** `campaign_matches_market`: every campaign when no market is
      selected; otherwise the policy over the campaign's regions, primary
      region and currency. */
  function CampaignMatchesMarket(c: Row, cc: string, bi: Builtins): (r: Result<bool>)
    ensures cc == "" ==> r == Ok(true)
    ensures r.Err? ==> cc != "" && Regions(c).Err?
    ensures cc != "" && r == Ok(true) ==> Regions(c).Ok? && RegionsNorm(Regions(c).value, bi) * Wanted(cc) != {}
    ensures cc != "" && r == Ok(true) && PrimaryNorm(c, bi) != "" ==> PrimaryNorm(c, bi) in Wanted(cc)
  {
    if cc == "" then Ok(true) else Policy(c, Wanted(cc), ExpectedCurrencies(cc), bi)
  }

  /** Without a market every campaign is shown, whatever its data. */
  lemma NoMarketShowsAll(c: Row, country: string, bi: Builtins)
    requires MarketCode(country) == ""
    ensures CampaignMatchesMarket(c, MarketCode(country), bi) == Ok(true)
  {
  }

  /** A shown campaign ships to the market: one of its regions is the
      market or an alias of it. */
  lemma ShownShipsThere(c: Row, cc: string, bi: Builtins)
    requires cc != "" && CampaignMatchesMarket(c, cc, bi) == Ok(true)
    ensures Regions(c).Ok?
    ensures exists i :: 0 <= i < |Regions(c).value| && Regions(c).value[i] != Null &&
                        Norm(Show(Regions(c).value[i], bi)) in Wanted(cc)
  {
    var regions := Regions(c).value;
    var w :| w in RegionsNorm(regions, bi) * Wanted(cc);
    var i :| 0 <= i < |regions| && regions[i] != Null && Norm(Show(regions[i], bi)) == w;
  }

  /** A campaign with no shipping regions is never shown for a market. */
  lemma NoRegionsHidden(c: Row, cc: string, bi: Builtins)
    requires cc != "" && !Truthy(Get(c, "ShippingRegions"))
    ensures CampaignMatchesMarket(c, cc, bi) == Ok(false)
  {
    assert Regions(c) == Ok([]);
    assert RegionsNorm([], bi) == {};
  }

  /** A shipping campaign with a primary region is shown exactly when
      that region names the market, whatever its currency. */
  lemma PrimaryRegionDecides(c: Row, cc: string, bi: Builtins)
    requires cc != "" && Regions(c).Ok?
    requires RegionsNorm(Regions(c).value, bi) * Wanted(cc) != {}
    requires PrimaryNorm(c, bi) != ""
    ensures CampaignMatchesMarket(c, cc, bi) == Ok(PrimaryNorm(c, bi) in Wanted(cc))
  {
  }

  /** Changing the currency of a campaign with a primary region changes
      nothing. */
  lemma PrimaryRegionOverridesCurrency(c: Row, cc: string, bi: Builtins, v: Value)
    requires PrimaryNorm(c, bi) != ""
    ensures CampaignMatchesMarket(c["Currency" := v], cc, bi) == CampaignMatchesMarket(c, cc, bi)
  {
    if cc != "" {
      PolicyIgnoresCurrency(c, Wanted(cc), ExpectedCurrencies(cc), bi, v);
    }
  }

  /** The policy body never looks at the currency of a campaign with a
      primary region. */
  lemma PolicyIgnoresCurrency(c: Row, wanted: set<string>, allowed: seq<string>, bi: Builtins, v: Value)
    requires PrimaryNorm(c, bi) != ""
    ensures Policy(c["Currency" := v], wanted, allowed, bi) == Policy(c, wanted, allowed, bi)
  {
    var c' := c["Currency" := v];
    assert Get(c', "ShippingRegions") == Get(c, "ShippingRegions");
    assert Regions(c') == Regions(c);
    assert PrimaryRegion(c') == PrimaryRegion(c);
  }

  /** Missing data is accepted: a shipping campaign without a primary
      region is shown for a market that has no expected currency. */
  lemma UnmappedMarketAccepts(c: Row, cc: string, bi: Builtins)
    requires cc != "" && ExpectedCurrencies(cc) == []
    requires Regions(c).Ok? && RegionsNorm(Regions(c).value, bi) * Wanted(cc) != {}
    requires !Truthy(PrimaryRegion(c))
    ensures CampaignMatchesMarket(c, cc, bi) == Ok(true)
  {
  }

  /** Without a primary region, a shipping campaign for a mapped market is
      shown exactly when its currency is one the market expects. */
  lemma CurrencyDecides(c: Row, cc: string, bi: Builtins)
    requires cc != "" && ExpectedCurrencies(cc) != []
    requires Regions(c).Ok? && RegionsNorm(Regions(c).value, bi) * Wanted(cc) != {}
    requires !Truthy(PrimaryRegion(c))
    ensures CampaignMatchesMarket(c, cc, bi) == Ok(CampaignCurrency(c, bi) in ExpectedCurrencies(cc))
  {
  }

  /** "UK" and "GB" name the same regions and expect the same currency. */
  lemma UkGbTables()
    ensures Wanted("UK") == Wanted("GB")
    ensures ExpectedCurrencies("UK") == ExpectedCurrencies("GB") == ["GBP"]
  {
    var uk := ["UK"] + Aliases("UK");
    var gb := ["GB"] + Aliases("GB");
    assert uk == ["UK", "UK", "UNITEDKINGDOM", "GB"];
    assert gb == ["GB", "GB", "UNITEDKINGDOM", "UK"];
    NormSetSame(uk, gb);
  }

  /** "UK" and "GB" are one market: every campaign gets the same answer. */
  lemma UkIsGb(c: Row, bi: Builtins)
    ensures CampaignMatchesMarket(c, "UK", bi) == CampaignMatchesMarket(c, "GB", bi)
  {
    UkGbTables();
  }

  /** Whitespace around the selected country does not change the market. */
  lemma MarketCodePadded(pre: string, country: string, post: string)
    requires forall k :: 0 <= k < |pre| ==> IsSpace(pre[k])
    requires forall k :: 0 <= k < |post| ==> IsSpace(post[k])
    ensures MarketCode(pre + country + post) == MarketCode(country)
  {
    StripPadded(pre, country, post);
  }

  /** Nor does its case. */
  lemma MarketCodeIgnoresCase(country: string)
    ensures MarketCode(Lower(country)) == MarketCode(country)
    ensures MarketCode(Upper(country)) == MarketCode(country)
  {
    StripLower(country);
    UpperOfLower(Strip(country));
    StripLower(Upper(country));
    UpperOfLower(Strip(Upper(country)));
    LowerOfUpper(country);
  }

  /** A market code selects itself. */
  lemma MarketCodeIdempotent(country: string)
    ensures MarketCode(MarketCode(country)) == MarketCode(country)
  {
    var cc := MarketCode(country);
    StripStripped(cc);
    UpperTwice(Strip(country));
  }
}
