/**
 * The two stored entities of the market data application: one week of market
 * observations, and an external data source that is fetched periodically.
 * Properties of the records are total functions over their fields.
 */
module MarketModels {
  import opened Wrappers

  /** One week of market observations. `week` and `year` are positive-integer
      columns, so they are never negative; decimals are modelled as reals. */
  datatype MarketData = MarketData(
    week: nat,
    year: nat,
    month: string,
    rainfall: real,
    temperature: real,
    marketDay: bool,
    schoolOpen: bool,
    diseaseAlert: string,
    lastWeekDemand: string,
    marketDemand: string,
    source: string)

  /** The pair the table is unique on. */
  datatype Key = Key(year: nat, week: nat)

  function KeyOf(d: MarketData): Key {
    Key(d.year, d.week)
  }

  /** The default ordering of the table: later year first, then later week. */
  predicate Newer(a: Key, b: Key) {
    a.year > b.year || (a.year == b.year && a.week > b.week)
  }

  /** Strictly newest first: what a listing of the table turns out to be. */
  predicate NewestFirst(rs: seq<MarketData>) {
    forall i, j :: 0 <= i < j < |rs| ==> Newer(KeyOf(rs[i]), KeyOf(rs[j]))
  }

  /** `MarketData.objects.all()` in the default ordering of a table keyed by
      `(year, week)`: each stored record once, each under its own key, and
      none of them after a newer one. Ties are not excluded here. */
  predicate ListingOf(rs: seq<MarketData>, table: map<Key, MarketData>) {
    && (forall i :: 0 <= i < |rs| ==> KeyOf(rs[i]) in table && table[KeyOf(rs[i])] == rs[i])
    && (forall k :: k in table ==> table[k] in rs)
    && (forall i, j :: 0 <= i < j < |rs| ==> rs[i] != rs[j])
    && (forall i, j :: 0 <= i < j < |rs| ==> !Newer(KeyOf(rs[j]), KeyOf(rs[i])))
  }

  /** Because the table holds one record per `(year, week)`, its listing never
      shows a key twice, and so the default ordering is strict: the listing
      is newest first. */
  lemma ListingNewestFirst(rs: seq<MarketData>, table: map<Key, MarketData>)
    requires ListingOf(rs, table)
    ensures forall i, j :: 0 <= i < j < |rs| ==> KeyOf(rs[i]) != KeyOf(rs[j])
    ensures NewestFirst(rs)
  {
  }

  /** The `is_high_demand` property: the week's own demand is 'High', which is
      the only label at the top demand level. */
  function IsHighDemand(d: MarketData): (r: bool)
    ensures r <==> DemandLevel(d.marketDemand) == 3
  {
    d.marketDemand == "High"
  }

  /** The numeric level of a demand label; an unknown label counts as 'Medium'. */
  function DemandLevel(demand: string): (r: int)
    ensures 1 <= r <= 3
    ensures r == 1 <==> demand == "Low"
    ensures r == 3 <==> demand == "High"
    ensures r == 2 <==> demand != "Low" && demand != "High"
  {
    if demand == "Low" then 1
    else if demand == "Medium" then 2
    else if demand == "High" then 3
    else 2
  }

  datatype Trend = Increasing | Decreasing | Stable

  /** The `demand_trend` property: this week's level against last week's. */
  function DemandTrend(d: MarketData): (r: Trend)
    ensures r == Increasing <==> DemandLevel(d.marketDemand) > DemandLevel(d.lastWeekDemand)
    ensures r == Decreasing <==> DemandLevel(d.marketDemand) < DemandLevel(d.lastWeekDemand)
    ensures r == Stable <==> DemandLevel(d.marketDemand) == DemandLevel(d.lastWeekDemand)
  {
    var current := DemandLevel(d.marketDemand);
    var previous := DemandLevel(d.lastWeekDemand);
    if current > previous then Increasing
    else if current < previous then Decreasing
    else Stable
  }

  /** Exchanging this week's and last week's demand mirrors the trend. */
  lemma DemandTrendSwap(d: MarketData)
    ensures var e := d.(marketDemand := d.lastWeekDemand, lastWeekDemand := d.marketDemand);
            && (DemandTrend(d) == Increasing <==> DemandTrend(e) == Decreasing)
            && (DemandTrend(d) == Stable <==> DemandTrend(e) == Stable)
  {
  }

  /** Labels outside Low/Medium/High behave exactly like 'Medium'. */
  lemma DemandTrendUnknownIsMedium(d: MarketData)
    requires d.marketDemand !in {"Low", "Medium", "High"}
    ensures DemandTrend(d) == DemandTrend(d.(marketDemand := "Medium"))
  {
  }

  /** An external data source. Times are whole seconds; `lastFetch` is unset
      until the first fetch. */
  datatype DataSource = DataSource(
    name: string,
    isActive: bool,
    lastFetch: Option<int>,
    fetchFrequency: string)

  const SecondsPerDay: int := 86400

  /** The freshness period of each scheduled frequency; 'manual' and any
      other label have none. */
  function FrequencyPeriod(frequency: string): (r: Option<int>)
    ensures r.Some? <==> frequency in {"daily", "weekly", "monthly"}
    ensures frequency == "daily" ==> r == Some(SecondsPerDay)
    ensures frequency == "weekly" ==> r == Some(7 * SecondsPerDay)
    ensures frequency == "monthly" ==> r == Some(30 * SecondsPerDay)
  {
    if frequency == "daily" then Some(SecondsPerDay)
    else if frequency == "weekly" then Some(7 * SecondsPerDay)
    else if frequency == "monthly" then Some(30 * SecondsPerDay)
    else None
  }

  /** The `needs_update` property at time `now`. */
  function NeedsUpdate(s: DataSource, now: int): (r: bool)
    ensures !s.isActive || s.lastFetch.None? ==> r
    ensures s.isActive && s.lastFetch.Some? && FrequencyPeriod(s.fetchFrequency).Some? ==>
              (r <==> now - s.lastFetch.value >= FrequencyPeriod(s.fetchFrequency).value)
    ensures s.isActive && s.lastFetch.Some? && FrequencyPeriod(s.fetchFrequency).None? ==> !r
  {
    if !s.isActive || s.lastFetch.None? then true
    else match FrequencyPeriod(s.fetchFrequency)
      case Some(period) => now - s.lastFetch.value >= period
      case None => false
  }

  /** Once a source is due, it stays due as time passes. */
  lemma NeedsUpdateMonotone(s: DataSource, now: int, later: int)
    requires now <= later
    requires NeedsUpdate(s, now)
    ensures NeedsUpdate(s, later)
  {
  }

  /** A manually fetched, active source that was fetched once is never due. */
  lemma ManualNeverDue(s: DataSource, now: int)
    requires s.isActive && s.lastFetch.Some? && s.fetchFrequency == "manual"
    ensures !NeedsUpdate(s, now)
  {
  }
}
