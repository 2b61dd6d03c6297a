/**
 * The decision logic of the dashboard views. Each view reads the market
 * table as a listing newest first (the table's default ordering), the stored
 * predictions as a listing newest first, the current time in whole seconds,
 * and the shared predictor; what it answers is a value, not an HTTP response.
 */
module PredictionViews {
  import opened Wrappers
  import opened ListOps
  import MM = MarketModels
  import ML = ModelLoader

  /** A stored prediction (the audit trail); `timestamp` in whole seconds. */
  datatype PredictionRecord = PredictionRecord(timestamp: int, predictedDemand: string, confidenceScore: real)

  /** Why a view answers with a server error instead of data. */
  datatype ViewError =
    | PredictionUnavailable(cause: ML.LoaderError)
    | UnknownDemand(demand: string)

  /** The three labels the demand dictionaries of the views are keyed by. */
  predicate KnownDemand(demand: string) {
    demand == "High" || demand == "Medium" || demand == "Low"
  }

  /** The predictor's inputs taken from one stored week. */
  function ObservationOf(d: MM.MarketData): ML.Observation {
    ML.Observation(d.rainfall, d.temperature, d.marketDay, d.schoolOpen, d.diseaseAlert,
                   d.lastWeekDemand, d.week, d.month)
  }

  // ---------------------------------------------------------------------
  // current_week_prediction

  /** The fixed observation the current-week card asks about; only the week
      number and the month name come from the calendar. */
  function CurrentWeekObservation(week: nat, month: string): ML.Observation {
    ML.Observation(75.0, 23.0, true, true, "Absence", "Medium", week, month)
  }

  /** The card colour of a demand label; the dictionary has no other keys. */
  function StatusColor(demand: string): (r: Option<string>)
    ensures r.Some? <==> KnownDemand(demand)
  {
    if demand == "High" then Some("red")
    else if demand == "Medium" then Some("orange")
    else if demand == "Low" then Some("green")
    else None
  }

  datatype CurrentWeek = CurrentWeek(week: nat, predictedDemand: string, confidence: real, statusColor: string)

  /** The current-week card: the predictor's answer for the fixed observation
      and its colour. A failed prediction and a label without a colour both
      become an error answer. */
  function CurrentWeekPrediction(predictor: ML.TomatoModelLoader, week: nat, month: string)
    : (r: Result<CurrentWeek, ViewError>)
    reads predictor
    ensures var p := predictor.Predict(CurrentWeekObservation(week, month));
            && (r.Ok? <==> p.Ok? && KnownDemand(p.value.demand))
            && (p.Err? ==> r == Err(PredictionUnavailable(p.error)))
            && (r.Ok? ==> && r.value.week == week
                          && r.value.predictedDemand == p.value.demand
                          && r.value.confidence == p.value.confidence
                          && (p.value.demand == "High" ==> r.value.statusColor == "red")
                          && (p.value.demand == "Medium" ==> r.value.statusColor == "orange")
                          && (p.value.demand == "Low" ==> r.value.statusColor == "green"))
    ensures !predictor.isTrained ==> r == Err(PredictionUnavailable(ML.NotLoaded))
  {
    match predictor.Predict(CurrentWeekObservation(week, month))
    case Err(e) => Err(PredictionUnavailable(e))
    case Ok(p) =>
      match StatusColor(p.demand)
      case None => Err(UnknownDemand(p.demand))
      case Some(color) => Ok(CurrentWeek(week, p.demand, p.confidence, color))
  }

  // ---------------------------------------------------------------------
  // dashboard_cards

  const Day: int := 86400

  /** The change figure of a card: with no predictions in the earlier period
      it is the literal "+0%"; otherwise the relative change in percent,
      rendered with an explicit sign. */
  datatype Change = NoBaseline | Relative(percent: real)

  /** Whether the rendered change text holds a '+': "+0%" does, and a signed
      rendering does exactly when the change is not negative. */
  predicate HasPlus(c: Change) {
    c.NoBaseline? || c.percent >= 0.0
  }

  datatype Direction = Up | Down

  /** The change figure of `current` against `previous`. */
  function ChangeOf(current: nat, previous: nat): (c: Change)
    ensures c == NoBaseline <==> previous == 0
    ensures HasPlus(c) <==> previous == 0 || current >= previous
    ensures c.Relative? ==> c.percent * previous as real == (current - previous) as real * 100.0
  {
    if previous == 0 then NoBaseline
    else
      var p := (current - previous) as real / previous as real * 100.0;
      assert p * previous as real == (current - previous) as real * 100.0;
      assert p >= 0.0 <==> current >= previous by {
        if current >= previous {
          assert (current - previous) as real / previous as real >= 0.0;
        } else {
          assert (current - previous) as real / previous as real < 0.0;
        }
      }
      Relative(p)
  }

  /** A card's arrow points up exactly when its change text holds a '+'. */
  function TrendOf(c: Change): (d: Direction)
    ensures d == Up <==> HasPlus(c)
  {
    if HasPlus(c) then Up else Down
  }

  /** The number of predictions made at or after `from`. */
  function CountSince(ps: seq<PredictionRecord>, from: int): (n: nat)
    ensures n == |set i | 0 <= i < |ps| && ps[i].timestamp >= from|
  {
    var since := (p: PredictionRecord) => p.timestamp >= from;
    assert Matching(ps, since) == set i | 0 <= i < |ps| && ps[i].timestamp >= from;
    CountWhere(ps, since)
  }

  /** The number of predictions made in `[from, until)`. */
  function CountBetween(ps: seq<PredictionRecord>, from: int, until: int): (n: nat)
    ensures n == |set i | 0 <= i < |ps| && from <= ps[i].timestamp < until|
  {
    var within := (p: PredictionRecord) => from <= p.timestamp < until;
    assert Matching(ps, within) == set i | 0 <= i < |ps| && from <= ps[i].timestamp < until;
    CountWhere(ps, within)
  }

  /** The predictions at or after `from` are those in `[from, until)` and
      those at or after `until`, when `from <= until`. */
  lemma CountSinceSplit(ps: seq<PredictionRecord>, from: int, until: int)
    requires from <= until
    ensures CountSince(ps, from) == CountBetween(ps, from, until) + CountSince(ps, until)
  {
    var a := set i | 0 <= i < |ps| && from <= ps[i].timestamp < until;
    var b := set i | 0 <= i < |ps| && ps[i].timestamp >= until;
    assert (set i | 0 <= i < |ps| && ps[i].timestamp >= from) == a + b;
    assert a * b == {};
  }

  predicate IsHighPrediction(p: PredictionRecord) {
    p.predictedDemand == "High"
  }

  datatype Card = Card(value: nat, change: Change, trend: Direction)

  datatype DashboardCards = DashboardCards(
    totalPredictions: Card,
    weeklyPredictions: Card,
    modelAccuracy: nat,
    highDemandCount: nat)

  /** The four metric cards at time `now`. Totals compare the last 30 days
      with the 30 before; the weekly card the last 7 days with the 7 before.
      The accuracy and high-demand cards carry fixed change figures with an
      upward arrow, which are left out here. */
  function DashboardCardsAt(ps: seq<PredictionRecord>, now: int): (r: DashboardCards)
    ensures r.totalPredictions.value == |ps|
    ensures r.weeklyPredictions.value == CountSince(ps, now - 7 * Day)
    ensures r.highDemandCount == CountWhere(ps, IsHighPrediction) <= |ps|
    ensures r.modelAccuracy == 95
    ensures var weekly := CountSince(ps, now - 7 * Day);
            var prevWeekly := CountBetween(ps, now - 14 * Day, now - 7 * Day);
            && r.weeklyPredictions.change == ChangeOf(weekly, prevWeekly)
            && r.weeklyPredictions.trend == TrendOf(r.weeklyPredictions.change)
            && (r.weeklyPredictions.change == NoBaseline <==> prevWeekly == 0)
            && (r.weeklyPredictions.trend == Up <==> prevWeekly == 0 || weekly >= prevWeekly)
    ensures var lastMonth := CountSince(ps, now - 30 * Day);
            var prevMonth := CountBetween(ps, now - 60 * Day, now - 30 * Day);
            && r.totalPredictions.change == ChangeOf(lastMonth, prevMonth)
            && r.totalPredictions.trend == TrendOf(r.totalPredictions.change)
            && (r.totalPredictions.change == NoBaseline <==> prevMonth == 0)
            && (r.totalPredictions.trend == Up <==> prevMonth == 0 || lastMonth >= prevMonth)
  {
    var weekly := CountSince(ps, now - 7 * Day);
    var prevWeekly := CountBetween(ps, now - 14 * Day, now - 7 * Day);
    var weeklyChange := ChangeOf(weekly, prevWeekly);
    var lastMonth := CountSince(ps, now - 30 * Day);
    var prevMonth := CountBetween(ps, now - 60 * Day, now - 30 * Day);
    var totalChange := ChangeOf(lastMonth, prevMonth);
    DashboardCards(
      Card(|ps|, totalChange, TrendOf(totalChange)),
      Card(weekly, weeklyChange, TrendOf(weeklyChange)),
      95,
      CountWhere(ps, IsHighPrediction))
  }

  // ---------------------------------------------------------------------
  // Demand dictionaries: {'High': 0, 'Medium': 0, 'Low': 0} and `+= 1`

  datatype DemandCounts = DemandCounts(high: nat, medium: nat, low: nat)

  const NoDemand := DemandCounts(0, 0, 0)

  function Total(c: DemandCounts): nat {
    c.high + c.medium + c.low
  }

  /** `counts[demand] += 1`, which raises for a demand that is not a key. */
  function Tally(c: DemandCounts, demand: string): (r: Option<DemandCounts>)
    ensures r.Some? <==> KnownDemand(demand)
    ensures r.Some? ==> Total(r.value) == Total(c) + 1
  {
    if demand == "High" then Some(c.(high := c.high + 1))
    else if demand == "Medium" then Some(c.(medium := c.medium + 1))
    else if demand == "Low" then Some(c.(low := c.low + 1))
    else None
  }

  /** Every record carries one of the three labels. */
  predicate AllKnown(rs: seq<MM.MarketData>) {
    forall i :: 0 <= i < |rs| ==> KnownDemand(rs[i].marketDemand)
  }

  /** The number of records with `demand`. This is `CountWhere` with the
      label test, as `CountDemandIsCountWhere` shows; it is written out on the
      label itself because the chart and tally loops prove far more cheaply
      against this plain recursion than against a counter over a predicate. */
  function CountDemand(rs: seq<MM.MarketData>, demand: string): nat {
    if rs == [] then 0
    else CountDemand(rs[..|rs| - 1], demand) + (if rs[|rs| - 1].marketDemand == demand then 1 else 0)
  }

  /** The dictionary's count for `demand` is the filtered count with that label. */
  lemma {:induction false} CountDemandIsCountWhere(rs: seq<MM.MarketData>, demand: string, labelled: MM.MarketData -> bool)
    requires forall d :: labelled(d) <==> d.marketDemand == demand
    ensures CountDemand(rs, demand) == CountWhere(rs, labelled)
  {
    if rs != [] {
      CountDemandIsCountWhere(rs[..|rs| - 1], demand, labelled);
    }
  }

  /** The dictionary's count for `demand` is the number of records with it. */
  lemma CountDemandCounts(rs: seq<MM.MarketData>, demand: string)
    ensures CountDemand(rs, demand) == |set i | 0 <= i < |rs| && rs[i].marketDemand == demand|
  {
    var labelled := (d: MM.MarketData) => d.marketDemand == demand;
    CountDemandIsCountWhere(rs, demand, labelled);
    assert Matching(rs, labelled) == set i | 0 <= i < |rs| && rs[i].marketDemand == demand;
  }

  /** The dictionary a run of records fills. */
  function CountsOf(rs: seq<MM.MarketData>): DemandCounts {
    DemandCounts(CountDemand(rs, "High"), CountDemand(rs, "Medium"), CountDemand(rs, "Low"))
  }

  /** When every demand is known, the three counts account for every record. */
  lemma {:induction false} CountsOfTotal(rs: seq<MM.MarketData>)
    requires AllKnown(rs)
    ensures Total(CountsOf(rs)) == |rs|
  {
    if rs != [] {
      var front := rs[..|rs| - 1];
      assert AllKnown(front) by {
        forall i | 0 <= i < |front| ensures KnownDemand(front[i].marketDemand) {
          assert front[i] == rs[i];
        }
      }
      CountsOfTotal(front);
      assert KnownDemand(rs[|rs| - 1].marketDemand);
    }
  }

  // ---------------------------------------------------------------------
  // chart_data

  /** The chart value of a known demand: High 3, Medium 2, Low 1. */
  function DemandValue(demand: string): (r: Option<nat>)
    ensures r.Some? <==> KnownDemand(demand)
    ensures r.Some? ==> r.value == MM.DemandLevel(demand)
  {
    if demand == "High" then Some(3)
    else if demand == "Medium" then Some(2)
    else if demand == "Low" then Some(1)
    else None
  }

  /** The number a run of decimal digits spells, most significant first. */
  function DigitsValue(s: string): nat
    requires forall i :: 0 <= i < |s| ==> '0' <= s[i] <= '9'
  {
    if s == [] then 0
    else DigitsValue(s[..|s| - 1]) * 10 + (s[|s| - 1] as int - '0' as int)
  }

  /** `str(n)`: the decimal digits of `n`, with no leading zero. */
  function DecimalString(n: nat): (s: string)
    ensures |s| > 0
    ensures forall i :: 0 <= i < |s| ==> '0' <= s[i] <= '9'
    ensures DigitsValue(s) == n
    ensures s[0] == '0' ==> n == 0 && s == "0"
  {
    var digit := ['0' + (n % 10) as char];
    if n < 10 then
      assert digit[..0] == [];
      digit
    else
      var s := DecimalString(n / 10) + digit;
      assert s[..|s| - 1] == DecimalString(n / 10);
      s
  }

  datatype ChartPoint = ChartPoint(week: string, demandLevel: string, demandValue: nat, rainfall: real, temperature: real)

  /** The point of one record with a known demand. */
  function PointOf(d: MM.MarketData): (p: ChartPoint)
    requires KnownDemand(d.marketDemand)
  {
    ChartPoint("W" + DecimalString(d.week), d.marketDemand, DemandValue(d.marketDemand).value, d.rainfall, d.temperature)
  }

  function PointsOf(rs: seq<MM.MarketData>): (ps: seq<ChartPoint>)
    requires AllKnown(rs)
    ensures |ps| == |rs|
  {
    if rs == [] then [] else PointsOf(rs[..|rs| - 1]) + [PointOf(rs[|rs| - 1])]
  }

  /** The i-th point is that of the i-th record. */
  lemma {:induction false} PointsOfPointwise(rs: seq<MM.MarketData>)
    requires AllKnown(rs)
    ensures forall i :: 0 <= i < |rs| ==> PointsOf(rs)[i] == PointOf(rs[i])
  {
    if rs != [] {
      var front := rs[..|rs| - 1];
      assert AllKnown(front) by {
        forall i | 0 <= i < |front| ensures KnownDemand(front[i].marketDemand) {
          assert front[i] == rs[i];
        }
      }
      PointsOfPointwise(front);
      forall i | 0 <= i < |rs| ensures PointsOf(rs)[i] == PointOf(rs[i]) {
        if i < |front| {
          assert front[i] == rs[i];
        }
      }
    }
  }

  /** One more record with a known label: one more point, one more count. */
  lemma TallyStep(s: seq<MM.MarketData>, i: nat)
    requires i < |s| && AllKnown(s[..i]) && KnownDemand(s[i].marketDemand)
    ensures AllKnown(s[..i + 1])
    ensures CountsOf(s[..i + 1]) == Tally(CountsOf(s[..i]), s[i].marketDemand).value
    ensures PointsOf(s[..i + 1]) == PointsOf(s[..i]) + [PointOf(s[i])]
  {
    assert s[..i + 1][..i] == s[..i];
  }

  datatype ChartResponse = ChartResponse(trendData: seq<ChartPoint>, demandDistribution: DemandCounts, totalWeeks: nat)

  /** The historical chart: the 12 newest records, drawn oldest first, with
      their demand counts. A record with a demand outside the dictionary makes
      the view fail. */
  method ChartData(records: seq<MM.MarketData>) returns (r: Result<ChartResponse, ViewError>)
    ensures var recent := Take(records, 12);
            && (r.Ok? <==> AllKnown(recent))
            && (r.Err? ==> r.error.UnknownDemand? && !KnownDemand(r.error.demand))
            && (r.Ok? ==> && r.value.trendData == PointsOf(Reverse(recent))
                          && r.value.demandDistribution == CountsOf(Reverse(recent))
                          && r.value.totalWeeks == |r.value.trendData| == |recent| <= 12
                          && Total(r.value.demandDistribution) == r.value.totalWeeks)
  {
    var recent := Take(records, 12);
    var chronological := Reverse(recent);
    var plotted := PlotRecords(chronological);
    PlotOfKnown(chronological);
    AllKnownReverse(recent);
    match plotted {
      case Err(e) =>
        r := Err(e);
      case Ok(plot) =>
        PlotOfValue(chronological);
        CountsOfTotal(chronological);
        r := Ok(ChartResponse(plot.points, plot.counts, |plot.points|));
    }
  }

  /** The chart's points and counts, before they are put in the response. */
  datatype Plot = Plot(points: seq<ChartPoint>, counts: DemandCounts)

  /** What the chart loop computes over records in drawing order: nothing
      once a label is not a key of the dictionary. */
  function PlotOf(rs: seq<MM.MarketData>): Option<Plot> {
    if rs == [] then Some(Plot([], NoDemand))
    else
      match PlotOf(rs[..|rs| - 1])
      case None => None
      case Some(p) =>
        var d := rs[|rs| - 1];
        if KnownDemand(d.marketDemand) then Some(Plot(p.points + [PointOf(d)], Tally(p.counts, d.marketDemand).value))
        else None
  }

  /** The loop yields a plot exactly when every label is known. */
  lemma {:induction false} PlotOfKnown(rs: seq<MM.MarketData>)
    ensures PlotOf(rs).Some? <==> AllKnown(rs)
  {
    if rs != [] {
      PlotOfKnown(rs[..|rs| - 1]);
      AllKnownSnoc(rs);
    }
  }

  /** When every label is known, the plot's points and counts are those of
      the records. */
  lemma {:induction false} PlotOfValue(rs: seq<MM.MarketData>)
    requires AllKnown(rs)
    ensures PlotOf(rs) == Some(Plot(PointsOf(rs), CountsOf(rs)))
  {
    if rs != [] {
      AllKnownSnoc(rs);
      PlotOfValue(rs[..|rs| - 1]);
      TallyStep(rs, |rs| - 1);
      assert rs[..|rs|] == rs;
    }
  }

  /** Every label of a run is known when those of its front and its last
      record are. */
  lemma AllKnownSnoc(rs: seq<MM.MarketData>)
    requires rs != []
    ensures AllKnown(rs) <==> AllKnown(rs[..|rs| - 1]) && KnownDemand(rs[|rs| - 1].marketDemand)
  {
    var front := rs[..|rs| - 1];
    assert forall i :: 0 <= i < |front| ==> front[i] == rs[i];
  }

  /** The chart loop over records in drawing order: one point per record and
      `counts[d.market_demand] += 1`, failing at the first label that is not a
      key. */
  method PlotRecords(rs: seq<MM.MarketData>) returns (r: Result<Plot, ViewError>)
    ensures r.Ok? <==> PlotOf(rs).Some?
    ensures r.Ok? ==> r.value == PlotOf(rs).value
    ensures r.Err? ==> r.error.UnknownDemand? && !KnownDemand(r.error.demand)
  {
    var points: seq<ChartPoint> := [];
    var counts := NoDemand;
    var i := 0;
    while i < |rs|
      invariant 0 <= i <= |rs|
      invariant PlotOf(rs[..i]) == Some(Plot(points, counts))
    {
      var data := rs[i];
      assert rs[..i + 1][..i] == rs[..i];
      if !KnownDemand(data.marketDemand) {
        PlotOfStaysNone(rs, i + 1);
        return Err(UnknownDemand(data.marketDemand));
      }
      points := points + [PointOf(data)];
      counts := Tally(counts, data.marketDemand).value;
      i := i + 1;
    }
    assert rs[..i] == rs;
    r := Ok(Plot(points, counts));
  }

  /** Once the loop has failed on a prefix, it fails on the whole run. */
  lemma {:induction false} PlotOfStaysNone(rs: seq<MM.MarketData>, j: nat)
    requires j <= |rs| && PlotOf(rs[..j]).None?
    ensures PlotOf(rs).None?
    decreases |rs| - j
  {
    if j < |rs| {
      assert rs[..j + 1][..j] == rs[..j];
      PlotOfStaysNone(rs, j + 1);
    } else {
      assert rs[..j] == rs;
    }
  }

  /** Reversing a run of records does not change whether all labels are known. */
  lemma AllKnownReverse(rs: seq<MM.MarketData>)
    ensures AllKnown(Reverse(rs)) <==> AllKnown(rs)
  {
    var rev := Reverse(rs);
    if AllKnown(rev) {
      forall j | 0 <= j < |rs| ensures KnownDemand(rs[j].marketDemand) {
        assert rs[j] == rev[|rs| - 1 - j];
      }
    }
  }

  /** Read from a listing of the table, the chart runs strictly forward in
      time. */
  lemma ChartChronological(records: seq<MM.MarketData>, table: map<MM.Key, MM.MarketData>)
    requires MM.ListingOf(records, table)
    ensures var chronological := Reverse(Take(records, 12));
            forall i, j :: 0 <= i < j < |chronological| ==>
              MM.Newer(MM.KeyOf(chronological[j]), MM.KeyOf(chronological[i]))
  {
    MM.ListingNewestFirst(records, table);
    var recent := Take(records, 12);
    var chronological := Reverse(recent);
    forall i, j | 0 <= i < j < |chronological|
      ensures MM.Newer(MM.KeyOf(chronological[j]), MM.KeyOf(chronological[i]))
    {
      var a, b := |recent| - 1 - j, |recent| - 1 - i;
      assert chronological[j] == records[a] && chronological[i] == records[b];
    }
  }

  // ---------------------------------------------------------------------
  // simulate_weeks

  /** The stored weeks of `year` between `startWeek` and `endWeek`, inclusive:
      every such record and only those, each as often as it is stored. */
  function WeeksInRange(rs: seq<MM.MarketData>, year: int, startWeek: int, endWeek: int): (r: seq<MM.MarketData>)
    ensures |r| <= |rs|
    ensures forall i :: 0 <= i < |r| ==> r[i].year == year && startWeek <= r[i].week <= endWeek
    ensures forall i :: 0 <= i < |r| ==> r[i] in rs
    ensures forall d :: d in rs && d.year == year && startWeek <= d.week <= endWeek ==> d in r
  {
    if rs == [] then []
    else
      var keep := rs[0].year == year && startWeek <= rs[0].week <= endWeek;
      var rest := WeeksInRange(rs[1..], year, startWeek, endWeek);
      assert forall i :: 0 <= i < |rest| ==> rest[i] in rs by {
        forall i | 0 <= i < |rest| ensures rest[i] in rs {
          assert rest[i] in rs[1..];
        }
      }
      (if keep then [rs[0]] else []) + rest
  }

  /** The filter keeps each in-range record exactly as often as it is
      stored, and drops every other record. */
  lemma {:induction false} WeeksInRangeCounts(rs: seq<MM.MarketData>, year: int, startWeek: int, endWeek: int)
    ensures forall d :: multiset(WeeksInRange(rs, year, startWeek, endWeek))[d]
                        == if d.year == year && startWeek <= d.week <= endWeek then multiset(rs)[d] else 0
  {
    if rs != [] {
      WeeksInRangeCounts(rs[1..], year, startWeek, endWeek);
      assert rs == [rs[0]] + rs[1..];
    }
  }

  function WeekOf(d: MM.MarketData): int {
    d.week
  }

  /** The weeks the simulation plays, ordered by week. */
  function SimulatedWeeks(rs: seq<MM.MarketData>, year: int, startWeek: int, endWeek: int): seq<MM.MarketData> {
    SortBy(WeeksInRange(rs, year, startWeek, endWeek), WeekOf)
  }

  datatype Frame = Frame(week: nat, month: string, predictedDemand: string, actualDemand: string,
                         confidence: real, isMatch: bool)

  /** The frame of one week, or none when the prediction fails. */
  function FrameFor(predictor: ML.TomatoModelLoader, d: MM.MarketData): (r: seq<Frame>)
    reads predictor
    ensures |r| <= 1
    ensures r != [] <==> predictor.Predict(ObservationOf(d)).Ok?
    ensures r != [] ==> && r[0].week == d.week && r[0].actualDemand == d.marketDemand
                        && r[0].month == d.month
                        && r[0].predictedDemand == predictor.Predict(ObservationOf(d)).value.demand
                        && r[0].confidence == predictor.Predict(ObservationOf(d)).value.confidence
                        && (r[0].isMatch <==> r[0].predictedDemand == r[0].actualDemand)
  {
    match predictor.Predict(ObservationOf(d))
    case Ok(p) => [Frame(d.week, d.month, p.demand, d.marketDemand, p.confidence, p.demand == d.marketDemand)]
    case Err(_) => []
  }

  /** The frames of a run of weeks, in order. */
  function FramesOf(predictor: ML.TomatoModelLoader, ws: seq<MM.MarketData>): seq<Frame>
    reads predictor
  {
    if ws == [] then [] else FramesOf(predictor, ws[..|ws| - 1]) + FrameFor(predictor, ws[|ws| - 1])
  }

  /** Every week of the run whose prediction succeeds has its frame among
      the frames. */
  lemma {:induction false} FramesOfCovers(predictor: ML.TomatoModelLoader, ws: seq<MM.MarketData>, k: nat)
    requires k < |ws| && predictor.Predict(ObservationOf(ws[k])).Ok?
    ensures FrameFor(predictor, ws[k])[0] in FramesOf(predictor, ws)
  {
    var front := ws[..|ws| - 1];
    if k < |ws| - 1 {
      assert front[k] == ws[k];
      FramesOfCovers(predictor, front, k);
    }
  }

  /** With no model loaded every prediction fails, so nothing is played. */
  lemma {:induction false} FramesOfUntrained(predictor: ML.TomatoModelLoader, ws: seq<MM.MarketData>)
    requires !predictor.isTrained
    ensures FramesOf(predictor, ws) == []
  {
    if ws != [] {
      FramesOfUntrained(predictor, ws[..|ws| - 1]);
    }
  }

  /** The played weeks are those in range, ascending by week. */
  lemma SimulatedWeeksInRange(rs: seq<MM.MarketData>, year: int, startWeek: int, endWeek: int)
    ensures var weeks := SimulatedWeeks(rs, year, startWeek, endWeek);
            && SortedBy(weeks, WeekOf)
            && forall k :: 0 <= k < |weeks| ==> weeks[k].year == year && startWeek <= weeks[k].week <= endWeek
  {
    var inRange := WeeksInRange(rs, year, startWeek, endWeek);
    var weeks := SortBy(inRange, WeekOf);
    SortByCorrect(inRange, WeekOf);
    forall k | 0 <= k < |weeks| ensures weeks[k].year == year && startWeek <= weeks[k].week <= endWeek {
      assert weeks[k] in multiset(inRange);
      var m :| 0 <= m < |inRange| && inRange[m] == weeks[k];
    }
  }

  /** Each stored in-range week is played as often as it is stored: once
      when the table holds it once. */
  lemma SimulatedWeeksCounts(rs: seq<MM.MarketData>, year: int, startWeek: int, endWeek: int)
    ensures forall d :: multiset(SimulatedWeeks(rs, year, startWeek, endWeek))[d]
                        == if d.year == year && startWeek <= d.week <= endWeek then multiset(rs)[d] else 0
  {
    WeeksInRangeCounts(rs, year, startWeek, endWeek);
    SortByCorrect(WeeksInRange(rs, year, startWeek, endWeek), WeekOf);
  }

  /** Frames come one per week whose prediction succeeds and in the order of
      the weeks, so weeks sorted and in range give frames sorted and in
      range, none of them later than the last week. */
  lemma {:induction false} FramesOfOrdered(predictor: ML.TomatoModelLoader, ws: seq<MM.MarketData>,
                                           startWeek: int, endWeek: int)
    requires SortedBy(ws, WeekOf)
    requires forall k :: 0 <= k < |ws| ==> startWeek <= ws[k].week <= endWeek
    ensures var fs := FramesOf(predictor, ws);
            && |fs| <= |ws|
            && (forall a :: 0 <= a < |fs| ==> startWeek <= fs[a].week <= endWeek)
            && (forall a :: 0 <= a < |fs| ==> (fs[a].isMatch <==> fs[a].predictedDemand == fs[a].actualDemand))
            && (forall a, b :: 0 <= a < b < |fs| ==> fs[a].week <= fs[b].week)
            && (forall a :: 0 <= a < |fs| ==> fs[a].week <= ws[|ws| - 1].week)
  {
    if ws != [] {
      var front := ws[..|ws| - 1];
      var last := ws[|ws| - 1];
      assert SortedBy(front, WeekOf) by {
        forall i, j | 0 <= i < j < |front| ensures WeekOf(front[i]) <= WeekOf(front[j]) {
          assert front[i] == ws[i] && front[j] == ws[j];
        }
      }
      FramesOfOrdered(predictor, front, startWeek, endWeek);
      if front != [] {
        assert front[|front| - 1] == ws[|ws| - 2];
        assert WeekOf(ws[|ws| - 2]) <= WeekOf(last);
      }
    }
  }

  /** Every stored week of `year` in `[startWeek, endWeek]` whose prediction
      succeeds is played: some frame carries its week, its actual demand and
      the predicted demand. */
  lemma SimulatedWeeksCovered(predictor: ML.TomatoModelLoader, records: seq<MM.MarketData>,
                              year: int, startWeek: int, endWeek: int, d: MM.MarketData)
    requires d in records && d.year == year && startWeek <= d.week <= endWeek
    requires predictor.Predict(ObservationOf(d)).Ok?
    ensures exists f :: f in FramesOf(predictor, SimulatedWeeks(records, year, startWeek, endWeek))
                        && f.week == d.week && f.actualDemand == d.marketDemand
                        && f.predictedDemand == predictor.Predict(ObservationOf(d)).value.demand
  {
    var inRange := WeeksInRange(records, year, startWeek, endWeek);
    var weeks := SortBy(inRange, WeekOf);
    assert d in multiset(weeks);
    var k :| 0 <= k < |weeks| && weeks[k] == d;
    FramesOfCovers(predictor, weeks, k);
    var f := FrameFor(predictor, d)[0];
    assert f in FramesOf(predictor, weeks);
  }

  /** What the played frames satisfy: at most one per week, in range,
      ascending, with a truthful match flag, and one for every in-range week
      whose prediction succeeds. */
  lemma SimulatedFrames(predictor: ML.TomatoModelLoader, records: seq<MM.MarketData>,
                        year: int, startWeek: int, endWeek: int)
    ensures var weeks := SimulatedWeeks(records, year, startWeek, endWeek);
            var fs := FramesOf(predictor, weeks);
            && |fs| <= |weeks|
            && (forall i :: 0 <= i < |fs| ==> startWeek <= fs[i].week <= endWeek)
            && (forall i :: 0 <= i < |fs| ==> (fs[i].isMatch <==> fs[i].predictedDemand == fs[i].actualDemand))
            && (forall i, j :: 0 <= i < j < |fs| ==> fs[i].week <= fs[j].week)
            && (forall d :: d in records && d.year == year && startWeek <= d.week <= endWeek
                            && predictor.Predict(ObservationOf(d)).Ok? ==>
                              exists f :: f in fs && f.week == d.week && f.actualDemand == d.marketDemand)
  {
    var weeks := SimulatedWeeks(records, year, startWeek, endWeek);
    SimulatedWeeksInRange(records, year, startWeek, endWeek);
    FramesOfOrdered(predictor, weeks, startWeek, endWeek);
    forall d | d in records && d.year == year && startWeek <= d.week <= endWeek
               && predictor.Predict(ObservationOf(d)).Ok?
      ensures exists f :: f in FramesOf(predictor, weeks) && f.week == d.week && f.actualDemand == d.marketDemand
    {
      SimulatedWeeksCovered(predictor, records, year, startWeek, endWeek, d);
    }
  }

  datatype Simulation = Simulation(frames: seq<Frame>, totalFrames: nat, playSpeed: nat)

  /** The week-by-week playback: one frame per week of `year` in
      `[startWeek, endWeek]` whose prediction succeeds, ascending by week. */
  method SimulateWeeks(predictor: ML.TomatoModelLoader, records: seq<MM.MarketData>,
                       startWeek: int, endWeek: int, year: int)
    returns (r: Simulation)
    ensures r.frames == FramesOf(predictor, SimulatedWeeks(records, year, startWeek, endWeek))
    ensures r.totalFrames == |r.frames| <= |SimulatedWeeks(records, year, startWeek, endWeek)|
    ensures r.playSpeed == 500
    ensures forall i :: 0 <= i < |r.frames| ==> startWeek <= r.frames[i].week <= endWeek
    ensures forall i :: 0 <= i < |r.frames| ==> (r.frames[i].isMatch <==> r.frames[i].predictedDemand == r.frames[i].actualDemand)
    ensures forall i, j :: 0 <= i < j < |r.frames| ==> r.frames[i].week <= r.frames[j].week
    ensures forall d :: d in records && d.year == year && startWeek <= d.week <= endWeek
                        && predictor.Predict(ObservationOf(d)).Ok? ==>
                          exists f :: f in r.frames && f.week == d.week && f.actualDemand == d.marketDemand
  {
    var weeks := SimulatedWeeks(records, year, startWeek, endWeek);
    var frames := PlayWeeks(predictor, weeks);
    SimulatedFrames(predictor, records, year, startWeek, endWeek);
    r := Simulation(frames, |frames|, 500);
  }

  /** The playback loop: each week's frame, skipping a week whose prediction
      fails. */
  method PlayWeeks(predictor: ML.TomatoModelLoader, weeks: seq<MM.MarketData>) returns (frames: seq<Frame>)
    ensures frames == FramesOf(predictor, weeks)
  {
    frames := [];
    var i := 0;
    while i < |weeks|
      invariant 0 <= i <= |weeks|
      invariant frames == FramesOf(predictor, weeks[..i])
    {
      assert weeks[..i + 1][..i] == weeks[..i];
      frames := frames + FrameFor(predictor, weeks[i]);
      i := i + 1;
    }
    assert weeks[..i] == weeks;
  }

  // ---------------------------------------------------------------------
  // status_cards

  datatype Weather = Hot | Cold | Moderate
  datatype Health = DiseaseAlert | Healthy

  datatype StatusCards =
    | NoData
    | Status(weather: Weather, weatherColor: string, temperature: real, rainfall: real,
             health: Health, healthColor: string, diseaseAlert: string)

  /** The weather and health cards of the newest week. */
  function StatusCardsOf(records: seq<MM.MarketData>): (r: StatusCards)
    ensures r.NoData? <==> records == []
    ensures r.Status? ==> && r.temperature == records[0].temperature
                          && r.rainfall == records[0].rainfall
                          && r.diseaseAlert == records[0].diseaseAlert
                          && (r.weather == Hot <==> records[0].temperature > 30.0)
                          && (r.weather == Cold <==> records[0].temperature < 15.0)
                          && (r.weather == Moderate <==> 15.0 <= records[0].temperature <= 30.0)
                          && (r.health == DiseaseAlert <==> records[0].diseaseAlert == "Presence")
                          && (r.weatherColor == "#ef4444" <==> r.weather == Hot)
                          && (r.healthColor == "#ef4444" <==> r.health == DiseaseAlert)
  {
    if records == [] then NoData
    else
      var latest := records[0];
      var temp := latest.temperature;
      var weather := if temp > 30.0 then Hot else if temp < 15.0 then Cold else Moderate;
      var weatherColor := match weather
        case Hot => "#ef4444"
        case Cold => "#3b82f6"
        case Moderate => "#10b981";
      var health := if latest.diseaseAlert == "Presence" then DiseaseAlert else Healthy;
      var healthColor := if health == DiseaseAlert then "#ef4444" else "#10b981";
      Status(weather, weatherColor, temp, latest.rainfall, health, healthColor, latest.diseaseAlert)
  }

  // ---------------------------------------------------------------------
  // market_insights_chart

  /** What the donut chart is drawn from, before rounding to percentages. */
  datatype DonutCounts = DonutCounts(counts: DemandCounts, total: nat)

  /** The distribution shown when there is nothing to count. */
  const FallbackDonut := DonutCounts(DemandCounts(30, 50, 20), 100)

  /** The counting loop: `counts[d.market_demand] += 1` for each record, in
      order, failing at the first label that is not a key. */
  method TallyDemands(rs: seq<MM.MarketData>) returns (r: Result<DemandCounts, ViewError>)
    ensures r.Ok? <==> AllKnown(rs)
    ensures r.Ok? ==> r.value == CountsOf(rs)
    ensures r.Err? ==> r.error.UnknownDemand? && !KnownDemand(r.error.demand)
  {
    var counts := NoDemand;
    var i := 0;
    while i < |rs|
      invariant 0 <= i <= |rs|
      invariant AllKnown(rs[..i])
      invariant counts == CountsOf(rs[..i])
    {
      if !KnownDemand(rs[i].marketDemand) {
        return Err(UnknownDemand(rs[i].marketDemand));
      }
      TallyStep(rs, i);
      counts := Tally(counts, rs[i].marketDemand).value;
      i := i + 1;
    }
    assert rs[..i] == rs;
    r := Ok(counts);
  }

  /** The fallback rule: counts that sum to 0 are replaced by the fixed
      split. The donut always has a positive total to divide by. */
  function DonutOf(counts: DemandCounts): (d: DonutCounts)
    ensures d.total > 0 && Total(d.counts) == d.total
    ensures Total(counts) > 0 ==> d.counts == counts
  {
    var total := Total(counts);
    if total == 0 then FallbackDonut else DonutCounts(counts, total)
  }

  /** The donut's counts over the 20 newest records, in the fallback form;
      an unknown label makes the view fail. */
  method MarketInsightsChart(records: seq<MM.MarketData>) returns (r: Result<DonutCounts, ViewError>)
    ensures r.Ok? <==> AllKnown(Take(records, 20))
    ensures r.Err? ==> r.error.UnknownDemand? && !KnownDemand(r.error.demand)
    ensures r.Ok? ==> r.value == DonutOf(CountsOf(Take(records, 20)))
  {
    var recent := Take(records, 20);
    var tally := TallyDemands(recent);
    match tally {
      case Err(e) =>
        r := Err(e);
      case Ok(counts) =>
        r := Ok(DonutOf(counts));
    }
  }

  /** The fixed split is shown exactly when there are no records; otherwise
      the donut counts the (at most 20) newest records. */
  lemma DonutOfRecent(records: seq<MM.MarketData>)
    requires AllKnown(Take(records, 20))
    ensures var recent := Take(records, 20);
            && (records == [] ==> DonutOf(CountsOf(recent)) == FallbackDonut)
            && (records != [] ==> DonutOf(CountsOf(recent)) == DonutCounts(CountsOf(recent), |recent|))
  {
    CountsOfTotal(Take(records, 20));
  }

  // ---------------------------------------------------------------------
  // business_insights_data

  datatype BusinessInsights =
    | Fallback(profitPotential: string, revenueEstimate: string, bestSellingDays: string, marketTrend: string)
    | Insights(profitPotential: string, revenueEstimate: string, bestSellingDays: string, marketTrend: string,
               highDemandWeeks: nat, marketDays: nat)

  function HasMarketDay(d: MM.MarketData): bool {
    d.marketDay
  }

  /** The business card over the 12 newest records: profit potential from
      the high-demand weeks among them, the trend from the 3 newest, the best
      days from the market days; a fixed answer for an empty table. */
  function BusinessInsightsData(records: seq<MM.MarketData>): (r: BusinessInsights)
    ensures r.Fallback? <==> records == []
    ensures r.Fallback? ==> r == Fallback("Medium", "450,000", "Tuesday, Friday", "Stable")
    ensures r.Insights? ==>
              var recent := Take(records, 12);
              var high := CountWhere(recent, MM.IsHighDemand);
              var highRecent := CountWhere(Take(recent, 3), MM.IsHighDemand);
              && r.highDemandWeeks == high <= 12
              && r.marketDays == CountWhere(recent, HasMarketDay) <= 12
              && (r.profitPotential == "High" <==> high >= 4)
              && (r.profitPotential == "Medium" <==> 2 <= high < 4)
              && (r.profitPotential == "Low" <==> high < 2)
              && (r.revenueEstimate == "650,000" <==> r.profitPotential == "High")
              && (r.revenueEstimate == "450,000" <==> r.profitPotential == "Medium")
              && (r.revenueEstimate == "280,000" <==> r.profitPotential == "Low")
              && (r.marketTrend == "Growing" <==> highRecent >= 2)
              && (r.marketTrend == "Stable" <==> highRecent == 1)
              && (r.marketTrend == "Declining" <==> highRecent == 0)
              && (r.bestSellingDays == "Tuesday, Friday" <==> r.marketDays > 6)
              && (r.bestSellingDays == "Friday, Saturday" <==> r.marketDays <= 6)
  {
    if records == [] then Fallback("Medium", "450,000", "Tuesday, Friday", "Stable")
    else
      var recent := Take(records, 12);
      var high := CountWhere(recent, MM.IsHighDemand);
      var marketDays := CountWhere(recent, HasMarketDay);
      var profit := if high >= 4 then "High" else if high >= 2 then "Medium" else "Low";
      var revenue := if high >= 4 then "650,000" else if high >= 2 then "450,000" else "280,000";
      var highRecent := CountWhere(Take(recent, 3), MM.IsHighDemand);
      var trend := if highRecent >= 2 then "Growing" else if highRecent == 1 then "Stable" else "Declining";
      Insights(profit, revenue, if marketDays > 6 then "Tuesday, Friday" else "Friday, Saturday", trend,
               high, marketDays)
  }

  /** A growing trend means at least two of the 3 newest weeks were high,
      and those weeks are among the 12 the profit potential counts, so a
      growing market never reports low profit potential. */
  lemma GrowingMeansProfitNotLow(records: seq<MM.MarketData>)
    requires BusinessInsightsData(records).marketTrend == "Growing"
    ensures BusinessInsightsData(records).profitPotential != "Low"
  {
    var recent := Take(records, 12);
    var top := Take(recent, 3);
    assert top == recent[..|top|];
    assert recent == recent[..|recent|];
    CountWherePrefix(recent, MM.IsHighDemand, |top|, |recent|);
  }

  // ---------------------------------------------------------------------
  // agricultural_tips

  /** The tips the view can give; their texts are fixed per kind. */
  datatype TipKind =
    | PlantInDrySeason | UseOrganicFertiliser
    | IncreaseIrrigation | ProtectFromCold
    | EnsureDrainage | ConserveWater
    | PreventiveTreatment
    | ExpandProduction | FocusOnQuality
    | PlanWithConfidence

  /** The order in which the view considers the tips. */
  function Ordinal(k: TipKind): nat {
    match k
    case PlantInDrySeason => 0
    case UseOrganicFertiliser => 1
    case IncreaseIrrigation => 2
    case ProtectFromCold => 3
    case EnsureDrainage => 4
    case ConserveWater => 5
    case PreventiveTreatment => 6
    case ExpandProduction => 7
    case FocusOnQuality => 8
    case PlanWithConfidence => 9
  }

  datatype Tip = Tip(kind: TipKind, priority: string)

  /** The two tips that are always given, first. */
  const BaseTips: seq<Tip> := [Tip(PlantInDrySeason, "high"), Tip(UseOrganicFertiliser, "medium")]

  /** The sort key: critical before high before medium before low; a
      priority outside the four ranks as low. */
  function PriorityRank(priority: string): (r: int)
    ensures 0 <= r <= 3
    ensures r == 0 <==> priority == "critical"
    ensures r == 1 <==> priority == "high"
    ensures r == 2 <==> priority == "medium"
    ensures r == 3 <==> priority !in {"critical", "high", "medium"}
  {
    if priority == "critical" then 0
    else if priority == "high" then 1
    else if priority == "medium" then 2
    else 3
  }

  function TipRank(t: Tip): int {
    PriorityRank(t.priority)
  }

  /** The number of high predictions among the 10 newest of them, which is
      the count of all high predictions capped at 10. */
  function RecentHighDemandWeeks(ps: seq<PredictionRecord>): (n: nat)
    ensures n <= 10 && n <= CountWhere(ps, IsHighPrediction)
    ensures n < 10 ==> n == CountWhere(ps, IsHighPrediction)
  {
    var high := CountWhere(ps, IsHighPrediction);
    if high < 10 then high else 10
  }

  function SumConfidence(ps: seq<PredictionRecord>): real {
    if ps == [] then 0.0 else SumConfidence(ps[..|ps| - 1]) + ps[|ps| - 1].confidenceScore
  }

  /** The mean confidence of the 10 newest predictions; 0.5 when there are
      none, and also when the mean is 0 (the `or 0.5` default). */
  function AverageConfidence(ps: seq<PredictionRecord>): (a: real)
    ensures var recent := Take(ps, 10);
            && (recent == [] || SumConfidence(recent) == 0.0 ==> a == 0.5)
            && (recent != [] && SumConfidence(recent) != 0.0 ==> a * |recent| as real == SumConfidence(recent))
    ensures a != 0.0
  {
    var recent := Take(ps, 10);
    if recent == [] then 0.5
    else
      var mean := SumConfidence(recent) / |recent| as real;
      if mean == 0.0 then 0.5 else mean
  }

  /** A condition on a decimal field that Python reads as true: not zero. */
  predicate Truthy(x: real) {
    x != 0.0
  }

  /** What the contextual tips depend on: the newest week of market data,
      the high predictions among the 10 newest and their mean confidence. */
  datatype TipContext = TipContext(latest: Option<MM.MarketData>, highDemandWeeks: nat, avgConfidence: real)

  function ContextOf(records: seq<MM.MarketData>, predictions: seq<PredictionRecord>): (c: TipContext)
    ensures c.latest.Some? <==> records != []
    ensures c.latest.Some? ==> c.latest.value == records[0]
    ensures c.highDemandWeeks == RecentHighDemandWeeks(predictions)
    ensures c.avgConfidence == AverageConfidence(predictions)
  {
    TipContext(if records == [] then None else Some(records[0]),
               RecentHighDemandWeeks(predictions), AverageConfidence(predictions))
  }

  /** The priority each tip carries. */
  function PriorityOf(k: TipKind): string {
    match k
    case PreventiveTreatment => "critical"
    case PlantInDrySeason | IncreaseIrrigation | EnsureDrainage | ConserveWater | ExpandProduction => "high"
    case UseOrganicFertiliser | ProtectFromCold | FocusOnQuality | PlanWithConfidence => "medium"
  }

  function TipOf(k: TipKind): Tip {
    Tip(k, PriorityOf(k))
  }

  /** When each tip is given, stated tip by tip. */
  predicate Applies(k: TipKind, c: TipContext) {
    match k
    case PlantInDrySeason | UseOrganicFertiliser => true
    case IncreaseIrrigation =>
      c.latest.Some? && Truthy(c.latest.value.temperature) && c.latest.value.temperature > 25.0
    case ProtectFromCold =>
      c.latest.Some? && Truthy(c.latest.value.temperature) && c.latest.value.temperature < 20.0
    case EnsureDrainage =>
      c.latest.Some? && Truthy(c.latest.value.rainfall) && c.latest.value.rainfall > 100.0
    case ConserveWater =>
      c.latest.Some? && Truthy(c.latest.value.rainfall) && c.latest.value.rainfall < 20.0
    case PreventiveTreatment => c.latest.Some? && c.latest.value.diseaseAlert == "Presence"
    case ExpandProduction => c.highDemandWeeks >= 3
    case FocusOnQuality => c.highDemandWeeks <= 1
    case PlanWithConfidence => c.avgConfidence > 0.8
  }

  /** The tips that depend on the data, in the order the view considers them. */
  const ContextualKinds: seq<TipKind> := [
    IncreaseIrrigation, ProtectFromCold, EnsureDrainage, ConserveWater,
    PreventiveTreatment, ExpandProduction, FocusOnQuality, PlanWithConfidence]

  /** The tips of `kinds` that apply, in the order of `kinds`. */
  function Given(kinds: seq<TipKind>, c: TipContext): seq<Tip> {
    if kinds == [] then []
    else Given(kinds[..|kinds| - 1], c) + Part(kinds[|kinds| - 1], c)
  }

  /** A tip is given exactly when its kind is considered and applies. */
  lemma {:induction false} GivenMembers(kinds: seq<TipKind>, c: TipContext)
    ensures forall k :: TipOf(k) in Given(kinds, c) <==> k in kinds && Applies(k, c)
    ensures forall t :: t in Given(kinds, c) ==> t == TipOf(t.kind) && t.kind in kinds
  {
    if kinds != [] {
      var init := kinds[..|kinds| - 1];
      GivenMembers(init, c);
      assert kinds == init + [kinds[|kinds| - 1]];
    }
  }

  predicate OrdinalsIncrease(kinds: seq<TipKind>) {
    forall i, j :: 0 <= i < j < |kinds| ==> Ordinal(kinds[i]) < Ordinal(kinds[j])
  }

  predicate TipOrdinalsIncrease(ts: seq<Tip>) {
    forall i, j :: 0 <= i < j < |ts| ==> Ordinal(ts[i].kind) < Ordinal(ts[j].kind)
  }

  /** The tips that apply keep the order in which they are considered. */
  lemma {:induction false} GivenOrdered(kinds: seq<TipKind>, c: TipContext)
    requires OrdinalsIncrease(kinds)
    ensures TipOrdinalsIncrease(Given(kinds, c))
  {
    if kinds != [] {
      var init := kinds[..|kinds| - 1];
      var last := kinds[|kinds| - 1];
      var front := Given(init, c);
      GivenOrdered(init, c);
      GivenMembers(init, c);
      forall i | 0 <= i < |front| ensures Ordinal(front[i].kind) < Ordinal(last) {
        assert front[i] in front;
        var m :| 0 <= m < |init| && init[m] == front[i].kind;
      }
    }
  }

  /** The tips given, before sorting, and the four shown. */
  datatype TipsResponse = TipsResponse(allTips: seq<Tip>, tips: seq<Tip>)

  /** Collects the base tips and the contextual ones (from the newest week,
      the high predictions and the mean confidence), sorts them stably by
      priority and keeps the first four. */
  method AgriculturalTips(records: seq<MM.MarketData>, predictions: seq<PredictionRecord>)
    returns (r: TipsResponse)
    ensures r.allTips == BaseTips + Given(ContextualKinds, ContextOf(records, predictions))
    ensures r.tips == Take(SortBy(r.allTips, TipRank), 4)
    ensures |r.tips| <= 4
  {
    ghost var c := ContextOf(records, predictions);
    var contextual: seq<Tip> := [];
    if records != [] {
      contextual := WeekTips(records[0], c);
    }
    assert contextual == WeekPart(c);
    var fromMarket := MarketTips(RecentHighDemandWeeks(predictions), AverageConfidence(predictions), c);
    contextual := contextual + fromMarket;
    GivenUnfolded(c);
    var allTips := BaseTips + contextual;
    r := TipsResponse(allTips, Take(SortBy(allTips, TipRank), 4));
  }

  /** The tips drawn from the newest week of market data: its temperature,
      its rainfall and its disease alert. */
  method WeekTips(latest: MM.MarketData, ghost c: TipContext) returns (ts: seq<Tip>)
    requires c.latest == Some(latest)
    ensures ts == WeekPart(c)
  {
    ts := [];
    if Truthy(latest.temperature) {
      if latest.temperature > 25.0 {
        ts := ts + [Tip(IncreaseIrrigation, "high")];
      } else if latest.temperature < 20.0 {
        ts := ts + [Tip(ProtectFromCold, "medium")];
      }
    }
    assert ts == Part(IncreaseIrrigation, c) + Part(ProtectFromCold, c);
    if Truthy(latest.rainfall) {
      if latest.rainfall > 100.0 {
        ts := ts + [Tip(EnsureDrainage, "high")];
      } else if latest.rainfall < 20.0 {
        ts := ts + [Tip(ConserveWater, "high")];
      }
    }
    assert ts == Part(IncreaseIrrigation, c) + Part(ProtectFromCold, c)
                 + Part(EnsureDrainage, c) + Part(ConserveWater, c);
    if latest.diseaseAlert == "Presence" {
      ts := ts + [Tip(PreventiveTreatment, "critical")];
    }
  }

  /** The tips drawn from the stored predictions: the count of high ones
      and their mean confidence. */
  method MarketTips(highDemandWeeks: nat, avgConfidence: real, ghost c: TipContext) returns (ts: seq<Tip>)
    requires c.highDemandWeeks == highDemandWeeks && c.avgConfidence == avgConfidence
    ensures ts == MarketPart(c)
  {
    ts := [];
    if highDemandWeeks >= 3 {
      ts := ts + [Tip(ExpandProduction, "high")];
    } else if highDemandWeeks <= 1 {
      ts := ts + [Tip(FocusOnQuality, "medium")];
    }
    assert ts == Part(ExpandProduction, c) + Part(FocusOnQuality, c);
    if avgConfidence > 0.8 {
      ts := ts + [Tip(PlanWithConfidence, "medium")];
    }
  }

  /** One kind's share of the contextual tips. */
  function Part(k: TipKind, c: TipContext): seq<Tip> {
    if Applies(k, c) then [TipOf(k)] else []
  }

  /** The contextual tips drawn from the newest week, kind by kind. */
  function WeekPart(c: TipContext): seq<Tip> {
    Part(IncreaseIrrigation, c) + Part(ProtectFromCold, c) + Part(EnsureDrainage, c)
    + Part(ConserveWater, c) + Part(PreventiveTreatment, c)
  }

  /** The contextual tips drawn from the predictions, kind by kind. */
  function MarketPart(c: TipContext): seq<Tip> {
    Part(ExpandProduction, c) + Part(FocusOnQuality, c) + Part(PlanWithConfidence, c)
  }

  /** Considering one more kind appends that kind's share. */
  lemma GivenSnoc(kinds: seq<TipKind>, k: TipKind, c: TipContext)
    ensures Given(kinds + [k], c) == Given(kinds, c) + Part(k, c)
  {
    assert (kinds + [k])[..|kinds|] == kinds;
  }

  /** Considering two lists of kinds one after the other gives the tips of
      the first, then those of the second. */
  lemma {:induction false} GivenAppend(a: seq<TipKind>, b: seq<TipKind>, c: TipContext)
    ensures Given(a + b, c) == Given(a, c) + Given(b, c)
  {
    if b == [] {
      assert a + b == a;
    } else {
      var init, k := b[..|b| - 1], b[|b| - 1];
      assert b == init + [k];
      assert a + b == (a + init) + [k];
      GivenAppend(a, init, c);
      GivenSnoc(a + init, k, c);
      GivenSnoc(init, k, c);
    }
  }

  lemma GivenThree(k1: TipKind, k2: TipKind, k3: TipKind, c: TipContext)
    ensures Given([k1, k2, k3], c) == Part(k1, c) + Part(k2, c) + Part(k3, c)
  {
    var s1, s2, s3 := [k1], [k1, k2], [k1, k2, k3];
    assert Given(s1, c) == Part(k1, c) by {
      assert s1[..0] == [];
      assert [] + Part(k1, c) == Part(k1, c);
    }
    assert Given(s2, c) == Given(s1, c) + Part(k2, c) by { assert s2[..1] == s1; }
    assert Given(s3, c) == Given(s2, c) + Part(k3, c) by { assert s3[..2] == s2; }
  }

  lemma GivenFive(k1: TipKind, k2: TipKind, k3: TipKind, k4: TipKind, k5: TipKind, c: TipContext)
    ensures Given([k1, k2, k3, k4, k5], c)
         == Part(k1, c) + Part(k2, c) + Part(k3, c) + Part(k4, c) + Part(k5, c)
  {
    var s3, s4, s5 := [k1, k2, k3], [k1, k2, k3, k4], [k1, k2, k3, k4, k5];
    GivenThree(k1, k2, k3, c);
    assert Given(s4, c) == Given(s3, c) + Part(k4, c) by { assert s4[..3] == s3; }
    assert Given(s5, c) == Given(s4, c) + Part(k5, c) by { assert s5[..4] == s4; }
  }

  /** The contextual tips written out kind by kind. */
  lemma GivenUnfolded(c: TipContext)
    ensures Given(ContextualKinds, c) == WeekPart(c) + MarketPart(c)
  {
    var week := [IncreaseIrrigation, ProtectFromCold, EnsureDrainage, ConserveWater, PreventiveTreatment];
    var market := [ExpandProduction, FocusOnQuality, PlanWithConfidence];
    assert ContextualKinds == week + market;
    GivenAppend(week, market, c);
    GivenFive(IncreaseIrrigation, ProtectFromCold, EnsureDrainage, ConserveWater, PreventiveTreatment, c);
    GivenThree(ExpandProduction, FocusOnQuality, PlanWithConfidence, c);
  }

  /** The base tips come first and every tip follows the order in which the
      view considers it, with the priority the view gives it. */
  lemma AllTipsInOrder(c: TipContext)
    ensures var all := BaseTips + Given(ContextualKinds, c);
      && all[..2] == BaseTips
      && TipOrdinalsIncrease(all)
      && forall t :: t in all ==> t == TipOf(t.kind)
  {
    BaseThenGiven(ContextualKinds, c);
  }

  lemma BaseThenGiven(kinds: seq<TipKind>, c: TipContext)
    requires OrdinalsIncrease(kinds)
    requires forall i :: 0 <= i < |kinds| ==> Ordinal(kinds[i]) >= 2
    ensures var all := BaseTips + Given(kinds, c);
      && all[..2] == BaseTips
      && TipOrdinalsIncrease(all)
      && forall t :: t in all ==> t == TipOf(t.kind)
  {
    var given := Given(kinds, c);
    GivenMembers(kinds, c);
    GivenOrdered(kinds, c);
    var all := BaseTips + given;
    forall i, j | 0 <= i < j < |all| ensures Ordinal(all[i].kind) < Ordinal(all[j].kind) {
      if j >= 2 && i < 2 {
        assert all[j] == given[j - 2] && all[j] in given;
        var m :| 0 <= m < |kinds| && kinds[m] == all[j].kind;
      } else if i >= 2 {
        assert all[i] == given[i - 2] && all[j] == given[j - 2];
      }
    }
  }

  /** A tip is among all the tips given exactly when it is a base tip or its
      kind is considered and applies. */
  lemma TipGivenIff(kinds: seq<TipKind>, c: TipContext, k: TipKind)
    ensures TipOf(k) in BaseTips + Given(kinds, c) <==> TipOf(k) in BaseTips || (k in kinds && Applies(k, c))
  {
    GivenMembers(kinds, c);
  }

  /** Each tip drawn from the newest week is given exactly under its
      condition on that week. */
  lemma WeekTipsGivenWhen(c: TipContext)
    ensures var all := BaseTips + Given(ContextualKinds, c);
      && (Tip(IncreaseIrrigation, "high") in all <==>
           c.latest.Some? && Truthy(c.latest.value.temperature) && c.latest.value.temperature > 25.0)
      && (Tip(ProtectFromCold, "medium") in all <==>
           c.latest.Some? && Truthy(c.latest.value.temperature) && c.latest.value.temperature < 20.0)
      && (Tip(EnsureDrainage, "high") in all <==>
           c.latest.Some? && Truthy(c.latest.value.rainfall) && c.latest.value.rainfall > 100.0)
      && (Tip(ConserveWater, "high") in all <==>
           c.latest.Some? && Truthy(c.latest.value.rainfall) && c.latest.value.rainfall < 20.0)
      && (Tip(PreventiveTreatment, "critical") in all <==>
           c.latest.Some? && c.latest.value.diseaseAlert == "Presence")
  {
    var ks := ContextualKinds;
    TipGivenIff(ks, c, IncreaseIrrigation);
    TipGivenIff(ks, c, ProtectFromCold);
    TipGivenIff(ks, c, EnsureDrainage);
    TipGivenIff(ks, c, ConserveWater);
    TipGivenIff(ks, c, PreventiveTreatment);
  }

  /** The market tips follow the count of high predictions, the planning tip
      the mean confidence. */
  lemma MarketTipsGivenWhen(c: TipContext)
    ensures var all := BaseTips + Given(ContextualKinds, c);
      && (Tip(ExpandProduction, "high") in all <==> c.highDemandWeeks >= 3)
      && (Tip(FocusOnQuality, "medium") in all <==> c.highDemandWeeks <= 1)
      && (Tip(PlanWithConfidence, "medium") in all <==> c.avgConfidence > 0.8)
  {
    var ks := ContextualKinds;
    TipGivenIff(ks, c, ExpandProduction);
    TipGivenIff(ks, c, FocusOnQuality);
    TipGivenIff(ks, c, PlanWithConfidence);
  }

  /** The same conditions, on the data the view reads. */
  lemma AllTipsGiven(records: seq<MM.MarketData>, predictions: seq<PredictionRecord>)
    ensures var all := BaseTips + Given(ContextualKinds, ContextOf(records, predictions));
      && (Tip(IncreaseIrrigation, "high") in all <==>
           records != [] && Truthy(records[0].temperature) && records[0].temperature > 25.0)
      && (Tip(ProtectFromCold, "medium") in all <==>
           records != [] && Truthy(records[0].temperature) && records[0].temperature < 20.0)
      && (Tip(EnsureDrainage, "high") in all <==>
           records != [] && Truthy(records[0].rainfall) && records[0].rainfall > 100.0)
      && (Tip(ConserveWater, "high") in all <==>
           records != [] && Truthy(records[0].rainfall) && records[0].rainfall < 20.0)
      && (Tip(PreventiveTreatment, "critical") in all <==>
           records != [] && records[0].diseaseAlert == "Presence")
      && (Tip(ExpandProduction, "high") in all <==> RecentHighDemandWeeks(predictions) >= 3)
      && (Tip(FocusOnQuality, "medium") in all <==> RecentHighDemandWeeks(predictions) <= 1)
      && (Tip(PlanWithConfidence, "medium") in all <==> AverageConfidence(predictions) > 0.8)
  {
    WeekTipsGivenWhen(ContextOf(records, predictions));
    MarketTipsGivenWhen(ContextOf(records, predictions));
  }

  /** With a disease alert in the newest week the view shows the treatment
      tip first; without one it shows the dry-season tip first. */
  lemma FirstShownTip(c: TipContext)
    ensures var shown := Take(SortBy(BaseTips + Given(ContextualKinds, c), TipRank), 4);
      && |shown| > 0
      && (c.latest.Some? && c.latest.value.diseaseAlert == "Presence" ==>
            shown[0] == Tip(PreventiveTreatment, "critical"))
      && (!(c.latest.Some? && c.latest.value.diseaseAlert == "Presence") ==>
            shown[0] == Tip(PlantInDrySeason, "high"))
  {
    var all := BaseTips + Given(ContextualKinds, c);
    AllTipsInOrder(c);
    WeekTipsGivenWhen(c);
    forall i | 0 <= i < |all| && all[i].priority == "critical"
      ensures all[i] == Tip(PreventiveTreatment, "critical")
    {
      assert all[i] in all;
    }
    if c.latest.Some? && c.latest.value.diseaseAlert == "Presence" {
      DiseaseTipFirst(all);
    } else {
      forall i | 0 <= i < |all| ensures all[i].priority != "critical" {
        assert all[i] in all;
      }
      DrySeasonTipFirstWithoutAlert(all);
    }
  }

  /** The shown tips are in priority order. */
  lemma ShownTipsSorted(allTips: seq<Tip>)
    ensures SortedBy(Take(SortBy(allTips, TipRank), 4), TipRank)
  {
    SortByCorrect(allTips, TipRank);
  }

  /** A disease alert, the only critical tip, is always shown first. */
  lemma DiseaseTipFirst(allTips: seq<Tip>)
    requires Tip(PreventiveTreatment, "critical") in allTips
    requires forall i :: 0 <= i < |allTips| && allTips[i].priority == "critical" ==>
               allTips[i] == Tip(PreventiveTreatment, "critical")
    ensures var shown := Take(SortBy(allTips, TipRank), 4);
            |shown| > 0 && shown[0] == Tip(PreventiveTreatment, "critical")
  {
    var sorted := SortBy(allTips, TipRank);
    var alert := Tip(PreventiveTreatment, "critical");
    SortByCorrect(allTips, TipRank);
    assert alert in multiset(sorted);
    var k :| 0 <= k < |sorted| && sorted[k] == alert;
    assert TipRank(sorted[0]) <= TipRank(sorted[k]) == 0;
    assert sorted[0] in multiset(allTips);
    var m :| 0 <= m < |allTips| && allTips[m] == sorted[0];
  }

  /** Without a disease alert the first base tip leads: nothing outranks
      'high', and the stable sort keeps it ahead of the other high tips. */
  lemma DrySeasonTipFirstWithoutAlert(allTips: seq<Tip>)
    requires |allTips| >= 2 && allTips[..2] == BaseTips
    requires forall i :: 0 <= i < |allTips| ==> allTips[i].priority != "critical"
    ensures var shown := Take(SortBy(allTips, TipRank), 4);
            |shown| > 0 && shown[0] == Tip(PlantInDrySeason, "high")
  {
    var sorted := SortBy(allTips, TipRank);
    var first := Tip(PlantInDrySeason, "high");
    assert allTips[0] == first;
    SortByCorrect(allTips, TipRank);
    assert first in multiset(sorted);
    var k :| 0 <= k < |sorted| && sorted[k] == first;
    assert TipRank(sorted[0]) <= 1;
    assert sorted[0] in multiset(allTips);
    var m :| 0 <= m < |allTips| && allTips[m] == sorted[0];
    assert TipRank(sorted[0]) == 1;
    WithKeyHead(sorted, TipRank);
    WithKeyHead(allTips, TipRank);
    assert WithKey(sorted, TipRank, 1) == WithKey(allTips, TipRank, 1);
  }
}
