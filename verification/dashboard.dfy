/** The dashboard's synthetic data pipeline: a period token selects a sampling
    window, the window drives a countdown of day offsets, each offset becomes a
    metric record, and the series is reduced to the headline totals. The
    traffic-mix and team tables are keyed by the same token. Randomness and
    `Math.sin` are parameters of the model; dates are whole days before today. */
module Dashboard {
  import opened JsNumber
  import opened Optional

  // ---------------------------------------------------------------------------
  // Period resolver

  /** The tokens the period buttons produce. */
  const Tokens: seq<string> := ["1w", "1m", "3m", "6m"]

  /** How far back a series reaches and how many days separate two samples. */
  datatype Window = Window(days: nat, interval: nat)

  /** The period `switch` of `generateData`; any other token takes the default arm. */
  function ResolvePeriod(token: string): (w: Window)
    ensures 1 <= w.interval <= w.days
  {
    match token
    case "1w" => Window(7, 1)
    case "1m" => Window(30, 1)
    case "3m" => Window(90, 3)
    case "6m" => Window(180, 7)
    case _ => Window(30, 1)
  }

  // ---------------------------------------------------------------------------
  // Sample offsets

  /** The values of `i` visited by `for (let i = from; i >= 0; i -= interval)`. */
  function Countdown(from: int, interval: nat): (c: seq<int>)
    requires interval >= 1
    ensures from < 0 <==> c == []
    decreases from + interval
  {
    if from < 0 then [] else [from] + Countdown(from - interval, interval)
  }

  /** The countdown starts at `from`, steps down by exactly `interval`, never
      goes below zero, and ends at the remainder `from % interval` — which is
      zero only when the interval divides the day count. */
  lemma CountdownShape(from: int, interval: nat)
    requires interval >= 1 && from >= 0
    ensures var c := Countdown(from, interval);
            && |c| == from / interval + 1
            && c[0] == from
            && c[|c| - 1] == from % interval
            && (forall j :: 0 <= j < |c| ==> 0 <= c[j] <= from)
            && (forall j :: 0 <= j < |c| - 1 ==> c[j + 1] == c[j] - interval)
  {
    CountdownCount(from, interval);
    CountdownSteps(from, interval);
  }

  /** How many offsets the countdown visits, and the last one. */
  lemma {:induction false} CountdownCount(from: int, interval: nat)
    requires interval >= 1 && from >= 0
    ensures |Countdown(from, interval)| == from / interval + 1
    ensures Countdown(from, interval)[|Countdown(from, interval)| - 1] == from % interval
    decreases from
  {
    var c := Countdown(from, interval);
    if from < interval {
      assert Countdown(from - interval, interval) == [];
      assert c == [from];
      assert from / interval == 0 && from % interval == from;
    } else {
      var rest := Countdown(from - interval, interval);
      assert c == [from] + rest;
      CountdownCount(from - interval, interval);
      DivModStep(from, interval);
      assert c[|c| - 1] == rest[|rest| - 1];
    }
  }

  /** The countdown starts at `from`, stays in [0, from] and steps down by `interval`. */
  lemma {:induction false} CountdownSteps(from: int, interval: nat)
    requires interval >= 1 && from >= 0
    ensures var c := Countdown(from, interval);
            && |c| >= 1 && c[0] == from
            && (forall j :: 0 <= j < |c| ==> 0 <= c[j] <= from)
            && (forall j :: 0 <= j < |c| - 1 ==> c[j + 1] == c[j] - interval)
    decreases from
  {
    var c := Countdown(from, interval);
    var rest := Countdown(from - interval, interval);
    assert c == [from] + rest;
    if from >= interval {
      CountdownSteps(from - interval, interval);
      forall j | 0 <= j < |c|
        ensures 0 <= c[j] <= from
      {
        if j > 0 {
          assert c[j] == rest[j - 1];
        }
      }
      forall j | 0 <= j < |c| - 1
        ensures c[j + 1] == c[j] - interval
      {
        if j > 0 {
          assert c[j] == rest[j - 1] && c[j + 1] == rest[j];
        }
      }
    } else {
      assert rest == [];
    }
  }

  /** Removing one `k` from `a >= k` lowers the quotient by one and keeps the remainder. */
  lemma DivModStep(a: int, k: nat)
    requires k >= 1 && a >= k
    ensures (a - k) / k == a / k - 1
    ensures (a - k) % k == a % k
  {
    var q, r := a / k, a % k;
    assert a == q * k + r && 0 <= r < k;
    assert a - k == (q - 1) * k + r;
    DivModUnique(a - k, k, q - 1, r);
  }

  lemma DivModUnique(a: int, k: nat, q: int, r: int)
    requires k >= 1 && a == q * k + r && 0 <= r < k
    ensures a / k == q && a % k == r
  {
    var q', r' := a / k, a % k;
    assert (q - q') * k == r' - r;
    if q > q' {
      MulAtLeast(q - q', k);
    } else if q < q' {
      MulAtLeast(q' - q, k);
    }
  }

  lemma {:induction false} MulAtLeast(d: int, k: nat)
    requires d >= 1
    ensures d * k >= k
    decreases d
  {
    if d > 1 {
      MulAtLeast(d - 1, k);
      assert d * k == (d - 1) * k + k;
    }
  }

  /** The offsets a token's series is sampled at, oldest first. */
  function Offsets(token: string): seq<int>
  {
    Countdown(ResolvePeriod(token).days, ResolvePeriod(token).interval)
  }

  /** The sample loop of `generateData`, run as written. */
  method SampleOffsets(w: Window) returns (offsets: seq<int>)
    requires w.interval >= 1
    ensures offsets == Countdown(w.days, w.interval)
    ensures |offsets| == w.days / w.interval + 1
    ensures offsets[|offsets| - 1] == w.days % w.interval
  {
    offsets := [];
    var i: int := w.days;
    while i >= 0
      invariant i <= w.days
      invariant offsets + Countdown(i, w.interval) == Countdown(w.days, w.interval)
      decreases i + w.interval
    {
      assert Countdown(i, w.interval) == [i] + Countdown(i - w.interval, w.interval);
      offsets := offsets + [i];
      i := i - w.interval;
    }
    CountdownShape(w.days, w.interval);
  }

  /** The sample count of each period and where each series ends: the 6-month
      series has 26 samples and stops 5 days before today. */
  lemma PeriodSamples()
    ensures |Offsets("1w")| == 8 && Offsets("1w")[7] == 0
    ensures |Offsets("1m")| == 31 && Offsets("1m")[30] == 0
    ensures |Offsets("3m")| == 31 && Offsets("3m")[30] == 0
    ensures |Offsets("6m")| == 26 && Offsets("6m")[25] == 5
  {
    CountdownShape(7, 1);
    CountdownShape(30, 1);
    CountdownShape(90, 3);
    CountdownShape(180, 7);
  }

  // ---------------------------------------------------------------------------
  // Metric records

  /** The five `Math.random()` values one sample consumes, in source order. */
  datatype Draws = Draws(revenue: real, visitors: real, conversions: real, ctr: real, bounce: real)

  predicate UnitDraw(r: real) {
    0.0 <= r < 1.0
  }

  predicate ValidDraws(d: Draws) {
    UnitDraw(d.revenue) && UnitDraw(d.visitors) && UnitDraw(d.conversions)
    && UnitDraw(d.ctr) && UnitDraw(d.bounce)
  }

  /** What the model assumes of `Math.sin`: its values lie in [-1, 1]. */
  ghost predicate SineBounded(sin: real -> real) {
    forall x :: -1.0 <= sin(x) <= 1.0
  }

  /** One sample; `daysAgo` is the `i` whose date, today minus `i` days, labels it. */
  datatype Record = Record(daysAgo: int, revenue: int, visitors: int, conversions: int,
                           ctr: real, bounceRate: real)

  function RawRevenue(i: int, d: Draws, sin: real -> real): real {
    1000.0 + d.revenue * 2000.0 + sin(i as real * 0.1) * 500.0
  }

  function RawVisitors(i: int, d: Draws, sin: real -> real): real {
    500.0 + d.visitors * 1000.0 + sin(i as real * 0.15) * 300.0
  }

  function RawConversions(i: int, d: Draws, sin: real -> real): real {
    50.0 + d.conversions * 200.0 + sin(i as real * 0.2) * 100.0
  }

  /** The record pushed for offset `i`; `ctr` and `bounceRate` hold the numbers
      their `toFixed(2)` and `toFixed(1)` strings denote. */
  function MakeRecord(i: int, d: Draws, sin: real -> real): (r: Record)
    ensures r.daysAgo == i
    ensures ValidDraws(d) && SineBounded(sin) ==> InRange(r) && r.revenue > 0 && r.visitors > 0
  {
    RoundedInRange(i, d, sin);
    Record(i,
           Round(RawRevenue(i, d, sin)),
           Round(RawVisitors(i, d, sin)),
           Round(RawConversions(i, d, sin)),
           Fixed(2.0 + d.ctr * 3.0, 2),
           Fixed(30.0 + d.bounce * 20.0, 1))
  }

  /** The values before rounding: revenue in [500, 3500), visitors in
      [200, 1800), conversions in [-50, 350), ctr in [2, 5), bounce in [30, 50). */
  lemma RawBounds(i: int, d: Draws, sin: real -> real)
    requires ValidDraws(d) && SineBounded(sin)
    ensures 500.0 <= RawRevenue(i, d, sin) < 3500.0
    ensures 200.0 <= RawVisitors(i, d, sin) < 1800.0
    ensures -50.0 <= RawConversions(i, d, sin) < 350.0
    ensures 2.0 <= 2.0 + d.ctr * 3.0 < 5.0
    ensures 30.0 <= 30.0 + d.bounce * 20.0 < 50.0
  {
    var s1, s2, s3 := sin(i as real * 0.1), sin(i as real * 0.15), sin(i as real * 0.2);
    assert -1.0 <= s1 <= 1.0 && -1.0 <= s2 <= 1.0 && -1.0 <= s3 <= 1.0;
  }

  /** The range every record lies in once rounded. */
  predicate InRange(r: Record) {
    && 500 <= r.revenue <= 3500
    && 200 <= r.visitors <= 1800
    && -50 <= r.conversions <= 350
    && 2.0 <= r.ctr <= 5.0
    && 30.0 <= r.bounceRate <= 50.0
  }

  /** The rounded fields of a record built from valid draws stay in range. */
  lemma RoundedInRange(i: int, d: Draws, sin: real -> real)
    ensures ValidDraws(d) && SineBounded(sin) ==>
              && 500 <= Round(RawRevenue(i, d, sin)) <= 3500
              && 200 <= Round(RawVisitors(i, d, sin)) <= 1800
              && -50 <= Round(RawConversions(i, d, sin)) <= 350
              && 2.0 <= Fixed(2.0 + d.ctr * 3.0, 2) <= 5.0
              && 30.0 <= Fixed(30.0 + d.bounce * 20.0, 1) <= 50.0
  {
    if ValidDraws(d) && SineBounded(sin) {
      RawBounds(i, d, sin);
      RoundWithin(RawRevenue(i, d, sin), 500, 3500);
      RoundWithin(RawVisitors(i, d, sin), 200, 1800);
      RoundWithin(RawConversions(i, d, sin), -50, 350);
      FixedWithin(2.0 + d.ctr * 3.0, 2, 2, 5);
      FixedWithin(30.0 + d.bounce * 20.0, 1, 30, 50);
    }
  }

  /** Conversions are not clamped: the lowest base draw at an offset whose sine
      is close to -1 (i = 24 gives sin(4.8), about -0.9962) yields -50. */
  lemma ConversionsMayBeNegative()
    ensures var sin := (x: real) => -0.9962;
            && SineBounded(sin)
            && ValidDraws(Draws(0.0, 0.0, 0.0, 0.0, 0.0))
            && MakeRecord(24, Draws(0.0, 0.0, 0.0, 0.0, 0.0), sin).conversions == -50
  {
    var sin := (x: real) => -0.9962;
    assert RawConversions(24, Draws(0.0, 0.0, 0.0, 0.0, 0.0), sin) == -49.62;
  }

  /** `generateData(token)`: one record per offset, oldest first, the `j`-th
      record consuming the `j`-th set of draws. */
  function GenerateData(token: string, draws: seq<Draws>, sin: real -> real): (data: seq<Record>)
    requires |draws| == |Offsets(token)|
    ensures |data| == |draws| == ResolvePeriod(token).days / ResolvePeriod(token).interval + 1
    ensures data[0].daysAgo == ResolvePeriod(token).days
    ensures data[|data| - 1].daysAgo == ResolvePeriod(token).days % ResolvePeriod(token).interval
    ensures forall j :: 0 <= j < |data| - 1 ==>
              data[j + 1].daysAgo == data[j].daysAgo - ResolvePeriod(token).interval
    ensures forall j, k :: 0 <= j < k < |data| ==> data[j].daysAgo > data[k].daysAgo
    ensures forall j :: 0 <= j < |data| ==> data[j] == MakeRecord(Offsets(token)[j], draws[j], sin)
  {
    OffsetsShape(token);
    seq(|draws|, j requires 0 <= j < |draws| => MakeRecord(Offsets(token)[j], draws[j], sin))
  }

  /** `CountdownShape` for the offsets of a token, with the order it implies. */
  lemma OffsetsShape(token: string)
    ensures var offs, w := Offsets(token), ResolvePeriod(token);
            && |offs| == w.days / w.interval + 1
            && offs[0] == w.days
            && offs[|offs| - 1] == w.days % w.interval
            && (forall j :: 0 <= j < |offs| - 1 ==> offs[j + 1] == offs[j] - w.interval)
            && (forall j, k :: 0 <= j < k < |offs| ==> offs[j] > offs[k])
  {
    var w := ResolvePeriod(token);
    CountdownShape(w.days, w.interval);
    StepsDecrease(Offsets(token), w.interval);
  }

  lemma StepsDecrease(c: seq<int>, interval: nat)
    requires interval >= 1
    requires forall j :: 0 <= j < |c| - 1 ==> c[j + 1] == c[j] - interval
    ensures forall j, k :: 0 <= j < k < |c| ==> c[j] > c[k]
  {
    forall j, k | 0 <= j < k < |c|
      ensures c[j] > c[k]
    {
      var m := j;
      while m < k
        invariant j <= m <= k
        invariant c[j] >= c[m] + (m - j)
      {
        m := m + 1;
      }
    }
  }

  /** With valid draws and a bounded sine, every generated record is in range. */
  lemma SeriesInRange(token: string, draws: seq<Draws>, sin: real -> real)
    requires |draws| == |Offsets(token)|
    requires forall j :: 0 <= j < |draws| ==> ValidDraws(draws[j])
    requires SineBounded(sin)
    ensures forall j :: 0 <= j < |draws| ==> InRange(GenerateData(token, draws, sin)[j])
  {
    var data := GenerateData(token, draws, sin);
    forall j | 0 <= j < |draws|
      ensures InRange(data[j])
    {
      assert data[j] == MakeRecord(Offsets(token)[j], draws[j], sin);
    }
  }

  // ---------------------------------------------------------------------------
  // Traffic mix

  /** A named pie slice. */
  datatype Slice = Slice(name: string, value: int)

  const MixTable: map<string, seq<int>> :=
    map["1w" := [45, 30, 25], "1m" := [40, 35, 25], "3m" := [35, 40, 25], "6m" := [30, 45, 25]]

  /** `baseValues[period] || baseValues['1m']`. */
  function MixRow(token: string): (row: seq<int>)
    ensures |row| == 3
    ensures row[0] + row[1] + row[2] == 100 && row[2] == 25
  {
    if token in MixTable then MixTable[token] else MixTable["1m"]
  }

  /** `generatePieData(token)`: Organic, Paid and Direct shares that always add
      up to 100, Direct fixed at 25; an unknown token gets the 1-month mix. */
  function TrafficMix(token: string): (mix: seq<Slice>)
    ensures |mix| == 3
    ensures mix[0].name == "Organic" && mix[1].name == "Paid" && mix[2].name == "Direct"
    ensures mix[0].value + mix[1].value + mix[2].value == 100
    ensures mix[2].value == 25
  {
    var values := MixRow(token);
    [Slice("Organic", values[0]), Slice("Paid", values[1]), Slice("Direct", values[2])]
  }

  // ---------------------------------------------------------------------------
  // Team performance

  const TeamNames: seq<string> := ["Marketing", "Sales", "Support", "Development"]

  const TeamTarget: int := 2500

  const MultiplierTable: map<string, seq<real>> :=
    map["1w" := [1.0, 0.8, 1.2, 0.9], "1m" := [1.1, 0.9, 1.1, 1.0],
        "3m" := [1.2, 1.0, 1.0, 1.1], "6m" := [1.3, 1.1, 0.9, 1.2]]

  /** `multipliers[period] || multipliers['1m']`. */
  function Multipliers(token: string): (m: seq<real>)
    ensures |m| == 4
    ensures forall j :: 0 <= j < 4 ==> 0.8 <= m[j] <= 1.3
  {
    if token in MultiplierTable then MultiplierTable[token] else MultiplierTable["1m"]
  }

  datatype TeamMetric = TeamMetric(name: string, performance: int, target: int)

  /** `generateTeamData(token)`, the `j`-th team consuming the `j`-th draw. */
  function TeamData(token: string, draws: seq<real>): (teams: seq<TeamMetric>)
    requires |draws| == 4
    ensures |teams| == 4
    ensures forall j :: 0 <= j < 4 ==> teams[j].name == TeamNames[j] && teams[j].target == 2500
  {
    var m := Multipliers(token);
    seq(4, j requires 0 <= j < 4 =>
      TeamMetric(TeamNames[j], Round(2000.0 + draws[j] * 3000.0 * m[j]), TeamTarget))
  }

  /** The multiplier scales only the random part, so performance never drops
      below 2000, and it stays at most 2000 + 3000 * 1.3. */
  lemma TeamPerformanceBounds(token: string, draws: seq<real>)
    requires |draws| == 4
    requires forall j :: 0 <= j < 4 ==> UnitDraw(draws[j])
    ensures forall j :: 0 <= j < 4 ==> 2000 <= TeamData(token, draws)[j].performance <= 5900
  {
    var m := Multipliers(token);
    forall j | 0 <= j < 4
      ensures 2000 <= TeamData(token, draws)[j].performance <= 5900
    {
      var spread := draws[j] * 3000.0;
      assert 0.0 <= spread < 3000.0;
      assert 0.0 <= spread * m[j] < 3000.0 * 1.3 by {
        assert spread * m[j] <= spread * 1.3;
      }
      RoundWithin(2000.0 + spread * m[j], 2000, 5900);
    }
  }

  /** A token the buttons never produce behaves exactly like the 1-month token
      in all three tables. */
  lemma UnknownTokenFallsBack(token: string, draws: seq<real>)
    requires token !in Tokens && |draws| == 4
    ensures ResolvePeriod(token) == ResolvePeriod("1m")
    ensures TrafficMix(token) == TrafficMix("1m")
    ensures TeamData(token, draws) == TeamData("1m", draws)
  {
    assert token !in MixTable && token !in MultiplierTable;
  }

  // ---------------------------------------------------------------------------
  // Aggregation

  datatype Metric = Revenue | Visitors | Conversions | Ctr

  function Value(r: Record, m: Metric): real {
    match m
    case Revenue => r.revenue as real
    case Visitors => r.visitors as real
    case Conversions => r.conversions as real
    case Ctr => r.ctr
  }

  /** `data.reduce((sum, item) => sum + field(item), acc)`: a left fold. */
  function Fold(acc: real, data: seq<Record>, m: Metric): (r: real)
    ensures r == acc + SumOf(data, m)
    decreases |data|
  {
    if |data| == 0 then acc
    else
      SumOfFirst(data, m);
      Fold(acc + Value(data[0], m), data[1..], m)
  }

  /** A headline total: the fold started at 0, which is the plain sum. */
  function Total(data: seq<Record>, m: Metric): (t: real)
    ensures t == SumOf(data, m)
  {
    Fold(0.0, data, m)
  }

  /** Reference sum, peeling the last record off instead of the first. */
  function SumOf(data: seq<Record>, m: Metric): real
    decreases |data|
  {
    if |data| == 0 then 0.0 else SumOf(data[..|data| - 1], m) + Value(data[|data| - 1], m)
  }

  /** The reference sum also splits off the first record. */
  lemma {:induction false} SumOfFirst(data: seq<Record>, m: Metric)
    requires |data| > 0
    ensures SumOf(data, m) == Value(data[0], m) + SumOf(data[1..], m)
    decreases |data|
  {
    if |data| > 1 {
      var init := data[..|data| - 1];
      SumOfFirst(init, m);
      assert init[0] == data[0];
      assert init[1..] == data[1..][..|data[1..]| - 1];
    } else {
      assert data[..0] == [] && data[1..] == [];
    }
  }

  /** Appending a record to the series grows each total by that record's field. */
  lemma TotalAppend(data: seq<Record>, r: Record, m: Metric)
    ensures Total(data + [r], m) == Total(data, m) + Value(r, m)
  {
    assert (data + [r])[..|data|] == data;
  }

  /** Three records of revenue 100, 200 and 300 total 600. */
  lemma RevenueTotalExample()
    ensures Total([Record(2, 100, 0, 0, 2.0, 30.0), Record(1, 200, 0, 0, 2.0, 30.0),
                   Record(0, 300, 0, 0, 2.0, 30.0)], Revenue) == 600.0
  {
  }

  /** `avgCTR`: the mean parsed ctr, undefined (NaN in the source) on the empty
      series the dashboard starts with. */
  function AverageCtr(data: seq<Record>): (avg: Option<real>)
    ensures avg.None? <==> |data| == 0
    ensures avg.Some? ==> avg.value * (|data| as real) == SumOf(data, Ctr)
  {
    if |data| == 0 then None else Some(Total(data, Ctr) / (|data| as real))
  }

  /** Bounds on every ctr bound the sum by the count times those bounds. */
  lemma {:induction false} SumWithin(data: seq<Record>, lo: real, hi: real)
    requires forall j :: 0 <= j < |data| ==> lo <= data[j].ctr <= hi
    ensures lo * (|data| as real) <= SumOf(data, Ctr) <= hi * (|data| as real)
    decreases |data|
  {
    if |data| > 0 {
      SumWithin(data[..|data| - 1], lo, hi);
    }
  }

  /** The mean of a non-empty in-range series is itself in [2, 5]. */
  lemma AverageCtrWithin(data: seq<Record>)
    requires |data| > 0
    requires forall j :: 0 <= j < |data| ==> InRange(data[j])
    ensures 2.0 <= AverageCtr(data).value <= 5.0
  {
    SumWithin(data, 2.0, 5.0);
    MeanWithin(SumOf(data, Ctr), |data| as real, 2.0, 5.0);
    assert AverageCtr(data).value == Total(data, Ctr) / (|data| as real);
  }

  lemma MeanWithin(sum: real, n: real, lo: real, hi: real)
    requires n > 0.0 && lo * n <= sum <= hi * n
    ensures lo <= sum / n <= hi
  {
  }

  // ---------------------------------------------------------------------------
  // CTR chart window

  /** `data.slice(-k)`: the last `min(k, |data|)` elements, in their order.
      `-0` is `0` to `slice`, so `k == 0` keeps the whole series. */
  function TakeLast<T>(data: seq<T>, k: nat): (w: seq<T>)
    ensures k == 0 ==> w == data
    ensures |w| == if k == 0 || |data| < k then |data| else k
    ensures forall j :: 0 <= j < |w| ==> w[j] == data[|data| - |w| + j]
  {
    data[(if k == 0 || |data| < k then 0 else |data| - k)..]
  }

  /** The records the CTR bar chart shows: the last seven, or all when fewer. */
  function CtrWindow(data: seq<Record>): (w: seq<Record>)
    ensures |w| == if |data| < 7 then |data| else 7
    ensures forall j :: 0 <= j < |w| ==> w[j] == data[|data| - |w| + j]
  {
    TakeLast(data, 7)
  }
}
