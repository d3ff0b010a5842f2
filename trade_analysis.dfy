/** The square-root-free part of the `TradeAnalysis` statistics class: the
    running cumulative P&L, win/loss counts and rates, averages and the
    ratios built on them, the drawdown list, maximum drawdown, MAR and the
    underwater graph. The object's two lists are only read, so the object is
    a value; the accumulator loops of the source are methods proved equal to
    the functions that specify them. */
module TradeAnalysis {
  import opened Numeric

  /** Trading days per year, the annualisation factor of MAR. */
  const TradingDays: real := 252.0

  /** The `series_type` selector, resolved once from its string. */
  datatype SeriesType = PnL | Returns

  /** An analysis object: the P&L series and the returns series it was built with. */
  datatype Analysis = Analysis(pnlList: seq<real>, returnsList: seq<real>)

  /** Only "P&L" and "Returns" name a series; any other string fails. */
  function ParseSeriesType(name: string): (r: Result<SeriesType>)
    ensures r == Ok(PnL) <==> name == "P&L"
    ensures r == Ok(Returns) <==> name == "Returns"
    ensures r.Err? <==> name != "P&L" && name != "Returns"
    ensures r.Err? ==> r.error == UnknownSeriesType(name)
  {
    if name == "P&L" then Ok(PnL)
    else if name == "Returns" then Ok(Returns)
    else Err(UnknownSeriesType(name))
  }

  /** The stored list a selector names. */
  function Series(a: Analysis, t: SeriesType): seq<real>
  {
    match t
    case PnL => a.pnlList
    case Returns => a.returnsList
  }

  /** `get_series` on the selector string: the chosen list, or a failure. */
  function GetSeries(a: Analysis, name: string): (r: Result<seq<real>>)
    ensures r.Ok? <==> name == "P&L" || name == "Returns"
    ensures name == "P&L" ==> r == Ok(a.pnlList)
    ensures name == "Returns" ==> r == Ok(a.returnsList)
  {
    match ParseSeriesType(name)
    case Ok(t) => Ok(Series(a, t))
    case Err(e) => Err(e)
  }

  // ---------------------------------------------------------------------
  // Running cumulative sum

  lemma PrefixSlices(s: seq<real>)
    requires |s| > 0
    ensures forall i {:trigger s[..i + 1]} :: 0 <= i < |s| - 1 ==> s[..|s| - 1][..i + 1] == s[..i + 1]
    ensures s[..|s|] == s
  {
  }

  /** Element i of the running list is the total of the first i + 1 entries. */
  function RunningSums(s: seq<real>): (r: seq<real>)
    ensures |r| == |s|
    ensures forall i :: 0 <= i < |s| ==> r[i] == Sum(s[..i + 1])
  {
    if |s| == 0 then []
    else
      PrefixSlices(s);
      RunningSums(s[..|s| - 1]) + [Sum(s)]
  }

  method CalcRunningPnlList(a: Analysis, t: SeriesType) returns (running: seq<real>)
    ensures running == RunningSums(Series(a, t))
    ensures |running| == |Series(a, t)|
    ensures |running| > 0 ==> running[|running| - 1] == Sum(Series(a, t))
  {
    var series := Series(a, t);
    running := [];
    var counter := 0.0;
    var i := 0;
    while i < |series|
      invariant 0 <= i <= |series|
      invariant counter == Sum(series[..i])
      invariant running == RunningSums(series[..i])
    {
      counter := counter + series[i];
      assert series[..i + 1][..i] == series[..i];
      running := running + [counter];
      i := i + 1;
    }
    assert series[..i] == series;
  }

  // ---------------------------------------------------------------------
  // Wins, losses and trades

  /** The strictly positive entries, in order (`positive_pnl_list`). */
  function Positives(s: seq<real>): (r: seq<real>)
    ensures |r| <= |s|
    ensures forall i :: 0 <= i < |r| ==> r[i] > 0.0
  {
    if |s| == 0 then []
    else Positives(s[..|s| - 1]) + (if s[|s| - 1] > 0.0 then [s[|s| - 1]] else [])
  }

  /** The strictly negative entries, in order (`negative_pnl_list`). */
  function Negatives(s: seq<real>): (r: seq<real>)
    ensures |r| <= |s|
    ensures forall i :: 0 <= i < |r| ==> r[i] < 0.0
  {
    if |s| == 0 then []
    else Negatives(s[..|s| - 1]) + (if s[|s| - 1] < 0.0 then [s[|s| - 1]] else [])
  }

  /** The zero entries, which count neither as a win nor as a loss. */
  function Zeros(s: seq<real>): (z: seq<real>)
    ensures |z| <= |s|
    ensures forall i :: 0 <= i < |z| ==> z[i] == 0.0
  {
    if |s| == 0 then []
    else Zeros(s[..|s| - 1]) + (if s[|s| - 1] == 0.0 then [0.0] else [])
  }

  /** Every entry is a win, a loss or a zero. */
  lemma {:induction false} WinsLossesZerosPartition(s: seq<real>)
    ensures |Positives(s)| + |Negatives(s)| + |Zeros(s)| == |s|
  {
    if |s| > 0 {
      WinsLossesZerosPartition(s[..|s| - 1]);
    }
  }

  /** There are no wins and no losses exactly when every entry is zero. */
  lemma {:induction false} NoTradesIffAllFlat(s: seq<real>)
    ensures |Positives(s)| + |Negatives(s)| == 0 <==> forall i :: 0 <= i < |s| ==> s[i] == 0.0
  {
    if |s| > 0 {
      var prefix := s[..|s| - 1];
      NoTradesIffAllFlat(prefix);
      assert forall i :: 0 <= i < |prefix| ==> prefix[i] == s[i];
    }
  }

  method CalcNumWins(a: Analysis, t: SeriesType) returns (numWins: nat)
    ensures numWins == |Positives(Series(a, t))|
  {
    var series := Series(a, t);
    numWins := 0;
    var i := 0;
    while i < |series|
      invariant 0 <= i <= |series|
      invariant numWins == |Positives(series[..i])|
    {
      assert series[..i + 1][..i] == series[..i];
      if series[i] > 0.0 {
        numWins := numWins + 1;
      }
      i := i + 1;
    }
    assert series[..i] == series;
  }

  method CalcNumLosses(a: Analysis, t: SeriesType) returns (numLosses: nat)
    ensures numLosses == |Negatives(Series(a, t))|
  {
    var series := Series(a, t);
    numLosses := 0;
    var i := 0;
    while i < |series|
      invariant 0 <= i <= |series|
      invariant numLosses == |Negatives(series[..i])|
    {
      assert series[..i + 1][..i] == series[..i];
      if series[i] < 0.0 {
        numLosses := numLosses + 1;
      }
      i := i + 1;
    }
    assert series[..i] == series;
  }

  /** `calc_num_trades`: wins plus losses, i.e. the nonzero entries; at most
      the series length, and zero exactly when every entry is zero. */
  function NumTrades(s: seq<real>): (r: nat)
    ensures r == |s| - |Zeros(s)|
    ensures r == 0 <==> forall i :: 0 <= i < |s| ==> s[i] == 0.0
  {
    WinsLossesZerosPartition(s);
    NoTradesIffAllFlat(s);
    |Positives(s)| + |Negatives(s)|
  }

  // ---------------------------------------------------------------------
  // Rates, averages and ratios

  /** wins / float(wins + losses) for at least one of them: a fraction in
      [0, 1] that is 1 exactly when there are no losses. */
  function WinFraction(wins: nat, losses: nat): (r: real)
    requires wins + losses > 0
    ensures 0.0 <= r <= 1.0
    ensures r == 1.0 <==> losses == 0
    ensures r * ((wins + losses) as real) == wins as real
  {
    var t := (wins + losses) as real;
    var f := (wins as real) / t;
    assert f * t == wins as real;
    assert f == 1.0 ==> t == wins as real;
    f
  }

  /** `calc_win_rate`: wins / (wins + losses); dividing by zero trades raises. */
  function WinRate(s: seq<real>): (r: Result<real>)
    ensures r.Err? <==> NumTrades(s) == 0
    ensures r.Err? ==> r.error == ZeroDivision
    ensures r.Ok? ==> 0.0 <= r.value <= 1.0
    ensures r.Ok? ==> (r.value == 1.0 <==> |Negatives(s)| == 0)
    ensures r.Ok? ==> r.value == (|Positives(s)| as real) / (NumTrades(s) as real)
  {
    var wins := |Positives(s)|;
    var losses := |Negatives(s)|;
    assert NumTrades(s) == wins + losses;
    if wins + losses == 0 then Err(ZeroDivision)
    else Ok(WinFraction(wins, losses))
  }

  lemma {:induction false} SumOfPositives(s: seq<real>)
    requires forall i :: 0 <= i < |s| ==> s[i] > 0.0
    ensures |s| > 0 ==> Sum(s) > 0.0
  {
    if |s| > 1 {
      SumOfPositives(s[..|s| - 1]);
    }
  }

  lemma {:induction false} SumOfNegatives(s: seq<real>)
    requires forall i :: 0 <= i < |s| ==> s[i] < 0.0
    ensures |s| > 0 ==> Sum(s) < 0.0
  {
    if |s| > 1 {
      SumOfNegatives(s[..|s| - 1]);
    }
  }

  /** The mean of a list has the sign of its sum. */
  lemma MeanSign(s: seq<real>)
    requires |s| > 0
    ensures Mean(s).value > 0.0 <==> Sum(s) > 0.0
    ensures Mean(s).value < 0.0 <==> Sum(s) < 0.0
  {
    var n := |s| as real;
    assert Mean(s).value == Sum(s) / n;
  }

  /** `calc_average_win`: the mean of the winning entries, NaN without wins. */
  function AverageWin(s: seq<real>): (r: Stat)
    ensures r.Num? <==> |Positives(s)| > 0
    ensures r.Num? ==> r.value > 0.0
    ensures r.Num? ==> r.value * (|Positives(s)| as real) == Sum(Positives(s))
  {
    var wins := Positives(s);
    SumOfPositives(wins);
    if |wins| > 0 then MeanSign(wins); Mean(wins) else Mean(wins)
  }

  /** `calc_average_loss`: NaN without losses, otherwise the (negative) mean loss. */
  function AverageLoss(s: seq<real>): (r: Stat)
    ensures r.NaN? <==> |Negatives(s)| == 0
    ensures r.Num? ==> r.value < 0.0
    ensures r.Num? ==> r.value * (|Negatives(s)| as real) == Sum(Negatives(s))
  {
    var losses := Negatives(s);
    if |losses| == 0 then NaN
    else
      SumOfNegatives(losses);
      MeanSign(losses);
      Mean(losses)
  }

  /** |l / w| for a loss l < 0 and a win w > 0 is the positive ratio -l / w. */
  lemma LossToWinRatio(l: real, w: real)
    requires l < 0.0 < w
    ensures Abs(l / w) > 0.0
    ensures Abs(l / w) * w == -l
  {
    assert (l / w) * w == l;
    assert l / w < 0.0;
  }

  /** `calc_risk_reward_ratio`: |average loss / average win|; NaN propagates. */
  function RiskReward(s: seq<real>): (r: Stat)
    ensures r.Num? <==> |Positives(s)| > 0 && |Negatives(s)| > 0
    ensures r.Num? ==> r.value > 0.0
    ensures r.Num? ==> r.value * AverageWin(s).value == -AverageLoss(s).value
  {
    var loss := AverageLoss(s);
    var win := AverageWin(s);
    if loss.NaN? || win.NaN? then NaN
    else
      LossToWinRatio(loss.value, win.value);
      Num(Abs(loss.value / win.value))
  }

  /** The win rate at which a risk-reward ratio `rr` breaks even. */
  function BreakevenWinRateOf(rr: real): (r: real)
    requires rr >= 0.0
    ensures 0.0 <= r < 1.0
    ensures rr > 0.0 ==> r > 0.0
    ensures r * (rr + 1.0) == rr
  {
    rr / (rr + 1.0)
  }

  /** The risk-reward ratio at which a win rate `wr` breaks even. */
  function BreakevenRiskRewardOf(wr: real): (r: real)
    requires 0.0 <= wr < 1.0
    ensures r >= 0.0
    ensures r * (1.0 - wr) == wr
  {
    var d := 1.0 - wr;
    assert d > 0.0;
    wr / d
  }

  /** The two breakeven formulas are inverse to each other. */
  lemma BreakevenFormulasInverse(wr: real)
    requires 0.0 <= wr < 1.0
    ensures BreakevenWinRateOf(BreakevenRiskRewardOf(wr)) == wr
  {
    var x := BreakevenRiskRewardOf(wr);
    var p := BreakevenWinRateOf(x);
    assert (x + 1.0) * (1.0 - wr) == 1.0;
    assert p * (x + 1.0) == x;
    assert p * (x + 1.0) * (1.0 - wr) == x * (1.0 - wr);
  }

  /** `calc_breakeven_win_rate`: rr / (rr + 1), NaN when rr is NaN. */
  function BreakevenWinRate(s: seq<real>): (r: Stat)
    ensures r.Num? <==> RiskReward(s).Num?
    ensures r.Num? ==> 0.0 < r.value < 1.0
  {
    match RiskReward(s)
    case NaN => NaN
    case Num(rr) => Num(BreakevenWinRateOf(rr))
  }

  lemma ExpectancyAtBreakeven(w: real, l: real, rr: real)
    requires w > 0.0 && rr > 0.0 && rr * w == -l
    ensures var p := BreakevenWinRateOf(rr); p * w + (1.0 - p) * l == 0.0
  {
    var p := BreakevenWinRateOf(rr);
    assert (1.0 - p) * (rr + 1.0) == 1.0;
    assert (p * w + (1.0 - p) * l) * (rr + 1.0) == rr * w + l;
  }

  /** At the breakeven win rate the expected P&L per trade is zero:
      rate * average win + (1 - rate) * average loss == 0. */
  lemma BreakevenWinRateZeroesExpectancy(s: seq<real>)
    requires BreakevenWinRate(s).Num?
    ensures var p := BreakevenWinRate(s).value;
      p * AverageWin(s).value + (1.0 - p) * AverageLoss(s).value == 0.0
  {
    ExpectancyAtBreakeven(AverageWin(s).value, AverageLoss(s).value, RiskReward(s).value);
  }

  /** `calc_breakeven_risk_reward_ratio`: NaN at a win rate of 1, otherwise
      wr / (1 - wr), whose breakeven win rate is wr again; it raises where
      the win rate raises. */
  function BreakevenRiskReward(s: seq<real>): (r: Result<Stat>)
    ensures r.Err? <==> NumTrades(s) == 0
    ensures r == Ok(NaN) <==> NumTrades(s) > 0 && |Negatives(s)| == 0
    ensures r.Ok? && r.value.Num? ==> r.value.value >= 0.0
    ensures r.Ok? && r.value.Num? ==> BreakevenWinRateOf(r.value.value) == WinRate(s).value
  {
    match WinRate(s)
    case Err(e) => Err(e)
    case Ok(wr) =>
      if wr == 1.0 then Ok(NaN)
      else
        BreakevenFormulasInverse(wr);
        Ok(Num(BreakevenRiskRewardOf(wr)))
  }

  // ---------------------------------------------------------------------
  // Drawdown and underwater graph

  /** The peak of the first i + 1 cumulative values, kept as a running maximum. */
  function Peak(running: seq<real>, i: nat): (p: real)
    requires i < |running|
    ensures running[i] <= p
  {
    if i == 0 then running[0] else Max(Peak(running, i - 1), running[i])
  }

  /** The running maximum is `max(running_pnl_list[:i+1])`, the largest of
      the first i + 1 values. */
  lemma {:induction false} PeakIsPrefixMax(running: seq<real>, i: nat)
    requires i < |running|
    ensures Peak(running, i) == MaxOf(running[..i + 1])
  {
    if i > 0 {
      PeakIsPrefixMax(running, i - 1);
      assert running[..i + 1][..i] == running[..i];
    }
  }

  /** Drawdown i: the worse of the previous drawdown and the current
      distance below the peak; 0 at index 0. */
  function DrawdownAt(running: seq<real>, i: nat): (d: real)
    requires i == 0 || i < |running|
    ensures d <= 0.0
    ensures i > 0 ==> d <= running[i] - Peak(running, i)
  {
    if i == 0 then 0.0
    else Min(running[i] - Peak(running, i), DrawdownAt(running, i - 1))
  }

  /** The drawdown never exceeds 0 and only gets worse along the list. */
  lemma {:induction false} DrawdownAtNonIncreasing(running: seq<real>, i: nat, j: nat)
    requires j <= i && (i == 0 || i < |running|)
    ensures DrawdownAt(running, i) <= DrawdownAt(running, j)
    ensures DrawdownAt(running, i) <= 0.0
  {
    if i > 0 {
      DrawdownAtNonIncreasing(running, i - 1, if j == i then i - 1 else j);
    }
  }

  /** The running worst peak-to-trough decline of a cumulative P&L list:
      starts at 0, one entry per cumulative value (at least one), never
      increases and never exceeds 0. */
  function Drawdowns(running: seq<real>): (d: seq<real>)
    ensures |d| == if |running| == 0 then 1 else |running|
    ensures d[0] == 0.0
    ensures forall i, j {:trigger d[i], d[j]} :: 0 <= i <= j < |d| ==> d[j] <= d[i]
    ensures forall i {:trigger d[i]} :: 0 <= i < |d| ==> d[i] <= 0.0
  {
    var len := if |running| == 0 then 1 else |running|;
    var d := seq(len, i requires 0 <= i < len => DrawdownAt(running, i));
    assert forall i, j {:trigger d[i], d[j]} :: 0 <= i <= j < |d| ==> d[j] <= d[i] && d[j] <= 0.0 by {
      forall i, j | 0 <= i <= j < |d|
        ensures d[j] <= d[i] && d[j] <= 0.0
      {
        DrawdownAtNonIncreasing(running, j, i);
      }
    }
    d
  }

  /** Element i of the underwater graph: how far cumulative value i lies
      below the peak of the first i + 1 values; never positive, and zero
      exactly at a running peak. */
  function UnderwaterAt(running: seq<real>, i: nat): (u: real)
    requires i < |running|
    ensures u <= 0.0
    ensures u == 0.0 <==> running[i] == Peak(running, i)
  {
    Min(0.0, running[i] - Peak(running, i))
  }

  /** The underwater graph of a cumulative P&L list, one entry per value. */
  function Underwater(running: seq<real>): (u: seq<real>)
    ensures |u| == |running|
  {
    seq(|running|, i requires 0 <= i < |running| => UnderwaterAt(running, i))
  }

  /** Drawdown i is the worst underwater value among the first i + 1. */
  lemma {:induction false} DrawdownIsWorstUnderwater(running: seq<real>, i: nat)
    requires i < |running|
    ensures DrawdownAt(running, i) == MinOf(Underwater(running)[..i + 1])
  {
    var u := Underwater(running);
    if i > 0 {
      DrawdownIsWorstUnderwater(running, i - 1);
      assert u[..i + 1][..i] == u[..i];
    }
  }

  /** The maximum drawdown is zero exactly when the cumulative P&L sits at
      its running peak at every step (so MAR is NaN exactly then, in P&L mode). */
  lemma MaxDrawdownZeroIffAlwaysAtPeak(running: seq<real>)
    ensures var d := Drawdowns(running);
      d[|d| - 1] == 0.0 <==> forall i :: 0 <= i < |running| ==> running[i] == Peak(running, i)
  {
    var n := |running|;
    if n > 0 {
      var u := Underwater(running);
      assert Drawdowns(running)[n - 1] == DrawdownAt(running, n - 1);
      DrawdownIsWorstUnderwater(running, n - 1);
      assert u[..n] == u;
      forall i | 0 <= i < n
        ensures u[i] <= 0.0
        ensures u[i] == 0.0 <==> running[i] == Peak(running, i)
      {
        assert u[i] == UnderwaterAt(running, i);
      }
      MinZeroIffAllZero(u);
    } else {
      assert Drawdowns(running)[0] == DrawdownAt(running, 0);
    }
  }

  lemma MinZeroIffAllZero(u: seq<real>)
    requires |u| > 0
    requires forall i :: 0 <= i < |u| ==> u[i] <= 0.0
    ensures MinOf(u) == 0.0 <==> forall i :: 0 <= i < |u| ==> u[i] == 0.0
  {
    var m := MinOf(u);
    if m != 0.0 {
      var k :| 0 <= k < |u| && u[k] == m;
    }
  }

  /** The account's equity peak (account size plus peak cumulative P&L) is
      nonzero from index `from` on, so that the percentage lists are defined. */
  predicate PeaksNonzero(running: seq<real>, accountSize: real, from: nat)
  {
    forall i :: from <= i < |running| ==> accountSize + Peak(running, i) != 0.0
  }

  /** Percentage drawdown i: drawdown i over the equity peak, kept as a
      running minimum; 0 at index 0. */
  function PercentDrawdownAt(running: seq<real>, accountSize: real, i: nat): (p: real)
    requires PeaksNonzero(running, accountSize, 1)
    requires i == 0 || i < |running|
    ensures p <= 0.0
    ensures i > 0 ==> p <= DrawdownAt(running, i) / (accountSize + Peak(running, i))
  {
    if i == 0 then 0.0
    else Min(DrawdownAt(running, i) / (accountSize + Peak(running, i)),
             PercentDrawdownAt(running, accountSize, i - 1))
  }

  lemma {:induction false} PercentDrawdownAtNonIncreasing(running: seq<real>, accountSize: real, i: nat, j: nat)
    requires PeaksNonzero(running, accountSize, 1)
    requires j <= i && (i == 0 || i < |running|)
    ensures PercentDrawdownAt(running, accountSize, i) <= PercentDrawdownAt(running, accountSize, j)
    ensures PercentDrawdownAt(running, accountSize, i) <= 0.0
  {
    if i > 0 {
      PercentDrawdownAtNonIncreasing(running, accountSize, i - 1, if j == i then i - 1 else j);
    }
  }

  /** The percentage drawdown list: starts at 0, never increases, never exceeds 0. */
  function PercentDrawdowns(running: seq<real>, accountSize: real): (p: seq<real>)
    requires PeaksNonzero(running, accountSize, 1)
    ensures |p| == if |running| == 0 then 1 else |running|
    ensures p[0] == 0.0
    ensures forall i, j {:trigger p[i], p[j]} :: 0 <= i <= j < |p| ==> p[j] <= p[i]
    ensures forall i {:trigger p[i]} :: 0 <= i < |p| ==> p[i] <= 0.0
  {
    var len := if |running| == 0 then 1 else |running|;
    var p := seq(len, i requires 0 <= i < len => PercentDrawdownAt(running, accountSize, i));
    assert forall i, j {:trigger p[i], p[j]} :: 0 <= i <= j < |p| ==> p[j] <= p[i] && p[j] <= 0.0 by {
      forall i, j | 0 <= i <= j < |p|
        ensures p[j] <= p[i] && p[j] <= 0.0
      {
        PercentDrawdownAtNonIncreasing(running, accountSize, j, i);
      }
    }
    p
  }

  /** Percentage underwater value i: underwater value i over the equity peak, capped at 0. */
  function PercentUnderwaterAt(running: seq<real>, accountSize: real, i: nat): (p: real)
    requires PeaksNonzero(running, accountSize, 0)
    requires i < |running|
    ensures p <= 0.0
    ensures running[i] == Peak(running, i) ==> p == 0.0
    ensures accountSize + Peak(running, i) > 0.0 ==> (p == 0.0 <==> running[i] == Peak(running, i))
    ensures accountSize + Peak(running, i) < 0.0 ==> p == 0.0
  {
    var u := Min(0.0, running[i] - Peak(running, i));
    var e := accountSize + Peak(running, i);
    QuotientSign(u, e);
    Min(0.0, u / e)
  }

  /** A non-positive gap over a non-zero equity: zero exactly for a zero
      gap when the equity is positive, and never negative when it is not. */
  lemma QuotientSign(u: real, e: real)
    requires u <= 0.0 && e != 0.0
    ensures e > 0.0 ==> (u / e < 0.0 <==> u < 0.0) && u / e <= 0.0
    ensures e < 0.0 ==> u / e >= 0.0
  {
    if e > 0.0 && u < 0.0 {
      assert u / e * e == u;
    }
    if e < 0.0 {
      assert u / e == (-u) / (-e);
    }
  }

  /** Below the peak but with the account size plus the peak negative, the
      percent underwater value is 0: running [1, 0] with account size -5. */
  lemma PercentUnderwaterZeroBelowPeak()
    ensures PeaksNonzero([1.0, 0.0], -5.0, 0)
    ensures [1.0, 0.0][1] < Peak([1.0, 0.0], 1)
    ensures PercentUnderwaterAt([1.0, 0.0], -5.0, 1) == 0.0
  {
    var r := [1.0, 0.0];
    assert Peak(r, 0) == 1.0;
    assert Peak(r, 1) == 1.0;
  }

  /** The percentage underwater graph: never positive, and zero wherever
      the cumulative P&L is at its peak. */
  function PercentUnderwater(running: seq<real>, accountSize: real): (p: seq<real>)
    requires PeaksNonzero(running, accountSize, 0)
    ensures |p| == |running|
    ensures forall i {:trigger p[i]} :: 0 <= i < |p| ==> p[i] <= 0.0
    ensures forall i {:trigger p[i]} :: 0 <= i < |p| && running[i] == Peak(running, i) ==> p[i] == 0.0
  {
    seq(|running|, i requires 0 <= i < |running| => PercentUnderwaterAt(running, accountSize, i))
  }

  /** What `calc_drawdown_list` returns: always computed from the P&L list,
      in dollars for "P&L" and as a fraction of the equity peak for "Returns". */
  function DrawdownList(a: Analysis, t: SeriesType, accountSize: real): (d: seq<real>)
    requires t == Returns ==> PeaksNonzero(RunningSums(a.pnlList), accountSize, 1)
    ensures |d| == if |a.pnlList| == 0 then 1 else |a.pnlList|
    ensures d[0] == 0.0
    ensures forall i, j {:trigger d[i], d[j]} :: 0 <= i <= j < |d| ==> d[j] <= d[i]
    ensures forall i {:trigger d[i]} :: 0 <= i < |d| ==> d[i] <= 0.0
  {
    match t
    case PnL => Drawdowns(RunningSums(a.pnlList))
    case Returns => PercentDrawdowns(RunningSums(a.pnlList), accountSize)
  }

  method CalcDrawdownList(a: Analysis, t: SeriesType, accountSize: real) returns (list: seq<real>)
    requires t == Returns ==> PeaksNonzero(RunningSums(a.pnlList), accountSize, 1)
    ensures list == DrawdownList(a, t, accountSize)
    ensures list[0] == 0.0
    ensures |list| == if |a.pnlList| == 0 then 1 else |a.pnlList|
    ensures forall i, j :: 0 <= i <= j < |list| ==> list[j] <= list[i]
  {
    var running := CalcRunningPnlList(a, PnL);
    var drawdowns := CalcDrawdowns(running);
    if t == PnL {
      return drawdowns;
    }
    list := CalcPercentDrawdowns(running, drawdowns, accountSize);
  }

  /** The loop of line 145: drawdown i from the peak of the first i + 1 values. */
  method CalcDrawdowns(running: seq<real>) returns (drawdowns: seq<real>)
    ensures drawdowns == Drawdowns(running)
  {
    var n := |running|;
    drawdowns := [0.0];
    var i := 1;
    while i < n
      invariant if n == 0 then i == 1 else 1 <= i <= n
      invariant |drawdowns| == i
      invariant forall j {:trigger drawdowns[j]} :: 0 <= j < i ==> drawdowns[j] == DrawdownAt(running, j)
    {
      var next := Min(running[i] - Peak(running, i), drawdowns[i - 1]);
      assert next == DrawdownAt(running, i);
      drawdowns := drawdowns + [next];
      i := i + 1;
    }
  }

  /** The loop of line 150: each drawdown over the equity peak, as a running minimum. */
  method CalcPercentDrawdowns(running: seq<real>, drawdowns: seq<real>, accountSize: real) returns (percent: seq<real>)
    requires PeaksNonzero(running, accountSize, 1)
    requires drawdowns == Drawdowns(running)
    ensures percent == PercentDrawdowns(running, accountSize)
  {
    var n := |running|;
    percent := [0.0];
    var i := 1;
    while i < n
      invariant if n == 0 then i == 1 else 1 <= i <= n
      invariant |percent| == i
      invariant forall j {:trigger percent[j]} :: 0 <= j < i ==> percent[j] == PercentDrawdownAt(running, accountSize, j)
    {
      assert drawdowns[i] == DrawdownAt(running, i);
      var next := Min(drawdowns[i] / (accountSize + Peak(running, i)), percent[i - 1]);
      assert next == PercentDrawdownAt(running, accountSize, i);
      percent := percent + [next];
      i := i + 1;
    }
  }

  /** What `calc_underwater_graph` returns, always from the P&L list. */
  function UnderwaterGraph(a: Analysis, t: SeriesType, accountSize: real): (g: seq<real>)
    requires t == Returns ==> PeaksNonzero(RunningSums(a.pnlList), accountSize, 0)
    ensures |g| == |a.pnlList|
    ensures forall i :: 0 <= i < |g| ==> g[i] <= 0.0
  {
    match t
    case PnL => Underwater(RunningSums(a.pnlList))
    case Returns => PercentUnderwater(RunningSums(a.pnlList), accountSize)
  }

  method CalcUnderwaterGraph(a: Analysis, t: SeriesType, accountSize: real) returns (graph: seq<real>)
    requires t == Returns ==> PeaksNonzero(RunningSums(a.pnlList), accountSize, 0)
    ensures graph == UnderwaterGraph(a, t, accountSize)
    ensures |graph| == |a.pnlList|
    ensures forall i :: 0 <= i < |graph| ==> graph[i] <= 0.0
  {
    var running := CalcRunningPnlList(a, PnL);
    var underwater := CalcUnderwater(running);
    if t == PnL {
      return underwater;
    }
    graph := CalcPercentUnderwater(running, underwater, accountSize);
  }

  /** The loop of line 172: the distance below the peak, capped at 0. */
  method CalcUnderwater(running: seq<real>) returns (underwater: seq<real>)
    ensures underwater == Underwater(running)
  {
    var n := |running|;
    underwater := [];
    var i := 0;
    while i < n
      invariant 0 <= i <= n
      invariant |underwater| == i
      invariant forall j {:trigger underwater[j]} :: 0 <= j < i ==> underwater[j] == UnderwaterAt(running, j)
    {
      var next := Min(0.0, running[i] - Peak(running, i));
      assert next == UnderwaterAt(running, i);
      underwater := underwater + [next];
      i := i + 1;
    }
  }

  /** The loop of line 177: each underwater value over the equity peak, capped at 0. */
  method CalcPercentUnderwater(running: seq<real>, underwater: seq<real>, accountSize: real) returns (percent: seq<real>)
    requires PeaksNonzero(running, accountSize, 0)
    requires underwater == Underwater(running)
    ensures percent == PercentUnderwater(running, accountSize)
  {
    var n := |running|;
    percent := [];
    var i := 0;
    while i < n
      invariant 0 <= i <= n
      invariant |percent| == i
      invariant forall j {:trigger percent[j]} :: 0 <= j < i ==> percent[j] == PercentUnderwaterAt(running, accountSize, j)
    {
      assert underwater[i] == UnderwaterAt(running, i);
      var next := Min(0.0, underwater[i] / (accountSize + Peak(running, i)));
      assert next == PercentUnderwaterAt(running, accountSize, i);
      percent := percent + [next];
      i := i + 1;
    }
  }

  /** `calc_max_drawdown`: the last, and smallest, entry of the drawdown list. */
  function MaxDrawdown(a: Analysis, t: SeriesType, accountSize: real): (m: real)
    requires t == Returns ==> PeaksNonzero(RunningSums(a.pnlList), accountSize, 1)
    ensures m <= 0.0
    ensures m == DrawdownList(a, t, accountSize)[|DrawdownList(a, t, accountSize)| - 1]
    ensures forall i :: 0 <= i < |DrawdownList(a, t, accountSize)| ==> m <= DrawdownList(a, t, accountSize)[i]
  {
    var d := DrawdownList(a, t, accountSize);
    d[|d| - 1]
  }

  /** `mean_profits / abs(max_drawdown) * 252` for a positive size d: it
      has the sign of m, and times d it is 252 times m. */
  function Annualised(m: real, d: real): (r: real)
    requires d > 0.0
    ensures r > 0.0 <==> m > 0.0
    ensures r < 0.0 <==> m < 0.0
    ensures r * d == m * TradingDays
  {
    DivMul(m, d);
    m / d * TradingDays
  }

  /** Dividing by a positive d and multiplying back gives the number again. */
  lemma DivMul(m: real, d: real)
    requires d > 0.0
    ensures m / d * d == m
    ensures m / d * TradingDays * d == m * TradingDays
  {
    assert m / d * TradingDays * d == (m / d * d) * TradingDays;
  }

  /** `calc_mar`: NaN at a zero maximum drawdown (or an empty series, whose
      mean is NaN), otherwise the mean over the absolute maximum drawdown,
      annualised: times that absolute drawdown it is 252 times the mean,
      and it has the sign of the series total. */
  function Mar(a: Analysis, t: SeriesType, accountSize: real): (r: Stat)
    requires t == Returns ==> PeaksNonzero(RunningSums(a.pnlList), accountSize, 1)
    ensures r.Num? <==> MaxDrawdown(a, t, accountSize) != 0.0 && |Series(a, t)| > 0
    ensures r.Num? ==> (r.value > 0.0 <==> Sum(Series(a, t)) > 0.0)
    ensures r.Num? ==> (r.value < 0.0 <==> Sum(Series(a, t)) < 0.0)
    ensures r.Num? ==> r.value == Annualised(Mean(Series(a, t)).value, Abs(MaxDrawdown(a, t, accountSize)))
  {
    var mdd := MaxDrawdown(a, t, accountSize);
    var series := Series(a, t);
    if mdd == 0.0 || |series| == 0 then NaN
    else
      MeanSign(series);
      Num(Annualised(Mean(series).value, Abs(mdd)))
  }

  /** The MAR times the absolute maximum drawdown is 252 times the mean of
      the series. */
  lemma MarValue(a: Analysis, t: SeriesType, accountSize: real)
    requires t == Returns ==> PeaksNonzero(RunningSums(a.pnlList), accountSize, 1)
    ensures Mar(a, t, accountSize).Num? ==>
      Mar(a, t, accountSize).value * Abs(MaxDrawdown(a, t, accountSize)) == Mean(Series(a, t)).value * TradingDays
  {
    if Mar(a, t, accountSize).Num? {
      AnnualisedTimesSize(Mar(a, t, accountSize), Mean(Series(a, t)).value, Abs(MaxDrawdown(a, t, accountSize)));
      assert Times(Mar(a, t, accountSize).value, Abs(MaxDrawdown(a, t, accountSize))) == Mean(Series(a, t)).value * TradingDays;
    }
  }

  /** A product kept as one term, so that equal factors give equal products
      by congruence. */
  function Times(x: real, y: real): real
  {
    x * y
  }

  /** A result holding the annualised mean, times the drawdown size, is 252
      times the mean. */
  lemma AnnualisedTimesSize(r: Stat, m: real, d: real)
    requires d > 0.0 && r == Num(Annualised(m, d))
    ensures Times(r.value, d) == m * TradingDays
  {
  }

}
