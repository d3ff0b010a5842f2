/** The autoregressive Bitcoin backtest: a lag frame of prices, one
    regression per calendar month trained on everything up to the first
    day of the month, a signal wherever the predicted move beats the
    training quantile of edges, a forward-filled position, and the row
    P&L summed per calendar day and concatenated over the months.

    The regression fit and the quantile are library calls; they come in as
    functions (see `Strategy`). Prediction itself is the linear formula. */
module Backtest {
  import opened Numeric

  // ---------------------------------------------------------------------
  // Dates

  /** The calendar date of a row; the time of day plays no part in the
      model, since every slice and grouping is at day resolution. */
  datatype Date = Date(year: int, month: int, day: int)

  predicate DateLe(a: Date, b: Date)
  {
    a.year < b.year
    || (a.year == b.year && (a.month < b.month || (a.month == b.month && a.day <= b.day)))
  }

  predicate DateLt(a: Date, b: Date)
  {
    DateLe(a, b) && a != b
  }

  /** `start_date + relativedelta(months=1)` for the first day of a month. */
  function NextMonthStart(start: Date): (r: Date)
    ensures r.day == 1
    ensures start.day == 1 ==> DateLt(start, r)
    ensures 1 <= start.month <= 12 ==> 1 <= r.month <= 12
  {
    if start.month == 12 then Date(start.year + 1, 1, 1)
    else Date(start.year, start.month + 1, 1)
  }

  // ---------------------------------------------------------------------
  // The price series and the lag frame

  datatype Tick = Tick(date: Date, price: real)

  predicate Chronological(ticks: seq<Tick>)
  {
    forall i, j :: 0 <= i <= j < |ticks| ==> DateLe(ticks[i].date, ticks[j].date)
  }

  /** A row of the lag frame: column 0 is `price`, column i (1 <= i <= L)
      is `lags[i - 1]`, the price i rows earlier. */
  datatype LagRow = LagRow(date: Date, price: real, lags: seq<real>)

  predicate FrameChronological(frame: seq<LagRow>)
  {
    forall i, j :: 0 <= i <= j < |frame| ==> DateLe(frame[i].date, frame[j].date)
  }

  /** Every row carries at least the first lag, which the signal compares against. */
  predicate ValidFrame(frame: seq<LagRow>)
  {
    FrameChronological(frame) && forall k :: 0 <= k < |frame| ==> |frame[k].lags| >= 1
  }

  /** `df[0].shift(i)`: the column moved down by i rows, missing at the top. */
  function Shift(col: seq<real>, i: nat): (r: seq<Option<real>>)
    ensures |r| == |col|
    ensures forall t :: 0 <= t < |r| ==> (r[t].Some? <==> i <= t)
    ensures forall t :: i <= t < |r| ==> r[t].value == col[t - i]
  {
    seq(|col|, t requires 0 <= t < |col| => if t < i then None else Some(col[t - i]))
  }

  /** Row k of the frame after `dropna`: tick k + L with its L previous prices. */
  function LagRowAt(ticks: seq<Tick>, lookBack: nat, k: nat): LagRow
    requires k + lookBack < |ticks|
  {
    LagRow(ticks[k + lookBack].date, ticks[k + lookBack].price,
           seq(lookBack, i requires 0 <= i < lookBack => ticks[k + lookBack - i - 1].price))
  }

  /** The lag frame: the first L ticks are dropped, every later tick becomes a row. */
  function LagFrame(ticks: seq<Tick>, lookBack: nat): (frame: seq<LagRow>)
    ensures |frame| == if |ticks| <= lookBack then 0 else |ticks| - lookBack
  {
    var len := if |ticks| <= lookBack then 0 else |ticks| - lookBack;
    seq(len, k requires 0 <= k < len => LagRowAt(ticks, lookBack, k))
  }

  /** The lag columns agree with one another: lag i + 1 of a row is lag i of
      the row before it, and lag 1 is the previous row's price. */
  lemma LagFrameShiftsConsistently(ticks: seq<Tick>, lookBack: nat, k: nat)
    requires k + 1 < |LagFrame(ticks, lookBack)|
    ensures var f := LagFrame(ticks, lookBack);
      lookBack >= 1 ==> f[k + 1].lags[0] == f[k].price
    ensures var f := LagFrame(ticks, lookBack);
      forall i :: 0 <= i < lookBack - 1 ==> f[k + 1].lags[i + 1] == f[k].lags[i]
  {
  }

  /** The frame of a chronological price series is chronological and
      carries the first lag whenever L >= 1. */
  lemma LagFrameValid(ticks: seq<Tick>, lookBack: nat)
    requires Chronological(ticks) && lookBack >= 1
    ensures ValidFrame(LagFrame(ticks, lookBack))
  {
    var f := LagFrame(ticks, lookBack);
    forall i, j | 0 <= i <= j < |f|
      ensures DateLe(f[i].date, f[j].date)
    {
      assert f[i].date == ticks[i + lookBack].date;
      assert f[j].date == ticks[j + lookBack].date;
    }
  }

  /** Renames the price column to 0, adds columns 1..L as shifted copies,
      and drops every row with a missing value. */
  method BuildLagFrame(ticks: seq<Tick>, lookBack: nat) returns (frame: seq<LagRow>)
    ensures frame == LagFrame(ticks, lookBack)
  {
    var prices := seq(|ticks|, t requires 0 <= t < |ticks| => ticks[t].price);
    var columns := ShiftedColumns(prices, lookBack);
    frame := DropMissing(ticks, prices, columns, lookBack);
  }

  /** Column c is the price column shifted down by c rows, for c = 0..L. */
  method ShiftedColumns(prices: seq<real>, lookBack: nat) returns (columns: seq<seq<Option<real>>>)
    ensures |columns| == lookBack + 1
    ensures forall c :: 0 <= c <= lookBack ==> columns[c] == Shift(prices, c)
  {
    columns := [Shift(prices, 0)];
    var i := 1;
    while i <= lookBack
      invariant 1 <= i <= lookBack + 1
      invariant |columns| == i
      invariant forall c :: 0 <= c < i ==> columns[c] == Shift(prices, c)
    {
      columns := columns + [Shift(prices, i)];
      i := i + 1;
    }
  }

  /** `dropna`: keeps the rows where every column has a value, which are
      exactly the rows from L on. */
  method DropMissing(ticks: seq<Tick>, prices: seq<real>, columns: seq<seq<Option<real>>>, lookBack: nat)
    returns (frame: seq<LagRow>)
    requires |prices| == |ticks| && forall t :: 0 <= t < |ticks| ==> prices[t] == ticks[t].price
    requires |columns| == lookBack + 1
    requires forall c :: 0 <= c <= lookBack ==> columns[c] == Shift(prices, c)
    ensures frame == LagFrame(ticks, lookBack)
  {
    frame := [];
    var t := 0;
    while t < |ticks|
      invariant 0 <= t <= |ticks|
      invariant |frame| == if t <= lookBack then 0 else t - lookBack
      invariant forall k :: 0 <= k < |frame| ==> frame[k] == LagRowAt(ticks, lookBack, k)
    {
      if forall c :: 0 <= c < |columns| ==> columns[c][t].Some? {
        assert columns[lookBack][t].Some?;
        var lags := seq(lookBack, c requires 0 <= c < lookBack => columns[c + 1][t].value);
        LagsFromColumns(ticks, prices, columns, lookBack, t);
        frame := frame + [LagRow(ticks[t].date, columns[0][t].value, lags)];
      } else {
        assert !columns[lookBack][t].Some?;
      }
      t := t + 1;
    }
  }

  /** Reading the lag columns at row t >= L gives the lags of frame row t - L. */
  lemma LagsFromColumns(ticks: seq<Tick>, prices: seq<real>, columns: seq<seq<Option<real>>>, lookBack: nat, t: nat)
    requires |prices| == |ticks| && forall u :: 0 <= u < |ticks| ==> prices[u] == ticks[u].price
    requires |columns| == lookBack + 1
    requires forall c :: 0 <= c <= lookBack ==> columns[c] == Shift(prices, c)
    requires lookBack <= t < |ticks|
    requires forall c :: 0 <= c <= lookBack ==> |columns[c]| == |ticks| && columns[c][t].Some?
    ensures columns[0][t] == Some(ticks[t].price)
    ensures seq(lookBack, c requires 0 <= c < lookBack => columns[c + 1][t].value)
      == LagRowAt(ticks, lookBack, t - lookBack).lags
  {
    assert columns[0] == Shift(prices, 0);
    var lags := seq(lookBack, c requires 0 <= c < lookBack => columns[c + 1][t].value);
    forall c | 0 <= c < lookBack
      ensures lags[c] == LagRowAt(ticks, lookBack, t - lookBack).lags[c]
    {
      assert columns[c + 1] == Shift(prices, c + 1);
    }
  }

  // ---------------------------------------------------------------------
  // Date-label slices

  /** How many leading rows are dated on or before `d`: on a chronological
      frame, `df[:d]` is exactly that prefix, and it takes in every row of
      day `d` itself, since a date label covers its whole day. */
  function AtMost(frame: seq<LagRow>, d: Date): (r: nat)
    requires FrameChronological(frame)
    ensures r <= |frame|
    ensures forall k :: 0 <= k < r ==> DateLe(frame[k].date, d)
    ensures forall k :: r <= k < |frame| ==> !DateLe(frame[k].date, d)
  {
    if |frame| == 0 || DateLe(frame[|frame| - 1].date, d) then |frame|
    else
      var r := AtMost(frame[..|frame| - 1], d);
      assert forall k :: r <= k < |frame| - 1 ==> !DateLe(frame[k].date, d);
      r
  }

  /** How many leading rows are dated strictly before `d`: `df[d:]` starts there. */
  function Before(frame: seq<LagRow>, d: Date): (r: nat)
    requires FrameChronological(frame)
    ensures r <= |frame|
    ensures forall k :: 0 <= k < r ==> DateLt(frame[k].date, d)
    ensures forall k :: r <= k < |frame| ==> !DateLt(frame[k].date, d)
  {
    if |frame| == 0 || DateLt(frame[|frame| - 1].date, d) then |frame|
    else
      var r := Before(frame[..|frame| - 1], d);
      assert forall k :: r <= k < |frame| - 1 ==> !DateLt(frame[k].date, d);
      r
  }

  /** `df[:start_date]`, the training rows: every row dated up to and
      including the first day of the month. */
  function Training(frame: seq<LagRow>, start: Date): (rows: seq<LagRow>)
    requires FrameChronological(frame)
    ensures forall k :: 0 <= k < |rows| ==> DateLe(rows[k].date, start)
  {
    frame[..AtMost(frame, start)]
  }

  /** `df[start_date:end_date]`, the test rows: every row dated from the
      first day of the month up to and including the first day of the next. */
  function Test(frame: seq<LagRow>, start: Date): (rows: seq<LagRow>)
    requires FrameChronological(frame)
    ensures forall k :: 0 <= k < |rows| ==>
      DateLe(start, rows[k].date) && DateLe(rows[k].date, NextMonthStart(start))
  {
    var lo := Before(frame, start);
    var hi := AtMost(frame, NextMonthStart(start));
    if lo <= hi then frame[lo..hi] else []
  }

  /** A row lies in the test slice exactly when its date is in the closed
      range from the month's first day to the next month's first day. */
  lemma TestSliceIsClosedRange(frame: seq<LagRow>, start: Date, k: nat)
    requires FrameChronological(frame) && start.day == 1 && k < |frame|
    ensures var lo := Before(frame, start);
      (lo <= k < lo + |Test(frame, start)|)
      <==> (DateLe(start, frame[k].date) && DateLe(frame[k].date, NextMonthStart(start)))
  {
    var lo := Before(frame, start);
    var hi := AtMost(frame, NextMonthStart(start));
    if hi < |frame| {
      assert !DateLt(frame[hi].date, start);
    }
  }

  /** A row dated on the first day of the next month is tested in both
      consecutive months, and is already part of the next month's training
      rows. */
  lemma BoundaryDayShared(frame: seq<LagRow>, start: Date, k: nat)
    requires FrameChronological(frame) && start.day == 1 && k < |frame|
    requires frame[k].date == NextMonthStart(start)
    ensures var next := NextMonthStart(start);
      Before(frame, start) <= k < Before(frame, start) + |Test(frame, start)|
      && Before(frame, next) <= k < Before(frame, next) + |Test(frame, next)|
      && k < |Training(frame, next)|
  {
    var next := NextMonthStart(start);
    TestSliceIsClosedRange(frame, start, k);
    TestSliceIsClosedRange(frame, next, k);
  }

  // ---------------------------------------------------------------------
  // Prediction, edge, direction and signal

  /** A fitted linear regression of price on lags 1..L. */
  datatype LinearModel = LinearModel(intercept: real, coef: seq<real>)

  /** The strategy's parameters, with the two library calls it makes:
      `LinearRegression().fit` on the training rows and `Series.quantile`
      at the given percentile. */
  datatype Strategy = Strategy(
    lookBack: nat,
    percentile: real,
    fit: seq<LagRow> -> LinearModel,
    quantile: (seq<real>, real) -> real)

  /** Dot product over the common length of the two lists. */
  function Dot(a: seq<real>, b: seq<real>): real
  {
    if |a| == 0 || |b| == 0 then 0.0 else a[0] * b[0] + Dot(a[1..], b[1..])
  }

  /** `ols.predict`: the intercept plus the coefficients times lags 1..L. */
  function Predict(m: LinearModel, row: LagRow): real
  {
    m.intercept + Dot(m.coef, row.lags)
  }

  /** Column 1 of the frame: the previous price. */
  function Lag1(row: LagRow): real
    requires |row.lags| >= 1
  {
    row.lags[0]
  }

  /** `(Prediction - df[1]).abs()`: the size of the predicted move. */
  function Edge(m: LinearModel, row: LagRow): (r: real)
    requires |row.lags| >= 1
    ensures r >= 0.0
    ensures r == Predict(m, row) - Lag1(row) || r == Lag1(row) - Predict(m, row)
  {
    Abs(Predict(m, row) - Lag1(row))
  }

  /** `np.where(Prediction - df[1] >= 0, 1, -1)`: the sign of the predicted
      move, an up-move when it is zero; times the move it gives the edge. */
  function Direction(m: LinearModel, row: LagRow): (r: int)
    requires |row.lags| >= 1
    ensures r == 1 || r == -1
    ensures r == 1 <==> Predict(m, row) >= Lag1(row)
    ensures (r as real) * (Predict(m, row) - Lag1(row)) == Edge(m, row)
  {
    if Predict(m, row) - Lag1(row) >= 0.0 then 1 else -1
  }

  /** The Position column before filling: the direction where the excess
      edge (edge minus offset) is positive, missing elsewhere. */
  function Signal(m: LinearModel, offset: real, row: LagRow): (r: Option<int>)
    requires |row.lags| >= 1
    ensures r.Some? <==> Edge(m, row) - offset > 0.0
    ensures r.Some? ==> r.value == Direction(m, row)
  {
    if Edge(m, row) - offset > 0.0 then Some(Direction(m, row)) else None
  }

  function Signals(rows: seq<LagRow>, m: LinearModel, offset: real): (sig: seq<Option<int>>)
    requires forall k :: 0 <= k < |rows| ==> |rows[k].lags| >= 1
    ensures |sig| == |rows|
    ensures forall t :: 0 <= t < |sig| && sig[t].Some? ==> sig[t].value == 1 || sig[t].value == -1
  {
    seq(|rows|, t requires 0 <= t < |rows| => Signal(m, offset, rows[t]))
  }

  // ---------------------------------------------------------------------
  // Position: forward fill, then zero

  /** Entry t after `fillna(method='ffill')`: the latest present value at or
      before t, missing if there is none. */
  function FilledAt(s: seq<Option<int>>, t: nat): Option<int>
    requires t < |s|
  {
    if s[t].Some? || t == 0 then s[t] else FilledAt(s, t - 1)
  }

  /** The forward fill at t is missing exactly when no slot up to t holds a
      value, and otherwise is the value of the last such slot. */
  lemma {:induction false} FilledAtLastValue(s: seq<Option<int>>, t: nat)
    requires t < |s|
    ensures FilledAt(s, t).None? <==> forall k :: 0 <= k <= t ==> s[k].None?
    ensures FilledAt(s, t).Some? ==>
      exists j :: 0 <= j <= t && s[j] == FilledAt(s, t) && forall k :: j < k <= t ==> s[k].None?
  {
    if s[t].None? && t > 0 {
      FilledAtLastValue(s, t - 1);
      if FilledAt(s, t).Some? {
        var j :| 0 <= j <= t - 1 && s[j] == FilledAt(s, t - 1) && forall k :: j < k <= t - 1 ==> s[k].None?;
        assert forall k :: j < k <= t ==> s[k].None?;
      }
    }
  }

  function ForwardFill(s: seq<Option<int>>): (r: seq<Option<int>>)
    ensures |r| == |s|
  {
    seq(|s|, t requires 0 <= t < |s| => FilledAt(s, t))
  }

  /** `fillna(v)`: every missing entry becomes v. */
  function FillMissing(s: seq<Option<int>>, v: int): (r: seq<Option<int>>)
    ensures |r| == |s|
    ensures forall t :: 0 <= t < |r| ==> r[t].Some?
  {
    seq(|s|, t requires 0 <= t < |s| => if s[t].Some? then s[t] else Some(v))
  }

  /** The position held at row t: the latest signal so far, 0 before any. */
  function PositionAt(sig: seq<Option<int>>, t: nat): (p: int)
    requires t < |sig|
    ensures sig[t].Some? ==> p == sig[t].value
    ensures (forall k :: 0 <= k <= t ==> sig[k].None?) ==> p == 0
  {
    FilledAtLastValue(sig, t);
    match FilledAt(sig, t)
    case Some(p) => p
    case None => 0
  }

  function Positions(sig: seq<Option<int>>): (pos: seq<int>)
    ensures |pos| == |sig|
  {
    seq(|sig|, t requires 0 <= t < |sig| => PositionAt(sig, t))
  }

  /** Forward filling and then filling with 0 gives the position list. */
  lemma FilledColumnIsPositions(sig: seq<Option<int>>)
    ensures var filled := FillMissing(ForwardFill(sig), 0);
      forall t :: 0 <= t < |sig| ==> filled[t] == Some(Positions(sig)[t])
  {
  }

  /** `df2['Position'].fillna(method='ffill', inplace=True)`. */
  method ForwardFillColumn(col: array<Option<int>>)
    modifies col
    ensures col[..] == ForwardFill(old(col[..]))
  {
    ghost var orig := col[..];
    var t := 1;
    while t < col.Length
      invariant 1 <= t
      invariant forall j :: 0 <= j < col.Length && j < t ==> col[j] == FilledAt(orig, j)
      invariant forall j :: t <= j < col.Length ==> col[j] == orig[j]
    {
      if col[t].None? {
        col[t] := col[t - 1];
      }
      t := t + 1;
    }
  }

  /** `df2['Position'].fillna(0, inplace=True)`, for any fill value. */
  method FillMissingColumn(col: array<Option<int>>, v: int)
    modifies col
    ensures col[..] == FillMissing(old(col[..]), v)
  {
    ghost var orig := col[..];
    var t := 0;
    while t < col.Length
      invariant 0 <= t <= col.Length
      invariant forall j :: 0 <= j < t ==> col[j] == FillMissing(orig, v)[j]
      invariant forall j :: t <= j < col.Length ==> col[j] == orig[j]
    {
      if col[t].None? {
        col[t] := Some(v);
      }
      t := t + 1;
    }
  }

  /** The position follows the signal where there is one and otherwise
      holds the previous row's position, starting from 0. */
  lemma PositionRecurrence(sig: seq<Option<int>>, t: nat)
    requires t < |sig|
    ensures Positions(sig)[t] ==
      if sig[t].Some? then sig[t].value
      else if t == 0 then 0
      else Positions(sig)[t - 1]
  {
  }

  /** With signals of +1 or -1, the position is always -1, 0 or 1. */
  lemma {:induction false} PositionInRange(sig: seq<Option<int>>, t: nat)
    requires t < |sig|
    requires forall j :: 0 <= j < |sig| && sig[j].Some? ==> sig[j].value == 1 || sig[j].value == -1
    ensures -1 <= PositionAt(sig, t) <= 1
  {
    if t > 0 && sig[t].None? {
      PositionInRange(sig, t - 1);
    }
  }

  /** The position is flat until the month's first signal. */
  lemma {:induction false} PositionZeroBeforeFirstSignal(sig: seq<Option<int>>, t: nat)
    requires t < |sig|
    requires forall j :: 0 <= j <= t ==> sig[j].None?
    ensures PositionAt(sig, t) == 0
  {
    if t > 0 {
      PositionZeroBeforeFirstSignal(sig, t - 1);
    }
  }

  /** The position only changes at a row with a signal. */
  lemma PositionChangesOnlyAtSignals(sig: seq<Option<int>>, t: nat)
    requires 0 < t < |sig|
    requires PositionAt(sig, t) != PositionAt(sig, t - 1)
    ensures sig[t].Some?
  {
  }

  // ---------------------------------------------------------------------
  // Quantity and row P&L

  function AbsInt(x: int): (r: nat)
    ensures r == x || r == -x
  {
    if x < 0 then -x else x
  }

  /** `(Position - Position.shift(1)).abs()`: the size of the position
      change, missing at the month's first row. */
  function Quantities(pos: seq<int>): (q: seq<Option<nat>>)
    ensures |q| == |pos|
    ensures |q| > 0 ==> q[0] == None
  {
    seq(|pos|, t requires 0 <= t < |pos| => if t == 0 then None else Some(AbsInt(pos[t] - pos[t - 1])))
  }

  /** `Quantity.sum()`: missing entries are skipped. */
  function QuantityTotal(q: seq<Option<nat>>): (n: nat)
    ensures n == 0 <==> forall k :: 0 <= k < |q| && q[k].Some? ==> q[k].value == 0
  {
    if |q| == 0 then 0
    else QuantityTotal(q[..|q| - 1]) + (if q[|q| - 1].Some? then q[|q| - 1].value else 0)
  }

  /** Number of rows after the first, up to t, that carry a signal. */
  function SignalsAfterFirst(sig: seq<Option<int>>, t: nat): nat
    requires t <= |sig|
  {
    if t <= 1 then 0
    else SignalsAfterFirst(sig, t - 1) + (if sig[t - 1].Some? then 1 else 0)
  }

  /** Every quantity after the first row is 0, 1 or 2. */
  lemma QuantityInRange(sig: seq<Option<int>>, t: nat)
    requires 0 < t < |sig|
    requires forall j :: 0 <= j < |sig| && sig[j].Some? ==> sig[j].value == 1 || sig[j].value == -1
    ensures Quantities(Positions(sig))[t].Some?
    ensures Quantities(Positions(sig))[t].value <= 2
  {
    var pos := Positions(sig);
    PositionInRange(sig, t);
    PositionInRange(sig, t - 1);
    assert pos[t] == PositionAt(sig, t) && pos[t - 1] == PositionAt(sig, t - 1);
    assert Quantities(pos)[t] == Some(AbsInt(pos[t] - pos[t - 1]));
  }

  /** The month's traded quantity is at most 2 per signal after the first
      row: the entry on the first row is never counted, and the position
      only moves at a signal. */
  lemma {:induction false} QuantityTotalBound(sig: seq<Option<int>>, t: nat)
    requires t <= |sig|
    requires forall j :: 0 <= j < |sig| && sig[j].Some? ==> sig[j].value == 1 || sig[j].value == -1
    ensures QuantityTotal(Quantities(Positions(sig))[..t]) <= 2 * SignalsAfterFirst(sig, t)
  {
    if t > 0 {
      var q := Quantities(Positions(sig));
      QuantityTotalBound(sig, t - 1);
      QuantityTotalSnoc(q, t);
      QuantityStep(sig, t - 1);
    }
  }

  /** The total of the first t quantities adds quantity t - 1 to the total before it. */
  lemma QuantityTotalSnoc(q: seq<Option<nat>>, t: nat)
    requires 0 < t <= |q|
    ensures QuantityTotal(q[..t]) == QuantityTotal(q[..t - 1]) + (if q[t - 1].Some? then q[t - 1].value else 0)
  {
    assert q[..t][..t - 1] == q[..t - 1];
  }

  /** The quantity of row k is at most 2, and 0 unless row k > 0 has a signal. */
  lemma QuantityStep(sig: seq<Option<int>>, k: nat)
    requires k < |sig|
    requires forall j :: 0 <= j < |sig| && sig[j].Some? ==> sig[j].value == 1 || sig[j].value == -1
    ensures var q := Quantities(Positions(sig))[k];
      (if q.Some? then q.value else 0) <= 2 * (if k >= 1 && sig[k].Some? then 1 else 0)
  {
    if k > 0 {
      QuantityInRange(sig, k);
      if sig[k].None? {
        PositionRecurrence(sig, k);
      }
    }
  }

  /** `(df2[0] - df2[1]) * Position`: the row's price move times the
      position held on that same row. */
  function RowPnl(row: LagRow, pos: int): (r: real)
    requires |row.lags| >= 1
    ensures pos == 0 ==> r == 0.0
    ensures pos == 1 ==> r == row.price - Lag1(row)
    ensures pos == -1 ==> r == Lag1(row) - row.price
  {
    (row.price - Lag1(row)) * (pos as real)
  }

  // ---------------------------------------------------------------------
  // Daily P&L

  /** One row's, or one day's, P&L with its date. */
  datatype DayPnl = DayPnl(date: Date, pnl: real)

  function Total(e: seq<DayPnl>): real
  {
    if |e| == 0 then 0.0 else Total(e[..|e| - 1]) + e[|e| - 1].pnl
  }

  lemma {:induction false} TotalConcat(a: seq<DayPnl>, b: seq<DayPnl>)
    ensures Total(a + b) == Total(a) + Total(b)
    decreases |b|
  {
    if |b| == 0 {
      assert a + b == a;
    } else {
      assert (a + b)[..|a + b| - 1] == a + b[..|b| - 1];
      TotalConcat(a, b[..|b| - 1]);
    }
  }

  /** The P&L of the entries dated `d`. */
  function SumOn(e: seq<DayPnl>, d: Date): real
  {
    if |e| == 0 then 0.0
    else SumOn(e[..|e| - 1], d) + (if e[|e| - 1].date == d then e[|e| - 1].pnl else 0.0)
  }

  predicate EntriesChronological(e: seq<DayPnl>)
  {
    forall i, j :: 0 <= i <= j < |e| ==> DateLe(e[i].date, e[j].date)
  }

  predicate StrictlyIncreasingDays(g: seq<DayPnl>)
  {
    forall i, j :: 0 <= i < j < |g| ==> DateLt(g[i].date, g[j].date)
  }

  /** `groupby(date)['P&L'].sum().sort_index()` on rows already in date
      order: each run of equal dates becomes one entry carrying their sum. */
  function GroupDaily(e: seq<DayPnl>): (g: seq<DayPnl>)
    ensures |g| <= |e|
    ensures |e| > 0 ==> |g| > 0 && g[|g| - 1].date == e[|e| - 1].date
  {
    if |e| == 0 then []
    else
      var g := GroupDaily(e[..|e| - 1]);
      var x := e[|e| - 1];
      if |g| > 0 && g[|g| - 1].date == x.date
      then g[..|g| - 1] + [DayPnl(x.date, g[|g| - 1].pnl + x.pnl)]
      else g + [x]
  }

  /** Grouping by day neither loses nor adds P&L. */
  lemma {:induction false} GroupDailyTotal(e: seq<DayPnl>)
    ensures Total(GroupDaily(e)) == Total(e)
  {
    if |e| > 0 {
      var p := e[..|e| - 1];
      var g := GroupDaily(p);
      GroupDailyTotal(p);
      if |g| > 0 && g[|g| - 1].date == e[|e| - 1].date {
        var y := DayPnl(e[|e| - 1].date, g[|g| - 1].pnl + e[|e| - 1].pnl);
        assert (g[..|g| - 1] + [y])[..|g| - 1] == g[..|g| - 1];
      } else {
        assert (g + [e[|e| - 1]])[..|g|] == g;
      }
    }
  }

  /** On rows in date order, the days come out strictly increasing. */
  lemma {:induction false} GroupDailyIncreasing(e: seq<DayPnl>)
    requires EntriesChronological(e)
    ensures StrictlyIncreasingDays(GroupDaily(e))
  {
    if |e| > 0 {
      var p := e[..|e| - 1];
      var x := e[|e| - 1];
      var g := GroupDaily(p);
      GroupDailyIncreasing(p);
      var r := GroupDaily(e);
      if |g| > 0 && g[|g| - 1].date == x.date {
        var merged := DayPnl(x.date, g[|g| - 1].pnl + x.pnl);
        assert r == g[..|g| - 1] + [merged];
        ReplaceLastIncreasing(g, merged);
      } else {
        assert r == g + [x];
        if |g| > 0 {
          assert p[|p| - 1] == e[|e| - 2];
        }
        AppendIncreasing(g, x);
      }
    }
  }

  /** Replacing the last entry by one of the same day keeps the days strictly increasing. */
  lemma ReplaceLastIncreasing(g: seq<DayPnl>, y: DayPnl)
    requires StrictlyIncreasingDays(g) && |g| > 0 && y.date == g[|g| - 1].date
    ensures StrictlyIncreasingDays(g[..|g| - 1] + [y])
  {
    var r := g[..|g| - 1] + [y];
    assert forall i :: 0 <= i < |r| ==> r[i].date == g[i].date;
  }

  /** Appending a day later than the last keeps the days strictly increasing. */
  lemma AppendIncreasing(g: seq<DayPnl>, y: DayPnl)
    requires StrictlyIncreasingDays(g)
    requires |g| > 0 ==> DateLe(g[|g| - 1].date, y.date) && g[|g| - 1].date != y.date
    ensures StrictlyIncreasingDays(g + [y])
  {
    if |g| > 0 {
      forall i | 0 <= i < |g|
        ensures DateLt(g[i].date, y.date)
      {
        if i < |g| - 1 {
          assert DateLt(g[i].date, g[|g| - 1].date);
        }
      }
    }
  }

  /** Some entry is dated `d`. */
  predicate HasDate(e: seq<DayPnl>, d: Date)
  {
    exists i :: 0 <= i < |e| && e[i].date == d
  }

  /** Appending an entry adds exactly its date. */
  lemma HasDateSnoc(a: seq<DayPnl>, y: DayPnl, d: Date)
    ensures HasDate(a + [y], d) <==> HasDate(a, d) || y.date == d
  {
    if HasDate(a + [y], d) {
      var i :| 0 <= i < |a| + 1 && (a + [y])[i].date == d;
      if i < |a| {
        assert a[i].date == d;
      }
    }
    if HasDate(a, d) {
      var i :| 0 <= i < |a| && a[i].date == d;
      assert (a + [y])[i].date == d;
    }
    if y.date == d {
      assert (a + [y])[|a|].date == d;
    }
  }

  /** Grouping keeps a day exactly when some row is dated that day, so a
      day whose rows sum to 0 still gets its entry. */
  lemma {:induction false} GroupDailyKeepsDate(e: seq<DayPnl>, d: Date)
    ensures HasDate(GroupDaily(e), d) <==> HasDate(e, d)
  {
    if |e| > 0 {
      var p := e[..|e| - 1];
      var x := e[|e| - 1];
      var g := GroupDaily(p);
      GroupDailyKeepsDate(p, d);
      assert e == p + [x];
      HasDateSnoc(p, x, d);
      if |g| > 0 && g[|g| - 1].date == x.date {
        var front := g[..|g| - 1];
        assert g == front + [g[|g| - 1]];
        HasDateSnoc(front, g[|g| - 1], d);
        var merged := DayPnl(x.date, g[|g| - 1].pnl + x.pnl);
        assert GroupDaily(e) == front + [merged];
        HasDateSnoc(front, merged, d);
      } else {
        assert GroupDaily(e) == g + [x];
        HasDateSnoc(g, x, d);
      }
    }
  }

  /** The grouped days are exactly the rows' days. */
  lemma GroupDailyDates(e: seq<DayPnl>)
    ensures forall d :: HasDate(GroupDaily(e), d) <==> HasDate(e, d)
  {
    forall d
      ensures HasDate(GroupDaily(e), d) <==> HasDate(e, d)
    {
      GroupDailyKeepsDate(e, d);
    }
  }

  lemma {:induction false} SumOnAbsent(e: seq<DayPnl>, d: Date)
    requires forall i :: 0 <= i < |e| ==> e[i].date != d
    ensures SumOn(e, d) == 0.0
  {
    if |e| > 0 {
      SumOnAbsent(e[..|e| - 1], d);
    }
  }

  /** On rows in date order, each day's entry is the sum of that day's rows. */
  lemma {:induction false} GroupDailySumsEachDay(e: seq<DayPnl>)
    requires EntriesChronological(e)
    ensures forall k :: 0 <= k < |GroupDaily(e)| ==> GroupDaily(e)[k].pnl == SumOn(e, GroupDaily(e)[k].date)
  {
    if |e| > 0 {
      var p := e[..|e| - 1];
      var x := e[|e| - 1];
      var g := GroupDaily(p);
      GroupDailySumsEachDay(p);
      GroupDailyIncreasing(p);
      var r := GroupDaily(e);
      if |g| > 0 && g[|g| - 1].date == x.date {
        forall k | 0 <= k < |r|
          ensures r[k].pnl == SumOn(e, r[k].date)
        {
          assert SumOn(e, r[k].date) == SumOn(p, r[k].date) + (if x.date == r[k].date then x.pnl else 0.0);
          if k < |g| - 1 {
            assert r[k] == g[k];
            assert DateLt(g[k].date, g[|g| - 1].date);
            assert g[k].pnl == SumOn(p, g[k].date);
          } else {
            assert r[k] == DayPnl(x.date, g[|g| - 1].pnl + x.pnl);
            assert g[|g| - 1].pnl == SumOn(p, x.date);
          }
        }
      } else {
        if |p| > 0 {
          forall i | 0 <= i < |p|
            ensures p[i].date != x.date
          {
            assert DateLe(p[i].date, p[|p| - 1].date);
          }
        }
        SumOnAbsent(p, x.date);
        forall k | 0 <= k < |r|
          ensures r[k].pnl == SumOn(e, r[k].date)
        {
          assert SumOn(e, r[k].date) == SumOn(p, r[k].date) + (if x.date == r[k].date then x.pnl else 0.0);
          if k < |g| {
            assert r[k] == g[k];
            assert DateLe(g[k].date, g[|g| - 1].date);
            assert DateLe(p[|p| - 1].date, x.date);
            assert g[k].date != x.date;
            assert g[k].pnl == SumOn(p, g[k].date);
          } else {
            assert r[k] == x;
            assert SumOn(p, x.date) == 0.0;
          }
        }
      }
    }
  }

  // ---------------------------------------------------------------------
  // One month

  /** What one month leaves behind: the P&L column of its test rows, the
      daily P&L series it appends, and its printed quantity total. */
  datatype MonthReport = MonthReport(start: Date, rows: seq<DayPnl>, dailyPnl: seq<DayPnl>, quantity: nat)

  /** `df1['Edge'].quantile(percentile)` under the model fitted on the training rows. */
  function Offset(s: Strategy, training: seq<LagRow>, m: LinearModel): real
    requires forall k :: 0 <= k < |training| ==> |training[k].lags| >= 1
  {
    s.quantile(seq(|training|, k requires 0 <= k < |training| => Edge(m, training[k])), s.percentile)
  }

  /** The dated P&L column of the test rows under the given positions. */
  /** `daily` is the per-day summary of `rows`: one entry per day, days
      strictly increasing, exactly the rows' days, each entry the sum of
      that day's rows, and the same overall total. */
  ghost predicate DailySums(rows: seq<DayPnl>, daily: seq<DayPnl>)
  {
    && StrictlyIncreasingDays(daily)
    && (forall d :: HasDate(daily, d) <==> HasDate(rows, d))
    && (forall k :: 0 <= k < |daily| ==> daily[k].pnl == SumOn(rows, daily[k].date))
    && Total(daily) == Total(rows)
  }

  /** Grouping chronological rows by day yields their per-day summary. */
  lemma GroupDailyIsDailySums(e: seq<DayPnl>)
    requires EntriesChronological(e)
    ensures DailySums(e, GroupDaily(e))
  {
    GroupDailyTotal(e);
    GroupDailyIncreasing(e);
    GroupDailySumsEachDay(e);
    GroupDailyDates(e);
  }

  function RowEntries(rows: seq<LagRow>, pos: seq<int>): (e: seq<DayPnl>)
    requires |pos| == |rows|
    requires forall k :: 0 <= k < |rows| ==> |rows[k].lags| >= 1
    ensures |e| == |rows|
  {
    seq(|rows|, t requires 0 <= t < |rows| => DayPnl(rows[t].date, RowPnl(rows[t], pos[t])))
  }

  /** The test slice of a valid frame is itself a valid frame. */
  lemma TestValid(frame: seq<LagRow>, start: Date)
    requires ValidFrame(frame)
    ensures ValidFrame(Test(frame, start))
  {
    var lo := Before(frame, start);
    var test := Test(frame, start);
    forall i, j | 0 <= i <= j < |test|
      ensures DateLe(test[i].date, test[j].date)
    {
      assert test[i] == frame[lo + i] && test[j] == frame[lo + j];
    }
  }

  /** Dating the P&L of chronological rows keeps them chronological. */
  lemma RowEntriesChronological(rows: seq<LagRow>, pos: seq<int>)
    requires |pos| == |rows| && ValidFrame(rows)
    ensures EntriesChronological(RowEntries(rows, pos))
  {
    var e := RowEntries(rows, pos);
    forall i, j | 0 <= i <= j < |e|
      ensures DateLe(e[i].date, e[j].date)
    {
      assert e[i].date == rows[i].date && e[j].date == rows[j].date;
    }
  }

  /** The month starting at `start`: nothing when its training or its test
      slice is empty; otherwise a report whose daily series holds, in
      increasing date order, each day's total of the row P&L, with the
      same grand total as the rows. */
  function WindowReport(frame: seq<LagRow>, s: Strategy, start: Date): (r: seq<MonthReport>)
    requires ValidFrame(frame)
    ensures |r| <= 1
    ensures |r| == 1 <==> |Training(frame, start)| > 0 && |Test(frame, start)| > 0
    ensures |r| == 1 ==> r[0].start == start && |r[0].rows| == |Test(frame, start)|
    ensures |r| == 1 ==> forall k :: 0 <= k < |r[0].rows| ==> r[0].rows[k].date == Test(frame, start)[k].date
    ensures |r| == 1 ==> DailySums(r[0].rows, r[0].dailyPnl)
  {
    var training := Training(frame, start);
    if |training| == 0 then []
    else
      var m := s.fit(training);
      var offset := Offset(s, training, m);
      var test := Test(frame, start);
      if |test| == 0 then []
      else
        var pos := Positions(Signals(test, m, offset));
        var rows := RowEntries(test, pos);
        TestValid(frame, start);
        RowEntriesChronological(test, pos);
        GroupDailyIsDailySums(rows);
        [MonthReport(start, rows, GroupDaily(rows), QuantityTotal(Quantities(pos)))]
  }

  /** Trains on the rows up to the month's first day, then scans the test
      rows: signal, forward-filled position column, quantity, row P&L, and
      the daily sums. */
  method RunWindow(frame: seq<LagRow>, s: Strategy, start: Date) returns (r: seq<MonthReport>)
    requires ValidFrame(frame)
    ensures r == WindowReport(frame, s, start)
  {
    var training := Training(frame, start);
    if |training| == 0 {
      return [];
    }
    var m := s.fit(training);
    var edges := seq(|training|, k requires 0 <= k < |training| => Edge(m, training[k]));
    var offset := s.quantile(edges, s.percentile);
    assert offset == Offset(s, training, m);
    var test := Test(frame, start);
    if |test| == 0 {
      return [];
    }
    var n := |test|;
    var col := new Option<int>[n](t requires 0 <= t < n => Signal(m, offset, test[t]));
    ghost var sig := Signals(test, m, offset);
    assert col[..] == sig;
    ForwardFillColumn(col);
    FillMissingColumn(col, 0);
    var filled := col[..];
    FilledColumnIsPositions(sig);
    var pos := seq(n, t requires 0 <= t < n => filled[t].value);
    assert pos == Positions(sig);
    var rows := RowEntries(test, pos);
    r := [MonthReport(start, rows, GroupDaily(rows), QuantityTotal(Quantities(pos)))];
  }

  // ---------------------------------------------------------------------
  // The month loop

  predicate StrictlyIncreasing(s: seq<int>)
  {
    forall i, j :: 0 <= i < j < |s| ==> s[i] < s[j]
  }

  /** Adds x to a strictly increasing list at its ordered position, unless already there. */
  function Insert(s: seq<int>, x: int): (r: seq<int>)
    requires StrictlyIncreasing(s)
    ensures StrictlyIncreasing(r)
    ensures forall y :: y in r <==> y in s || y == x
  {
    if |s| == 0 then [x]
    else if x < s[0] then [x] + s
    else if x == s[0] then s
    else
      var rest := Insert(s[1..], x);
      forall j | 0 <= j < |rest|
        ensures s[0] < rest[j]
      {
        assert rest[j] in rest;
        if rest[j] != x {
          var k :| 0 <= k < |s[1..]| && s[1..][k] == rest[j];
          assert s[k + 1] == rest[j];
        }
      }
      [s[0]] + rest
  }

  /** `sorted(xs.drop_duplicates().tolist())`: each value once, ascending. */
  function SortedDistinct(xs: seq<int>): (r: seq<int>)
    ensures StrictlyIncreasing(r)
    ensures forall y :: y in r <==> y in xs
  {
    if |xs| == 0 then []
    else
      var r := Insert(SortedDistinct(xs[..|xs| - 1]), xs[|xs| - 1]);
      assert xs == xs[..|xs| - 1] + [xs[|xs| - 1]];
      r
  }

  /** The years present in the frame, ascending. */
  function Years(frame: seq<LagRow>): (ys: seq<int>)
    ensures StrictlyIncreasing(ys)
    ensures forall y :: y in ys <==> exists k :: 0 <= k < |frame| && frame[k].date.year == y
  {
    var xs := seq(|frame|, k requires 0 <= k < |frame| => frame[k].date.year);
    assert forall k :: 0 <= k < |frame| ==> xs[k] == frame[k].date.year;
    SortedDistinct(xs)
  }

  /** The months present in the frame, whatever the year, ascending. */
  function Months(frame: seq<LagRow>): (ms: seq<int>)
    ensures StrictlyIncreasing(ms)
    ensures forall m :: m in ms <==> exists k :: 0 <= k < |frame| && frame[k].date.month == m
  {
    var xs := seq(|frame|, k requires 0 <= k < |frame| => frame[k].date.month);
    assert forall k :: 0 <= k < |frame| ==> xs[k] == frame[k].date.month;
    SortedDistinct(xs)
  }

  /** The first days of the given months of year y. */
  function YearWindows(y: int, months: seq<int>): (w: seq<Date>)
    ensures |w| == |months|
  {
    seq(|months|, j requires 0 <= j < |months| => Date(y, months[j], 1))
  }

  /** The month starts in the order the nested loops visit them: by year,
      then by month. */
  function Windows(years: seq<int>, months: seq<int>): (w: seq<Date>)
    ensures |w| == |years| * |months|
    ensures forall k :: 0 <= k < |w| ==> w[k].day == 1 && w[k].year in years && w[k].month in months
  {
    if |years| == 0 then []
    else Windows(years[..|years| - 1], months) + YearWindows(years[|years| - 1], months)
  }

  lemma {:induction false} WindowsYearsBelow(years: seq<int>, months: seq<int>, bound: int)
    requires forall i :: 0 <= i < |years| ==> years[i] < bound
    ensures forall k :: 0 <= k < |Windows(years, months)| ==> Windows(years, months)[k].year < bound
  {
    if |years| > 0 {
      WindowsYearsBelow(years[..|years| - 1], months, bound);
    }
  }

  /** With sorted years and months, the windows are visited in strictly
      increasing chronological order. */
  lemma {:induction false} WindowsChronological(years: seq<int>, months: seq<int>)
    requires StrictlyIncreasing(years) && StrictlyIncreasing(months)
    ensures forall i, j :: 0 <= i < j < |Windows(years, months)| ==>
      DateLt(Windows(years, months)[i], Windows(years, months)[j])
  {
    if |years| > 0 {
      var prefix := years[..|years| - 1];
      var y := years[|years| - 1];
      WindowsChronological(prefix, months);
      WindowsYearsBelow(prefix, months, y);
      var done := Windows(prefix, months);
      var w := Windows(years, months);
      forall i, j | 0 <= i < j < |w|
        ensures DateLt(w[i], w[j])
      {
        if j < |done| {
          assert w[i] == done[i] && w[j] == done[j];
        } else if i < |done| {
          assert w[i] == done[i] && w[j].year == y;
        } else {
          assert w[i] == Date(y, months[i - |done|], 1);
          assert w[j] == Date(y, months[j - |done|], 1);
        }
      }
    }
  }

  /** The reports appended by the loop over the given window starts. */
  function Reports(frame: seq<LagRow>, s: Strategy, windows: seq<Date>): (r: seq<MonthReport>)
    requires ValidFrame(frame)
    ensures |r| <= |windows|
    ensures forall k :: 0 <= k < |r| ==> Total(r[k].dailyPnl) == Total(r[k].rows)
  {
    if |windows| == 0 then []
    else Reports(frame, s, windows[..|windows| - 1]) + WindowReport(frame, s, windows[|windows| - 1])
  }

  /** Every report's daily series is the per-day summary of its rows. */
  lemma {:induction false} ReportsDailySums(frame: seq<LagRow>, s: Strategy, windows: seq<Date>)
    requires ValidFrame(frame)
    ensures forall k :: 0 <= k < |Reports(frame, s, windows)| ==>
      DailySums(Reports(frame, s, windows)[k].rows, Reports(frame, s, windows)[k].dailyPnl)
  {
    if |windows| > 0 {
      ReportsDailySums(frame, s, windows[..|windows| - 1]);
    }
  }

  /** The year loop's next step visits year yi's windows after the earlier years'. */
  lemma WindowsSnoc(years: seq<int>, months: seq<int>, yi: nat)
    requires yi < |years|
    ensures Windows(years[..yi + 1], months) == Windows(years[..yi], months) + YearWindows(years[yi], months)
  {
    assert years[..yi + 1][..yi] == years[..yi];
  }

  lemma NextWindow(done: seq<Date>, y: int, months: seq<int>, mi: nat)
    requires mi < |months|
    ensures done + YearWindows(y, months[..mi + 1]) == (done + YearWindows(y, months[..mi])) + [Date(y, months[mi], 1)]
  {
  }

  lemma ReportsSnoc(frame: seq<LagRow>, s: Strategy, windows: seq<Date>, w: Date)
    requires ValidFrame(frame)
    ensures Reports(frame, s, windows + [w]) == Reports(frame, s, windows) + WindowReport(frame, s, w)
  {
    assert (windows + [w])[..|windows|] == windows;
  }

  /** `pd.concat(daily_pnl_list)`: the monthly daily series one after the other. */
  function Concat(reports: seq<MonthReport>): seq<DayPnl>
  {
    if |reports| == 0 then []
    else Concat(reports[..|reports| - 1]) + reports[|reports| - 1].dailyPnl
  }

  /** Every processed test row's P&L, month after month. */
  function AllRows(reports: seq<MonthReport>): seq<DayPnl>
  {
    if |reports| == 0 then []
    else AllRows(reports[..|reports| - 1]) + reports[|reports| - 1].rows
  }

  /** A day appears in a concatenation exactly when it appears in a part. */
  lemma HasDateConcat(a: seq<DayPnl>, b: seq<DayPnl>, d: Date)
    ensures HasDate(a + b, d) <==> HasDate(a, d) || HasDate(b, d)
  {
    if HasDate(a + b, d) {
      var i :| 0 <= i < |a + b| && (a + b)[i].date == d;
      if i < |a| {
        assert a[i].date == d;
      } else {
        assert b[i - |a|].date == d;
      }
    }
    if HasDate(a, d) {
      var i :| 0 <= i < |a| && a[i].date == d;
      assert (a + b)[i].date == d;
    }
    if HasDate(b, d) {
      var i :| 0 <= i < |b| && b[i].date == d;
      assert (a + b)[|a| + i].date == d;
    }
  }

  /** When every month's daily series covers exactly its rows' days, the
      concatenated series covers exactly the days of all processed rows. */
  lemma {:induction false} ConcatDays(reports: seq<MonthReport>, d: Date)
    requires forall k :: 0 <= k < |reports| ==> DailySums(reports[k].rows, reports[k].dailyPnl)
    ensures HasDate(Concat(reports), d) <==> HasDate(AllRows(reports), d)
  {
    if |reports| > 0 {
      var prefix := reports[..|reports| - 1];
      var last := reports[|reports| - 1];
      ConcatDays(prefix, d);
      HasDateConcat(Concat(prefix), last.dailyPnl, d);
      HasDateConcat(AllRows(prefix), last.rows, d);
      assert DailySums(last.rows, last.dailyPnl);
    }
  }

  /** The concatenated series totals the P&L of every processed row. */
  lemma {:induction false} ConcatTotal(reports: seq<MonthReport>)
    requires forall k :: 0 <= k < |reports| ==> Total(reports[k].dailyPnl) == Total(reports[k].rows)
    ensures Total(Concat(reports)) == Total(AllRows(reports))
  {
    if |reports| > 0 {
      var prefix := reports[..|reports| - 1];
      var last := reports[|reports| - 1];
      ConcatTotal(prefix);
      TotalConcat(Concat(prefix), last.dailyPnl);
      TotalConcat(AllRows(prefix), last.rows);
    }
  }

  /** The inner loop over the months of year y, appending to `reports`,
      which holds the reports of the windows `done` visited so far. */
  method RunYear(frame: seq<LagRow>, s: Strategy, y: int, months: seq<int>, ghost done: seq<Date>,
                 reports: seq<MonthReport>) returns (extended: seq<MonthReport>)
    requires ValidFrame(frame)
    requires reports == Reports(frame, s, done)
    ensures extended == Reports(frame, s, done + YearWindows(y, months))
  {
    extended := reports;
    ghost var visited := done;
    var mi := 0;
    while mi < |months|
      invariant 0 <= mi <= |months|
      invariant visited == done + YearWindows(y, months[..mi])
      invariant extended == Reports(frame, s, visited)
    {
      var start := Date(y, months[mi], 1);
      var out := RunWindow(frame, s, start);
      NextWindow(done, y, months, mi);
      ReportsSnoc(frame, s, visited, start);
      extended := extended + out;
      visited := visited + [start];
      mi := mi + 1;
    }
    assert months[..|months|] == months;
  }

  /** What the backtest appends: one report per month window, in loop order. */
  function BacktestReports(ticks: seq<Tick>, s: Strategy): (r: seq<MonthReport>)
    requires Chronological(ticks) && s.lookBack >= 1
    ensures |r| <= |Years(LagFrame(ticks, s.lookBack))| * |Months(LagFrame(ticks, s.lookBack))|
    ensures forall k :: 0 <= k < |r| ==> DailySums(r[k].rows, r[k].dailyPnl)
  {
    var frame := LagFrame(ticks, s.lookBack);
    LagFrameValid(ticks, s.lookBack);
    ReportsDailySums(frame, s, Windows(Years(frame), Months(frame)));
    Reports(frame, s, Windows(Years(frame), Months(frame)))
  }

  /** `backtest_autoregressive_strat`: builds the lag frame, runs every
      year and month window, and concatenates the monthly daily series;
      the result totals the P&L of every processed test row. When no
      window produced a report, `pd.concat` of the empty list raises. */
  method BacktestAutoregressiveStrat(ticks: seq<Tick>, s: Strategy)
    returns (reports: seq<MonthReport>, dailyPnl: Result<seq<DayPnl>>)
    requires Chronological(ticks) && s.lookBack >= 1
    ensures reports == BacktestReports(ticks, s)
    ensures dailyPnl.Err? <==> reports == []
    ensures dailyPnl.Err? ==> dailyPnl.error == NoObjectsToConcatenate
    ensures dailyPnl.Ok? ==> dailyPnl.value == Concat(reports)
    ensures dailyPnl.Ok? ==> Total(dailyPnl.value) == Total(AllRows(reports))
    ensures dailyPnl.Ok? ==> forall d :: HasDate(dailyPnl.value, d) <==> HasDate(AllRows(reports), d)
  {
    var frame := BuildLagFrame(ticks, s.lookBack);
    LagFrameValid(ticks, s.lookBack);
    reports := RunYears(frame, s, Years(frame), Months(frame));
    ReportsDailySums(frame, s, Windows(Years(frame), Months(frame)));
    if |reports| == 0 {
      return reports, Err(NoObjectsToConcatenate);
    }
    dailyPnl := Ok(Concat(reports));
    ConcatCoversRows(reports);
  }

  /** The outer loop over the years, each running the month loop. */
  method RunYears(frame: seq<LagRow>, s: Strategy, years: seq<int>, months: seq<int>)
    returns (reports: seq<MonthReport>)
    requires ValidFrame(frame)
    ensures reports == Reports(frame, s, Windows(years, months))
  {
    reports := [];
    var yi := 0;
    while yi < |years|
      invariant 0 <= yi <= |years|
      invariant reports == Reports(frame, s, Windows(years[..yi], months))
    {
      reports := RunYear(frame, s, years[yi], months, Windows(years[..yi], months), reports);
      WindowsSnoc(years, months, yi);
      yi := yi + 1;
    }
    assert years[..|years|] == years;
  }

  /** The concatenated series has the total and exactly the days of all
      processed rows. */
  lemma ConcatCoversRows(reports: seq<MonthReport>)
    requires forall k :: 0 <= k < |reports| ==> DailySums(reports[k].rows, reports[k].dailyPnl)
    ensures Total(Concat(reports)) == Total(AllRows(reports))
    ensures forall d :: HasDate(Concat(reports), d) <==> HasDate(AllRows(reports), d)
  {
    ConcatTotal(reports);
    forall d
      ensures HasDate(Concat(reports), d) <==> HasDate(AllRows(reports), d)
    {
      ConcatDays(reports, d);
    }
  }

  /** A price history no longer than the look-back leaves an empty lag
      frame, hence no window and no report: the backtest then raises. */
  lemma ShortHistoryNoReports(ticks: seq<Tick>, s: Strategy)
    requires Chronological(ticks) && s.lookBack >= 1
    requires |ticks| <= s.lookBack
    ensures BacktestReports(ticks, s) == []
  {
  }
}
