/** The factor-name generator: builds the textual names of candidate
    signals (delayed factors and tickers, unary transforms, binary
    operations) by appending to a caller-owned list of names. Each `Build`
    method collects its new names first and appends them afterwards, so it
    never transforms its own output. */
module CsvItems {
  import opened Numeric

  const Changers: seq<string> := ["SQRT", "LOG", "SQR", "INV"]
  const FunStuff: seq<string> := ["STDDEV", "ARMA"]
  const Operations: seq<string> := ["+", "-", "/", "*", "%"]
  const Factors: seq<string> :=
    ["VIX", "COPP", "3M_R", "US_TRY", "BIG_IX", "SMALL_IX", "SENTI", "TEMP", "RAIN", "OIL", "1"]
  const Tickers: seq<string> := ["industry", "market_cap", "pb", "returns"]
  const MaxDelay: nat := 4

  /** The caller's list of signal names, extended in place. */
  class SignalList {
    var items: seq<string>

    constructor (initial: seq<string>)
      ensures items == initial
    {
      items := initial;
    }
  }

  // ---------------------------------------------------------------------
  // Delayed names

  /** `str(d)` for a single decimal digit. */
  function Digit(d: nat): (s: string)
    requires d < 10
    ensures |s| == 1 && '0' <= s[0] <= '9'
  {
    [(('0' as int) + d) as char]
  }

  /** `factor + "_{t-d}"`: the factor's value d steps back. */
  function Delayed(factor: string, d: nat): (s: string)
    requires d < 10
    ensures |s| == |factor| + 6
  {
    factor + "_{t-" + Digit(d) + "}"
  }

  /** Reads a delayed name back into its factor and delay. */
  function ParseDelayed(s: string): Option<(string, nat)>
  {
    if |s| >= 6 && s[|s| - 6..|s| - 2] == "_{t-" && '0' <= s[|s| - 2] <= '9' && s[|s| - 1] == '}'
    then Some((s[..|s| - 6], (s[|s| - 2] as int - '0' as int) as nat))
    else None
  }

  /** A delayed name determines its factor and delay: no two (factor,
      delay) pairs share a name. */
  lemma DelayedRoundTrip(factor: string, d: nat)
    requires d < 10
    ensures ParseDelayed(Delayed(factor, d)) == Some((factor, d))
  {
    var s := Delayed(factor, d);
    assert s[..|s| - 6] == factor;
    assert s[|s| - 6..|s| - 2] == "_{t-";
  }

  /** Delays 1..d of a factor, in increasing delay order. */
  function DelayedUpTo(factor: string, d: nat): (r: seq<string>)
    requires d < 10
    ensures |r| == d
    ensures forall k :: 0 <= k < d ==> r[k] == Delayed(factor, k + 1)
  {
    if d == 0 then [] else DelayedUpTo(factor, d - 1) + [Delayed(factor, d)]
  }

  /** The names for one factor: "1" stands bare, any other factor gets
      delays 1..MaxDelay and no undelayed name. */
  function FactorNames(factor: string): (r: seq<string>)
    ensures factor == "1" ==> r == ["1"]
    ensures factor != "1" ==> |r| == MaxDelay
  {
    if factor == "1" then [factor] else DelayedUpTo(factor, MaxDelay)
  }

  /** The names for the first k factors, in order. */
  function FactorNamesUpTo(factors: seq<string>, k: nat): seq<string>
    requires k <= |factors|
  {
    if k == 0 then [] else FactorNamesUpTo(factors, k - 1) + FactorNames(factors[k - 1])
  }

  /** The delayed names for the first k tickers, in order. */
  function TickerNamesUpTo(tickers: seq<string>, k: nat): (r: seq<string>)
    requires k <= |tickers|
    ensures |r| == MaxDelay * k
  {
    if k == 0 then [] else TickerNamesUpTo(tickers, k - 1) + DelayedUpTo(tickers[k - 1], MaxDelay)
  }

  // ---------------------------------------------------------------------
  // Unary transforms

  /** `fn + "(" + s + ")"`. */
  function Wrap(fn: string, s: string): (w: string)
    ensures |w| == |fn| + |s| + 2
    ensures w[..|fn|] == fn && w[|fn|] == '(' && w[|fn| + 1..|w| - 1] == s && w[|w| - 1] == ')'
  {
    fn + "(" + s + ")"
  }

  /** The first j transforms of one name. */
  function WrapUpTo(fns: seq<string>, s: string, j: nat): seq<string>
    requires j <= |fns|
  {
    seq(j, k requires 0 <= k < j => Wrap(fns[k], s))
  }

  /** Every transform of each of the first k names: name by name, and for
      each name the transforms in order. */
  function TransformsUpTo(fns: seq<string>, names: seq<string>, k: nat): seq<string>
    requires k <= |names|
  {
    if k == 0 then [] else TransformsUpTo(fns, names, k - 1) + WrapUpTo(fns, names[k - 1], |fns|)
  }

  function Transforms(fns: seq<string>, names: seq<string>): seq<string>
  {
    TransformsUpTo(fns, names, |names|)
  }

  /** There are |fns| transforms of every name. */
  lemma {:induction false} TransformsLength(fns: seq<string>, names: seq<string>, k: nat)
    requires k <= |names|
    ensures |TransformsUpTo(fns, names, k)| == |fns| * k
  {
    if k > 0 {
      TransformsLength(fns, names, k - 1);
      var n := |fns|;
      assert |TransformsUpTo(fns, names, k)| == |TransformsUpTo(fns, names, k - 1)| + n;
      MulStep(n, k - 1);
    }
  }

  lemma MulStep(n: nat, m: nat)
    ensures n * m + n == n * (m + 1)
  {
  }

  /** Transform j of name i sits at position i * |fns| + j. */
  lemma TransformsAt(fns: seq<string>, names: seq<string>, k: nat, i: nat, j: nat)
    requires k <= |names| && i < k && j < |fns|
    ensures |TransformsUpTo(fns, names, k)| == |fns| * k
    ensures i * |fns| + j < |fns| * k
    ensures TransformsUpTo(fns, names, k)[i * |fns| + j] == Wrap(fns[j], names[i])
  {
    TransformsLength(fns, names, k);
    TransformsLength(fns, names, i);
    BlockIndex(|fns|, k, i, j);
    MulComm(i, |fns|);
    TransformsOffsetBound(fns, names, k, i, j);
    TransformsAtOffset(fns, names, k, i, j);
  }

  /** The transforms of the names before i, and j more, fit in the first k names' transforms. */
  lemma {:induction false} TransformsOffsetBound(fns: seq<string>, names: seq<string>, k: nat, i: nat, j: nat)
    requires k <= |names| && i < k && j < |fns|
    ensures |TransformsUpTo(fns, names, i)| + j < |TransformsUpTo(fns, names, k)|
  {
    if k != i + 1 {
      TransformsOffsetBound(fns, names, k - 1, i, j);
    }
  }

  /** Transform j of name i follows the transforms of the names before i. */
  lemma {:induction false} TransformsAtOffset(fns: seq<string>, names: seq<string>, k: nat, i: nat, j: nat)
    requires k <= |names| && i < k && j < |fns|
    requires |TransformsUpTo(fns, names, i)| + j < |TransformsUpTo(fns, names, k)|
    ensures TransformsUpTo(fns, names, k)[|TransformsUpTo(fns, names, i)| + j] == Wrap(fns[j], names[i])
  {
    if k == i + 1 {
      TransformsLastBlock(fns, names, i, j);
    } else {
      TransformsOffsetBound(fns, names, k - 1, i, j);
      TransformsAtOffset(fns, names, k - 1, i, j);
      TransformsKeepPrefix(fns, names, k, |TransformsUpTo(fns, names, i)| + j);
    }
  }

  /** Adding name k - 1 keeps the earlier transforms in place. */
  lemma TransformsKeepPrefix(fns: seq<string>, names: seq<string>, k: nat, x: nat)
    requires 0 < k <= |names| && x < |TransformsUpTo(fns, names, k - 1)|
    ensures x < |TransformsUpTo(fns, names, k)|
    ensures TransformsUpTo(fns, names, k)[x] == TransformsUpTo(fns, names, k - 1)[x]
  {
  }

  /** The transforms of name i come right after those of the names before it. */
  lemma TransformsLastBlock(fns: seq<string>, names: seq<string>, i: nat, j: nat)
    requires i < |names| && j < |fns|
    ensures |TransformsUpTo(fns, names, i)| + j < |TransformsUpTo(fns, names, i + 1)|
    ensures TransformsUpTo(fns, names, i + 1)[|TransformsUpTo(fns, names, i)| + j] == Wrap(fns[j], names[i])
  {
  }

  /** Where entry j of block i falls among k blocks of n entries. */
  lemma BlockIndex(n: nat, k: nat, i: nat, j: nat)
    requires i < k && j < n
    ensures i * n + j < n * k
    ensures n * (k - 1) + n == n * k
    ensures i < k - 1 ==> i * n + j < n * (k - 1)
    ensures i == k - 1 ==> i * n + j == n * (k - 1) + j
  {
    MulStep(n, k - 1);
    MulStep(n, i);
    MulComm(i, n);
    MulLeft(n, i + 1, k);
    if i < k - 1 {
      MulLeft(n, i + 1, k - 1);
    }
  }

  lemma MulComm(a: nat, b: nat)
    ensures a * b == b * a
  {
  }

  lemma MulLeft(n: nat, a: nat, b: nat)
    requires a <= b
    ensures n * a <= n * b
  {
  }

  // ---------------------------------------------------------------------
  // build_init

  /** The names `build_init` creates before its transform phase: every
      factor's names, then every ticker's delayed names. */
  function BaseNames(): (r: seq<string>)
    ensures |r| == 57
  {
    FactorNamesCount();
    FactorNamesUpTo(Factors, |Factors|) + TickerNamesUpTo(Tickers, |Tickers|)
  }

  /** Ten delayed factors of four names each, and "1" alone. */
  lemma FactorNamesCount()
    ensures |FactorNamesUpTo(Factors, |Factors|)| == 41
  {
    var factors := Factors;
    OnlyLastFactorIsOne();
    FactorNamesLength(factors);
  }

  /** Of the module's factors only the last one is "1". */
  lemma OnlyLastFactorIsOne()
    ensures |Factors| == 11 && Factors[10] == "1"
    ensures forall i :: 0 <= i < 10 ==> Factors[i] != "1"
  {
    assert forall i :: 0 <= i < 10 ==> |Factors[i]| >= 3;
  }

  /** Factors whose last entry alone is "1" give MaxDelay names each, and
      one name for "1". */
  lemma FactorNamesLength(factors: seq<string>)
    requires |factors| > 0 && factors[|factors| - 1] == "1"
    requires forall i :: 0 <= i < |factors| - 1 ==> factors[i] != "1"
    ensures |FactorNamesUpTo(factors, |factors|)| == MaxDelay * (|factors| - 1) + 1
  {
    if |factors| > 1 {
      FactorBlockAt(factors, |factors| - 1, 0, 1);
    }
  }

  /** Inside a run of k factors none of which is "1", delay d of factor f
      sits at position 4 * f + d - 1. */
  lemma {:induction false} FactorBlockAt(factors: seq<string>, k: nat, f: nat, d: nat)
    requires k <= |factors| && f < k && 1 <= d <= MaxDelay
    requires forall i :: 0 <= i < k ==> factors[i] != "1"
    ensures |FactorNamesUpTo(factors, k)| == MaxDelay * k
    ensures MaxDelay * f + d - 1 < MaxDelay * k
    ensures FactorNamesUpTo(factors, k)[MaxDelay * f + d - 1] == Delayed(factors[f], d)
  {
    if f < k - 1 {
      FactorBlockAt(factors, k - 1, f, d);
    } else if k > 1 {
      FactorBlockAt(factors, k - 1, 0, 1);
    }
  }

  /** Delay d of ticker t sits at position 4 * t + d - 1 of the ticker names. */
  lemma {:induction false} TickerBlockAt(tickers: seq<string>, k: nat, t: nat, d: nat)
    requires k <= |tickers| && t < k && 1 <= d <= MaxDelay
    ensures MaxDelay * t + d - 1 < MaxDelay * k
    ensures TickerNamesUpTo(tickers, k)[MaxDelay * t + d - 1] == Delayed(tickers[t], d)
  {
    if t < k - 1 {
      TickerBlockAt(tickers, k - 1, t, d);
    }
  }

  /** The shape of the names before the transform phase, for factors whose
      last entry alone is "1": each other factor at delays 1..4 in
      increasing order, then "1" with no delay, then each ticker at delays
      1..4. */
  lemma {:induction false} BaseNamesShape(factors: seq<string>, tickers: seq<string>, f: nat, t: nat, d: nat)
    requires |factors| > 0 && factors[|factors| - 1] == "1"
    requires forall i :: 0 <= i < |factors| - 1 ==> factors[i] != "1"
    requires f < |factors| - 1 && t < |tickers| && 1 <= d <= MaxDelay
    ensures var base := FactorNamesUpTo(factors, |factors|) + TickerNamesUpTo(tickers, |tickers|);
      var ones := MaxDelay * (|factors| - 1);
      |base| == ones + 1 + MaxDelay * |tickers|
      && base[MaxDelay * f + d - 1] == Delayed(factors[f], d)
      && base[ones] == "1"
      && base[ones + 1 + MaxDelay * t + d - 1] == Delayed(tickers[t], d)
  {
    var k := |factors| - 1;
    FactorBlockAt(factors, k, f, d);
    TickerBlockAt(tickers, |tickers|, t, d);
  }

  /** With the module's constants: names 0..39 are the ten delayed factors,
      name 40 is "1", names 41..56 the delayed tickers. */
  lemma BaseNamesLayout(f: nat, t: nat, d: nat)
    requires f < 10 && t < 4 && 1 <= d <= MaxDelay
    ensures BaseNames()[MaxDelay * f + d - 1] == Delayed(Factors[f], d)
    ensures BaseNames()[40] == "1"
    ensures BaseNames()[41 + MaxDelay * t + d - 1] == Delayed(Tickers[t], d)
  {
    var factors := Factors;
    var tickers := Tickers;
    OnlyLastFactorIsOne();
    BaseNamesShape(factors, tickers, f, t, d);
    assert MaxDelay * (|factors| - 1) == 40;
    ghost var base := FactorNamesUpTo(factors, |factors|) + TickerNamesUpTo(tickers, |tickers|);
    assert base[40 + 1 + MaxDelay * t + d - 1] == Delayed(tickers[t], d);
  }

  /** What `build_init` appends to a list holding `names`: the base names,
      then the four changers applied to every name now in the list (the
      old ones and the base ones), name by name. */
  function InitAdded(names: seq<string>): seq<string>
  {
    BaseNames() + Transforms(Changers, names + BaseNames())
  }

  /** `build_init` turns n names into 5 * (n + 57): the 57 base names are
      added, and each of the n + 57 names gets four transforms. */
  lemma InitLength(names: seq<string>)
    ensures |names + InitAdded(names)| == 5 * (|names| + 57)
  {
    TransformsLength(Changers, names + BaseNames(), |names + BaseNames()|);
  }

  /** Changer j applied to name i of the list before the transform phase
      sits at position n + 57 + 4 * i + j; no transform is applied to the
      output of another. */
  lemma InitChangerAt(names: seq<string>, i: nat, j: nat)
    requires i < |names| + 57 && j < |Changers|
    ensures var all := names + InitAdded(names);
      |names| + 57 + i * |Changers| + j < |all|
      && all[|names| + 57 + i * |Changers| + j] == Wrap(Changers[j], (names + BaseNames())[i])
  {
    ChangerAt(names, BaseNames(), i, j);
  }

  /** The same layout for any list of base names appended before the phase. */
  lemma ChangerAt(names: seq<string>, base: seq<string>, i: nat, j: nat)
    requires i < |names| + |base| && j < |Changers|
    ensures var all := names + (base + Transforms(Changers, names + base));
      |names| + |base| + i * |Changers| + j < |all|
      && all[|names| + |base| + i * |Changers| + j] == Wrap(Changers[j], (names + base)[i])
  {
    var before := names + base;
    var added := Transforms(Changers, before);
    ConcatAssoc(names, base, added);
    TransformsAt(Changers, before, |before|, i, j);
    var p := i * |Changers| + j;
    assert (before + added)[|before| + p] == added[p];
  }

  /** `build_init(signals)`: the factor names, the ticker names, then the
      changers of everything in the list. */
  method BuildInit(signals: SignalList)
    modifies signals
    ensures signals.items == old(signals.items) + InitAdded(old(signals.items))
  {
    var factors := Factors;
    var tickers := Tickers;
    AppendFactorNames(signals, factors);
    AppendTickerNames(signals, tickers);
    ConcatAssoc(old(signals.items), FactorNamesUpTo(factors, |factors|), TickerNamesUpTo(tickers, |tickers|));
    assert signals.items == old(signals.items) + BaseNames();
    var temp := CollectTransforms(Changers, signals.items);
    AppendAll(signals, temp);
    ConcatAssoc(old(signals.items), BaseNames(), temp);
  }

  lemma ConcatAssoc(a: seq<string>, b: seq<string>, c: seq<string>)
    ensures (a + b) + c == a + (b + c)
  {
  }

  /** The loop over the factors: "1" bare, every other factor delayed. */
  method AppendFactorNames(signals: SignalList, factors: seq<string>)
    modifies signals
    ensures signals.items == old(signals.items) + FactorNamesUpTo(factors, |factors|)
  {
    var fi := 0;
    while fi < |factors|
      invariant 0 <= fi <= |factors|
      invariant signals.items == old(signals.items) + FactorNamesUpTo(factors, fi)
    {
      var factor := factors[fi];
      ghost var before := signals.items;
      if factor == "1" {
        signals.items := signals.items + [factor];
      } else {
        AppendDelayed(signals, factor);
      }
      assert signals.items == before + FactorNames(factor);
      ConcatAssoc(old(signals.items), FactorNamesUpTo(factors, fi), FactorNames(factor));
      fi := fi + 1;
    }
  }

  /** The loop over the tickers, every one delayed. */
  method AppendTickerNames(signals: SignalList, tickers: seq<string>)
    modifies signals
    ensures signals.items == old(signals.items) + TickerNamesUpTo(tickers, |tickers|)
  {
    var ti := 0;
    while ti < |tickers|
      invariant 0 <= ti <= |tickers|
      invariant signals.items == old(signals.items) + TickerNamesUpTo(tickers, ti)
    {
      AppendDelayed(signals, tickers[ti]);
      ti := ti + 1;
    }
  }

  /** The delay loop: `factor_{t-1}` .. `factor_{t-4}`, skipping delay 0. */
  method AppendDelayed(signals: SignalList, factor: string)
    modifies signals
    ensures signals.items == old(signals.items) + DelayedUpTo(factor, MaxDelay)
  {
    var delay := 0;
    while delay < MaxDelay + 1
      invariant 0 <= delay <= MaxDelay + 1
      invariant signals.items == old(signals.items) + DelayedUpTo(factor, if delay == 0 then 0 else delay - 1)
    {
      if delay != 0 {
        signals.items := signals.items + [Delayed(factor, delay)];
      }
      delay := delay + 1;
    }
  }

  /** The `temp_list` loops: every transform of every name, name by name. */
  method CollectTransforms(fns: seq<string>, names: seq<string>) returns (temp: seq<string>)
    ensures temp == Transforms(fns, names)
  {
    temp := [];
    var k := 0;
    while k < |names|
      invariant 0 <= k <= |names|
      invariant temp == TransformsUpTo(fns, names, k)
    {
      var name := names[k];
      ghost var before := temp;
      var c := 0;
      while c < |fns|
        invariant 0 <= c <= |fns|
        invariant temp == before + WrapUpTo(fns, name, c)
      {
        temp := temp + [Wrap(fns[c], name)];
        c := c + 1;
      }
      k := k + 1;
    }
  }

  /** `for str1 in temp_list: signals.append(str1)`. */
  method AppendAll(signals: SignalList, temp: seq<string>)
    modifies signals
    ensures signals.items == old(signals.items) + temp
  {
    var t := 0;
    while t < |temp|
      invariant 0 <= t <= |temp|
      invariant signals.items == old(signals.items) + temp[..t]
    {
      signals.items := signals.items + [temp[t]];
      t := t + 1;
    }
    assert temp[..|temp|] == temp;
  }

  // ---------------------------------------------------------------------
  // build_fun

  /** `build_fun(signals)`: STDDEV and ARMA of every name, name by name. */
  method BuildFun(signals: SignalList)
    modifies signals
    ensures signals.items == old(signals.items) + Transforms(FunStuff, old(signals.items))
  {
    var temp := CollectTransforms(FunStuff, signals.items);
    AppendAll(signals, temp);
  }

  /** `build_fun` triples the list; STDDEV(s) and ARMA(s) of name i follow
      one another at positions n + 2 * i and n + 2 * i + 1. */
  lemma FunShape(names: seq<string>, i: nat)
    requires i < |names|
    ensures var all := names + Transforms(FunStuff, names);
      |all| == 3 * |names|
      && all[|names| + i * 2] == Wrap("STDDEV", names[i])
      && all[|names| + i * 2 + 1] == Wrap("ARMA", names[i])
  {
    TransformsAt(FunStuff, names, |names|, i, 0);
    TransformsAt(FunStuff, names, |names|, i, 1);
  }

  // ---------------------------------------------------------------------
  // build_ops

  /** `"(" + a + op + b + ")"`. */
  function OpName(a: string, op: string, b: string): (s: string)
    ensures |s| == |a| + |op| + |b| + 2
  {
    "(" + a + op + b + ")"
  }

  /** A pair name reads back as its parenthesised operands and operator. */
  lemma OpNameParts(a: string, op: string, b: string)
    ensures var s := OpName(a, op, b);
      s[0] == '(' && s[1..|a| + 1] == a && s[|a| + 1..|a| + |op| + 1] == op
      && s[|a| + |op| + 1..|s| - 1] == b && s[|s| - 1] == ')'
  {
  }

  /** Names built from operands of the same lengths coincide only when the
      operands and the operator do. */
  lemma OpNameInjective(a: string, op: string, b: string, a': string, op': string, b': string)
    requires |a| == |a'| && |op| == |op'|
    requires OpName(a, op, b) == OpName(a', op', b')
    ensures a == a' && op == op' && b == b'
  {
    OpNameParts(a, op, b);
    OpNameParts(a', op', b');
  }

  /** "+" and "*" are commutative and are applied to each unordered pair once. */
  predicate Commutative(op: string)
  {
    op == "+" || op == "*"
  }

  /** The first k operations applied to (a, b); the commutative ones are
      skipped when the pair comes in reverse position order. */
  function PairOpsUpTo(a: string, b: string, reversed: bool, k: nat): seq<string>
    requires k <= |Operations|
  {
    if k == 0 then []
    else
      PairOpsUpTo(a, b, reversed, k - 1)
      + (if reversed && Commutative(Operations[k - 1]) then [] else [OpName(a, Operations[k - 1], b)])
  }

  /** The names for positions e and i: none for equal strings, otherwise
      the operations in order. */
  function PairOps(names: seq<string>, e: nat, i: nat): seq<string>
    requires e < |names| && i < |names|
  {
    if names[e] == names[i] then [] else PairOpsUpTo(names[e], names[i], e > i, |Operations|)
  }

  /** The names for position e paired with each of the first i positions. */
  function RowOpsUpTo(names: seq<string>, e: nat, i: nat): seq<string>
    requires e < |names| && i <= |names|
  {
    if i == 0 then [] else RowOpsUpTo(names, e, i - 1) + PairOps(names, e, i - 1)
  }

  /** The names for the first e positions, each paired with every position. */
  function OpsUpTo(names: seq<string>, e: nat): seq<string>
    requires e <= |names|
  {
    if e == 0 then [] else OpsUpTo(names, e - 1) + RowOpsUpTo(names, e - 1, |names|)
  }

  /** What `build_ops` appends. */
  function OpNames(names: seq<string>): seq<string>
  {
    OpsUpTo(names, |names|)
  }

  /** In position order all five operations are applied; in reverse order
      only "-", "/" and "%". */
  lemma PairOpsSpelledOut(a: string, b: string)
    ensures PairOpsUpTo(a, b, false, |Operations|)
      == [OpName(a, "+", b), OpName(a, "-", b), OpName(a, "/", b), OpName(a, "*", b), OpName(a, "%", b)]
    ensures PairOpsUpTo(a, b, true, |Operations|)
      == [OpName(a, "-", b), OpName(a, "/", b), OpName(a, "%", b)]
  {
    assert Operations[0] == "+" && Operations[1] == "-" && Operations[2] == "/";
    assert Operations[3] == "*" && Operations[4] == "%";
    assert PairOpsUpTo(a, b, false, 1) == [OpName(a, "+", b)];
    assert PairOpsUpTo(a, b, false, 2) == [OpName(a, "+", b), OpName(a, "-", b)];
    assert PairOpsUpTo(a, b, false, 3) == [OpName(a, "+", b), OpName(a, "-", b), OpName(a, "/", b)];
    assert PairOpsUpTo(a, b, false, 4)
      == [OpName(a, "+", b), OpName(a, "-", b), OpName(a, "/", b), OpName(a, "*", b)];
    assert PairOpsUpTo(a, b, true, 1) == [];
    assert PairOpsUpTo(a, b, true, 2) == [OpName(a, "-", b)];
    assert PairOpsUpTo(a, b, true, 3) == [OpName(a, "-", b), OpName(a, "/", b)];
    assert PairOpsUpTo(a, b, true, 4) == [OpName(a, "-", b), OpName(a, "/", b)];
  }

  predicate Distinct(names: seq<string>)
  {
    forall i, j :: 0 <= i < j < |names| ==> names[i] != names[j]
  }

  /** Among distinct names, position e makes 3 names with each earlier
      position and 5 with each later one. */
  lemma {:induction false} RowOpsCount(names: seq<string>, e: nat, i: nat)
    requires Distinct(names) && e < |names| && i <= |names|
    ensures |RowOpsUpTo(names, e, i)| == 3 * (if i <= e then i else e) + 5 * (if i > e + 1 then i - e - 1 else 0)
  {
    if i > 0 {
      RowOpsCount(names, e, i - 1);
      PairOpsSpelledOut(names[e], names[i - 1]);
      if i - 1 != e {
        assert names[e] != names[i - 1];
      }
    }
  }

  /** The first e rows of operation names among n distinct names: row r
      contributes 5 * (n - 1) - 2 * r names. */
  lemma {:induction false} OpsCount(names: seq<string>, e: nat)
    requires Distinct(names) && e <= |names|
    ensures |OpsUpTo(names, e)| == RowsTotal(|names|, e)
  {
    if e > 0 {
      OpsCount(names, e - 1);
      RowOpsCount(names, e - 1, |names|);
    }
  }

  /** The sum over rows 0..e-1 of 5 * (n - 1) - 2 * r. */
  function RowsTotal(n: int, e: nat): int
  {
    if e == 0 then 0 else RowsTotal(n, e - 1) + (5 * n - 5 - 2 * (e - 1))
  }

  lemma {:induction false} RowsTotalClosedForm(n: int, e: nat)
    ensures RowsTotal(n, e) == e * (5 * n - 5) - e * (e - 1)
  {
    if e > 0 {
      RowsTotalClosedForm(n, e - 1);
      OpsCountStep(n, e);
    }
  }

  lemma OpsCountStep(n: int, e: int)
    ensures (e - 1) * (5 * n - 5) - (e - 1) * (e - 1 - 1) + (5 * n - 5 - 2 * (e - 1)) == e * (5 * n - 5) - e * (e - 1)
  {
    assert (e - 1) * (5 * n - 5) == e * (5 * n - 5) - (5 * n - 5);
    assert (e - 1) * (e - 2) == e * (e - 1) - 2 * (e - 1);
  }

  /** `build_ops` on n distinct names appends 4 * n * (n - 1) names: each
      ordered pair gets "-", "/" and "%", and each unordered pair gets "+"
      and "*" once. */
  lemma OpNamesCount(names: seq<string>)
    requires Distinct(names)
    ensures |OpNames(names)| == 4 * |names| * (|names| - 1)
  {
    var n := |names|;
    OpsCount(names, n);
    RowsTotalClosedForm(n, n);
    assert n * (5 * n - 5) - n * (n - 1) == 4 * n * (n - 1);
  }

  /** `build_ops(signals)`: every operation name for every ordered pair of
      positions holding different strings, collected and then appended. */
  method BuildOps(signals: SignalList)
    modifies signals
    ensures signals.items == old(signals.items) + OpNames(old(signals.items))
  {
    var names := signals.items;
    var temp := [];
    var e := 0;
    while e < |names|
      invariant 0 <= e <= |names|
      invariant temp == OpsUpTo(names, e)
      invariant signals.items == names
    {
      var row := CollectRowOps(names, e);
      temp := temp + row;
      e := e + 1;
    }
    assert temp == OpNames(names);
    AppendAll(signals, temp);
  }

  /** The loop over the second position for a fixed first position e. */
  method CollectRowOps(names: seq<string>, e: nat) returns (row: seq<string>)
    requires e < |names|
    ensures row == RowOpsUpTo(names, e, |names|)
  {
    row := [];
    var i := 0;
    while i < |names|
      invariant 0 <= i <= |names|
      invariant row == RowOpsUpTo(names, e, i)
    {
      if names[e] != names[i] {
        var ops := CollectPairOps(names[e], names[i], e > i);
        row := row + ops;
      }
      i := i + 1;
    }
  }

  /** The loop over the operations for one pair of names. */
  method CollectPairOps(a: string, b: string, reversed: bool) returns (ops: seq<string>)
    ensures ops == PairOpsUpTo(a, b, reversed, |Operations|)
  {
    ops := [];
    var k := 0;
    while k < |Operations|
      invariant 0 <= k <= |Operations|
      invariant ops == PairOpsUpTo(a, b, reversed, k)
    {
      var op := Operations[k];
      if !(Commutative(op) && reversed) {
        ops := ops + [OpName(a, op, b)];
      }
      k := k + 1;
    }
  }
}
