/**
 * The crate root: model identifiers, trading actions, candle normalisation and the
 * ground-truth labeler.
 */
module Lib {

  /** The model identifiers the client can send. */
  datatype Model = O1 | O1Mini

  /** The identifier string put in the request body. */
  function ModelId(m: Model): (s: string)
    ensures |s| >= 2 && s[..2] == "o1"
  {
    match m
    case O1 => "o1"
    case O1Mini => "o1-mini"
  }

  /** Different models are never sent under the same identifier. */
  lemma ModelIdInjective(a: Model, b: Model)
    ensures ModelId(a) == ModelId(b) <==> a == b
  {
  }

  /** A trading decision; only equality is meaningful. */
  datatype Action = Long | Short | None

  /** A candle as the exchange sends it: `(time, low, high, open, close, volume)`. */
  datatype CoinbaseCandle = CoinbaseCandle(
    time: real, low: real, high: real, open: real, close: real, volume: real)

  /** A normalised candle, the source's `[f64; 6]` row `[time, open, high, low, close, volume]`. */
  datatype Candle = Candle(
    time: real, open: real, high: real, low: real, close: real, volume: real)

  /** The six values of an exchange candle in wire order. */
  function RawFields(c: CoinbaseCandle): seq<real> {
    [c.time, c.low, c.high, c.open, c.close, c.volume]
  }

  /** The six values of a normalised candle in row order; `Fields(c)[2]` is HIGH, `[3]` LOW, `[4]` CLOSE. */
  function Fields(c: Candle): seq<real> {
    [c.time, c.open, c.high, c.low, c.close, c.volume]
  }

  /** Reorders one candle's fields: wire positions 0, 3, 2, 1, 4, 5 become row positions 0..5. */
  function ToCandle(c: CoinbaseCandle): (r: Candle)
    ensures var raw := RawFields(c);
      Fields(r) == [raw[0], raw[3], raw[2], raw[1], raw[4], raw[5]]
  {
    Candle(c.time, c.open, c.high, c.low, c.close, c.volume)
  }

  /** `s` in the opposite order. */
  function Reversed<T>(s: seq<T>): (r: seq<T>)
    ensures |r| == |s|
  {
    if s == [] then [] else [s[|s| - 1]] + Reversed(s[..|s| - 1])
  }

  lemma {:induction false} ReversedAt<T>(s: seq<T>, k: nat)
    requires k < |s|
    ensures Reversed(s)[k] == s[|s| - 1 - k]
  {
    if k > 0 {
      ReversedAt(s[..|s| - 1], k - 1);
    }
  }

  /** `into_iter().map(..).collect()`: one normalised candle per exchange candle. */
  function ToCandles(s: seq<CoinbaseCandle>): (r: seq<Candle>)
    ensures |r| == |s|
  {
    if s == [] then [] else [ToCandle(s[0])] + ToCandles(s[1..])
  }

  lemma {:induction false} ToCandlesAt(s: seq<CoinbaseCandle>, k: nat)
    requires k < |s|
    ensures ToCandles(s)[k] == ToCandle(s[k])
  {
    if k > 0 {
      ToCandlesAt(s[1..], k - 1);
    }
  }

  /** What `candles_to_array` returns: the exchange list reversed to chronological order, reordered. */
  function Normalized(candles: seq<CoinbaseCandle>): (r: seq<Candle>)
    ensures |r| == |candles|
  {
    ToCandles(Reversed(candles))
  }

  /** Normalisation keeps every candle and puts wire candle `n-1-k` at position `k`. */
  lemma NormalizedAt(candles: seq<CoinbaseCandle>, k: nat)
    requires k < |candles|
    ensures |Normalized(candles)| == |candles|
    ensures Normalized(candles)[k] == ToCandle(candles[|candles| - 1 - k])
  {
    ReversedAt(candles, k);
    ToCandlesAt(Reversed(candles), k);
  }

  /** `candles.reverse()`: reverses the vector in place. */
  method ReverseInPlace(a: array<CoinbaseCandle>)
    modifies a
    ensures a[..] == Reversed(old(a[..]))
  {
    ghost var s := a[..];
    var lo, hi := 0, a.Length;
    while lo + 1 < hi
      invariant 0 <= lo <= hi + 1 && hi == a.Length - lo
      invariant forall k :: 0 <= k < lo ==> a[k] == s[a.Length - 1 - k]
      invariant forall k :: hi <= k < a.Length ==> a[k] == s[a.Length - 1 - k]
      invariant forall k :: lo <= k < hi ==> a[k] == s[k]
    {
      a[lo], a[hi - 1] := a[hi - 1], a[lo];
      lo, hi := lo + 1, hi - 1;
    }
    forall k | 0 <= k < a.Length
      ensures a[k] == Reversed(s)[k]
    {
      ReversedAt(s, k);
    }
  }

  /** `candles_to_array`: reverse the exchange list in place, then reorder each candle. */
  method CandlesToArray(candles: seq<CoinbaseCandle>) returns (rows: seq<Candle>)
    ensures rows == Normalized(candles)
  {
    var a := new CoinbaseCandle[|candles|](k requires 0 <= k < |candles| => candles[k]);
    assert a[..] == candles;
    ReverseInPlace(a);
    rows := [];
    var k := 0;
    while k < a.Length
      invariant 0 <= k <= a.Length
      invariant |rows| == k
      invariant forall j :: 0 <= j < k ==> rows[j] == ToCandle(a[j])
    {
      rows := rows + [ToCandle(a[k])];
      k := k + 1;
    }
    forall j | 0 <= j < |rows|
      ensures rows[j] == Normalized(candles)[j]
    {
      ToCandlesAt(Reversed(candles), j);
    }
  }

  /** Price multipliers: a move of at least +0.3% or -0.3% by the next candle. */
  const LongThreshold: real := 1.003
  const ShortThreshold: real := 0.997

  /** The next candle's high reaches +0.3% over the current close. */
  predicate LongCondition(current: Candle, next: Candle) {
    next.high >= current.close * LongThreshold
  }

  /** The next candle's low reaches -0.3% under the current close. */
  predicate ShortCondition(current: Candle, next: Candle) {
    next.low <= current.close * ShortThreshold
  }

  /**
   * The decision for one adjacent pair: Long exactly when only the long condition holds, Short
   * whenever the short condition holds (both at once break the tie toward Short), None when
   * neither holds.
   */
  function PairLabel(current: Candle, next: Candle): (r: Action)
    ensures r == Long <==> LongCondition(current, next) && !ShortCondition(current, next)
    ensures r == Short <==> ShortCondition(current, next)
    ensures r == None <==> !LongCondition(current, next) && !ShortCondition(current, next)
  {
    match (LongCondition(current, next), ShortCondition(current, next))
    case (true, true) => Short
    case (true, false) => Long
    case (false, true) => Short
    case (false, false) => None
  }

  /** `data.windows(2).map(..)`: one decision per adjacent pair. */
  function PairLabels(data: seq<Candle>): (r: seq<Action>)
    ensures |r| == if |data| < 2 then 0 else |data| - 1
  {
    if |data| < 2 then [] else [PairLabel(data[0], data[1])] + PairLabels(data[1..])
  }

  /**
   * What `label_candles` returns: the pair decisions followed by a final None, so one label per
   * candle (one even for no candle), the last one None.
   */
  function Labels(data: seq<Candle>): (r: seq<Action>)
    ensures |r| == if |data| == 0 then 1 else |data|
    ensures r[|r| - 1] == None
  {
    PairLabels(data) + [None]
  }

  lemma {:induction false} PairLabelsAt(data: seq<Candle>, k: nat)
    requires k + 1 < |data|
    ensures PairLabels(data)[k] == PairLabel(data[k], data[k + 1])
  {
    if k > 0 {
      PairLabelsAt(data[1..], k - 1);
    }
  }

  /** Label `k` of a candle with a successor is the pair decision for candles `k` and `k+1`. */
  lemma {:induction false} LabelsAt(data: seq<Candle>, k: nat)
    requires k + 1 < |data|
    ensures Labels(data)[k] == PairLabel(data[k], data[k + 1])
  {
    PairLabelsAt(data, k);
  }

  /** Label `k` depends only on candle `k`'s close and candle `k+1`'s high and low. */
  lemma LabelLocality(d1: seq<Candle>, d2: seq<Candle>, k: nat)
    requires k + 1 < |d1| && k + 1 < |d2|
    requires d1[k].close == d2[k].close
    requires d1[k + 1].high == d2[k + 1].high && d1[k + 1].low == d2[k + 1].low
    ensures Labels(d1)[k] == Labels(d2)[k]
  {
    LabelsAt(d1, k);
    LabelsAt(d2, k);
  }

  /** `label_candles`: collect the pair decisions, then push None for the last candle. */
  method LabelCandles(data: seq<Candle>) returns (labels: seq<Action>)
    ensures labels == Labels(data)
  {
    labels := [];
    var k := 0;
    while k + 1 < |data|
      invariant k == 0 || k < |data|
      invariant |labels| == k
      invariant forall j :: 0 <= j < k ==> labels[j] == PairLabel(data[j], data[j + 1])
    {
      labels := labels + [PairLabel(data[k], data[k + 1])];
      k := k + 1;
    }
    labels := labels + [None];
    forall j | 0 <= j < k
      ensures labels[j] == Labels(data)[j]
    {
      LabelsAt(data, j);
    }
  }

  /** The crate's unit test: three candles label to Short, Short, None. */
  lemma LabelCandlesExample()
    ensures Labels([
      Candle(0.0, 0.0, 3603.0, 3599.99, 3594.88, 100.0),
      Candle(0.0, 0.0, 3600.0, 3565.45, 3599.99, 100.0),
      Candle(0.0, 0.0, 3570.86, 3558.89, 3565.52, 100.0)]) == [Short, Short, None]
  {
    var d := [
      Candle(0.0, 0.0, 3603.0, 3599.99, 3594.88, 100.0),
      Candle(0.0, 0.0, 3600.0, 3565.45, 3599.99, 100.0),
      Candle(0.0, 0.0, 3570.86, 3558.89, 3565.52, 100.0)];
    LabelsAt(d, 0);
    LabelsAt(d, 1);
  }

  /** A single candle has no successor and labels to None. */
  lemma SingleCandleLabelsNone(c: Candle)
    ensures Labels([c]) == [None]
  {
  }
}
