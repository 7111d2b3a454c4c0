/** Which 24-candle windows a backtest pass schedules, and the label each is scored against. */
module Windows {
  import opened Lib

  /** Length of every lookback window, in hourly candles. */
  const CandleHours: nat := 24

  /** `(i..eth.len()).filter_map(..)` from `i` on: keep `i` when BTC and SOL have at least `i` candles. */
  function EligibleFrom(i: nat, ethLen: nat, btcLen: nat, solLen: nat): seq<nat>
    decreases ethLen - i
  {
    if i >= ethLen then []
    else (if btcLen < i || solLen < i then [] else [i]) + EligibleFrom(i + 1, ethLen, btcLen, solLen)
  }

  /** The window end indices a pass schedules, in scheduling order. */
  function EligibleWindows(ethLen: nat, btcLen: nat, solLen: nat): seq<nat> {
    EligibleFrom(CandleHours, ethLen, btcLen, solLen)
  }

  function Min3(a: int, b: int, c: int): int {
    if a <= b && a <= c then a else if b <= c then b else c
  }

  /** The first index past the scheduled windows: the ETH length, or one past BTC's or SOL's. */
  function WindowBound(ethLen: nat, btcLen: nat, solLen: nat): int {
    Min3(ethLen, btcLen + 1, solLen + 1)
  }

  /** The indices `lo, lo+1, .., hi-1`. */
  function Range(lo: nat, hi: int): (r: seq<nat>)
    ensures |r| == if hi <= lo then 0 else hi - lo
    ensures forall k :: 0 <= k < |r| ==> r[k] == lo + k
    decreases hi - lo
  {
    if hi <= lo then [] else [lo] + Range(lo + 1, hi)
  }

  lemma {:induction false} EligibleFromRange(i: nat, ethLen: nat, btcLen: nat, solLen: nat)
    requires i >= 1
    ensures EligibleFrom(i, ethLen, btcLen, solLen)
      == (if btcLen < i || solLen < i then [] else Range(i, WindowBound(ethLen, btcLen, solLen)))
    decreases ethLen - i
  {
    if i < ethLen {
      EligibleFromRange(i + 1, ethLen, btcLen, solLen);
      if btcLen < i || solLen < i {
        assert btcLen < i + 1 || solLen < i + 1;
      } else if btcLen < i + 1 || solLen < i + 1 {
        assert WindowBound(ethLen, btcLen, solLen) == i + 1;
        assert Range(i + 1, i + 1) == [];
      }
    }
  }

  /**
   * The filter never skips an index and then keeps a later one: the scheduled windows are
   * exactly the contiguous run 24, 25, .. up to (excluding) the smallest of |eth|, |btc|+1, |sol|+1.
   */
  lemma EligibleIsRange(ethLen: nat, btcLen: nat, solLen: nat)
    ensures EligibleWindows(ethLen, btcLen, solLen)
      == Range(CandleHours, WindowBound(ethLen, btcLen, solLen))
  {
    EligibleFromRange(CandleHours, ethLen, btcLen, solLen);
    if btcLen < CandleHours || solLen < CandleHours {
      assert WindowBound(ethLen, btcLen, solLen) <= CandleHours;
    }
  }

  /** `i` is scheduled exactly when `24 <= i < |eth|` and BTC and SOL have at least `i` candles. */
  lemma EligibleMembership(ethLen: nat, btcLen: nat, solLen: nat, i: nat)
    ensures i in EligibleWindows(ethLen, btcLen, solLen) <==>
      CandleHours <= i < ethLen && btcLen >= i && solLen >= i
  {
    EligibleIsRange(ethLen, btcLen, solLen);
    var r := EligibleWindows(ethLen, btcLen, solLen);
    if CandleHours <= i < ethLen && btcLen >= i && solLen >= i {
      assert r[i - CandleHours] == i;
    }
  }

  /** Windows are scheduled once each, in increasing order. */
  lemma EligibleIncreasing(ethLen: nat, btcLen: nat, solLen: nat)
    ensures var r := EligibleWindows(ethLen, btcLen, solLen);
      forall j, k :: 0 <= j < k < |r| ==> r[j] < r[k]
  {
    EligibleIsRange(ethLen, btcLen, solLen);
  }

  /**
   * Fewer than 24 ETH candles schedule nothing. The pass never gets this far with so few candles,
   * since its length check fails it first; this says the scheduling filter alone already excludes
   * every window.
   */
  lemma ShortSeriesNoWindows(ethLen: nat, btcLen: nat, solLen: nat)
    requires ethLen < CandleHours
    ensures EligibleWindows(ethLen, btcLen, solLen) == []
  {
    EligibleIsRange(ethLen, btcLen, solLen);
  }

  /** `&series[i - 24..i]`: the 24 candles that end just before index `i`. */
  function Window<T>(series: seq<T>, i: nat): (w: seq<T>)
    requires CandleHours <= i <= |series|
    ensures |w| == CandleHours && w[CandleHours - 1] == series[i - 1]
  {
    series[i - CandleHours..i]
  }

  /**
   * Window `i` is scored against `labels[i-1]`. For a scheduled window (see
   * `EligibleMembership`) that index is in bounds and is never the final forced None: it is the
   * decision for the window's last candle and the candle right after the window.
   */
  lemma WindowLabel(eth: seq<Candle>, i: nat)
    requires CandleHours <= i < |eth|
    ensures i - 1 < |Labels(eth)| - 1
    ensures Labels(eth)[i - 1] == PairLabel(Window(eth, i)[CandleHours - 1], eth[i])
  {
    LabelsAt(eth, i - 1);
  }
}
