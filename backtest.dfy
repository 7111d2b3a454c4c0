/** One backtest-and-improve pass: score the base prompt on every window, record it, improve it. */
module Backtest {
  import opened Results
  import opened Lib
  import opened Windows
  import opened PromptBuilder
  import opened Responses
  import opened Scoring
  import opened Ledger
  import opened Improver

  /**
   * What a pass reads from outside besides its files: the three exchange answers (newest first),
   * the model's answer to each window's prompt, the JSON decoder, the improver's answer to the
   * meta-prompt, and the number formats.
   */
  datatype Sources = Sources(
    eth: seq<CoinbaseCandle>, btc: seq<CoinbaseCandle>, sol: seq<CoinbaseCandle>,
    ask: (nat, string) -> Result<string, Error>,
    decode: string -> Option<Json>,
    improve: string -> Result<string, Error>,
    fmt: Formatter)

  /** The sources, and the order in which the window requests complete. */
  datatype PassEnv = PassEnv(src: Sources, arrival: seq<nat>)

  /** The windows the task stream schedules for these sources. */
  function Scheduled(src: Sources): seq<nat> {
    EligibleWindows(|src.eth|, |src.btc|, |src.sol|)
  }

  /** `buffer_unordered` completes every scheduled window exactly once, in some order. */
  predicate WellFormed(env: PassEnv) {
    multiset(env.arrival) == multiset(Scheduled(env.src))
  }

  /** The two files a pass reads and writes: the base prompt (absent when unreadable) and the ledger. */
  datatype State = State(prompt: Option<string>, ledger: LedgerFile)

  /** What a pass returns, and the files it leaves behind. */
  datatype PassOutcome = PassOutcome(result: Result<real, Error>, state: State)

  /** Window `i` can be cut from all three series and has a label. */
  predicate Schedulable(src: Sources, i: nat) {
    CandleHours <= i < |src.eth| && i <= |src.btc| && i <= |src.sol|
  }

  /** `format!("{}\n\n{}", base_prompt, data_section)` for window `i`. */
  function WindowPrompt(basePrompt: string, eth: seq<Candle>, btc: seq<Candle>, sol: seq<Candle>,
                        i: nat, fmt: Formatter): string
    requires CandleHours <= i <= |eth| && i <= |btc| && i <= |sol|
  {
    basePrompt + "\n\n" + DataSection(Window(eth, i), Window(btc, i), Window(sol, i), fmt)
  }

  /** The scored result of window `i`, against the ETH label of its last candle. */
  function WindowOutcome(basePrompt: string, src: Sources, i: nat): (r: Result<Scored, Error>)
    requires Schedulable(src, i)
    ensures r.Ok? ==> r.value.window == i
  {
    var eth, btc, sol := Normalized(src.eth), Normalized(src.btc), Normalized(src.sol);
    Interpret(src.ask(i, WindowPrompt(basePrompt, eth, btc, sol, i, src.fmt)), src.decode, i,
              Labels(eth)[i - 1])
  }

  /** A window's result, read off series that are already normalised and labelled. */
  lemma WindowOutcomeFrom(basePrompt: string, src: Sources, i: nat, eth: seq<Candle>,
                          btc: seq<Candle>, sol: seq<Candle>, labels: seq<Action>)
    requires Schedulable(src, i)
    requires eth == Normalized(src.eth) && btc == Normalized(src.btc) && sol == Normalized(src.sol)
    requires labels == Labels(eth)
    ensures i - 1 < |labels|
    ensures WindowOutcome(basePrompt, src, i)
      == Interpret(src.ask(i, WindowPrompt(basePrompt, eth, btc, sol, i, src.fmt)), src.decode, i,
                   labels[i - 1])
  {
  }

  predicate AllSchedulable(src: Sources, order: seq<nat>) {
    forall k :: 0 <= k < |order| ==> Schedulable(src, order[k])
  }

  /** The window results in the given completion order. */
  function Outcomes(basePrompt: string, src: Sources, order: seq<nat>): (r: seq<Result<Scored, Error>>)
    requires AllSchedulable(src, order)
    ensures |r| == |order|
  {
    if order == [] then []
    else
      var last := WindowOutcome(basePrompt, src, order[|order| - 1]);
      Outcomes(basePrompt, src, order[..|order| - 1]) + [last]
  }

  /** The `k`-th result to complete is that of the `k`-th window to complete. */
  lemma {:induction false} OutcomesAt(basePrompt: string, src: Sources, order: seq<nat>, k: nat)
    requires AllSchedulable(src, order) && k < |order|
    ensures Outcomes(basePrompt, src, order)[k] == WindowOutcome(basePrompt, src, order[k])
    decreases |order|
  {
    if k < |order| - 1 {
      var init := order[..|order| - 1];
      OutcomesAt(basePrompt, src, init, k);
    }
  }

  lemma OutcomesSnoc(basePrompt: string, src: Sources, order: seq<nat>, k: nat)
    requires AllSchedulable(src, order) && k < |order|
    ensures AllSchedulable(src, order[..k]) && AllSchedulable(src, order[..k + 1])
    ensures Outcomes(basePrompt, src, order[..k + 1])
      == Outcomes(basePrompt, src, order[..k]) + [WindowOutcome(basePrompt, src, order[k])]
  {
    assert order[..k + 1][..k] == order[..k];
  }

  /** Every window that completes was scheduled. */
  lemma ArrivalSchedulable(env: PassEnv)
    requires WellFormed(env)
    ensures AllSchedulable(env.src, env.arrival)
  {
    var src := env.src;
    forall k | 0 <= k < |env.arrival|
      ensures Schedulable(src, env.arrival[k])
    {
      var i := env.arrival[k];
      assert i in multiset(env.arrival);
      assert i in Scheduled(src);
      EligibleMembership(|src.eth|, |src.btc|, |src.sol|, i);
    }
  }

  /** The window results in the order `buffer_unordered` delivers them. */
  function ArrivalOutcomes(basePrompt: string, env: PassEnv): seq<Result<Scored, Error>>
    requires WellFormed(env)
  {
    ArrivalSchedulable(env);
    Outcomes(basePrompt, env.src, env.arrival)
  }

  /**
   * After all windows are scored: record the prompt, then ask for a better one if any failed.
   * `w` is the fixed text of the meta-prompt (`SourceWording` in the program).
   */
  function Record(w: Wording, st: State, basePrompt: string, t: Tally, src: Sources): (r: PassOutcome)
    ensures r.result.Ok? ==> r.result.value == Accuracy(t)
    ensures t.failures == [] || r.result.Err? ==> r.state.prompt == st.prompt
  {
    var accuracy := Accuracy(t);
    match Load(st.ledger)
    case Err(e) => PassOutcome(Err(e), st)
    case Ok(previous) =>
      var history := Appended(previous, PromptRecord(basePrompt, accuracy));
      var ledger := Stored(Some(history));
      if t.failures == [] then PassOutcome(Ok(accuracy), State(st.prompt, ledger))
      else
        match src.improve(ImprovementPrompt(w, basePrompt, t.failures, history, src.fmt))
        case Err(e) => PassOutcome(Err(e), State(st.prompt, ledger))
        case Ok(improved) => PassOutcome(Ok(accuracy), State(Some(improved), ledger))
  }

  /** What `run_backtest_and_improve` returns and leaves on disk, for meta-prompt wording `w`. */
  function Pass(w: Wording, st: State, env: PassEnv): (r: PassOutcome)
    requires WellFormed(env)
    ensures r.result.Ok? ==> |env.src.eth| >= CandleHours && st.prompt.Some?
  {
    if |env.src.eth| < CandleHours then PassOutcome(Err(InsufficientData), st)
    else
      match st.prompt
      case Nothing => PassOutcome(Err(PromptUnreadable), st)
      case Some(basePrompt) =>
        match Score(ArrivalOutcomes(basePrompt, env))
        case Err(e) => PassOutcome(Err(e), st)
        case Ok(t) => Record(w, st, basePrompt, t, env.src)
  }

  /** Taking out of `o2` an occurrence of the last element of `o1` leaves the same elements as `o1` without it. */
  lemma RemoveMatching<T>(o1: seq<T>, o2: seq<T>, j: nat)
    requires multiset(o1) == multiset(o2) && o1 != [] && j < |o2| && o2[j] == o1[|o1| - 1]
    ensures multiset(o1[..|o1| - 1]) == multiset(o2[..j] + o2[j + 1..])
  {
    var init, x, before, after := o1[..|o1| - 1], o1[|o1| - 1], o2[..j], o2[j + 1..];
    assert o1 == init + [x];
    assert o2 == before + [x] + after;
    calc {
      multiset(init);
      multiset(o1) - multiset{x};
      multiset(o2) - multiset{x};
      (multiset(before) + multiset(after) + multiset{x}) - multiset{x};
      multiset(before) + multiset(after);
      multiset(before + after);
    }
  }

  /** Both results and windows, with the `j`-th entry taken out. */
  function Without<T>(s: seq<T>, j: nat): (r: seq<T>)
    requires j < |s|
    ensures |r| == |s| - 1
    ensures forall b :: 0 <= b < |r| ==> r[b] == if b < j then s[b] else s[b + 1]
  {
    s[..j] + s[j + 1..]
  }

  /**
   * Results attached to windows: if two orders hold the same windows and the same window always
   * carries the same result, the results are the same up to order.
   */
  lemma {:induction false} SameWindowsSameResults<T>(o1: seq<nat>, r1: seq<T>, o2: seq<nat>, r2: seq<T>)
    requires |r1| == |o1| && |r2| == |o2| && multiset(o1) == multiset(o2)
    requires forall a, b :: 0 <= a < |o1| && 0 <= b < |o2| && o1[a] == o2[b] ==> r1[a] == r2[b]
    ensures multiset(r1) == multiset(r2)
    decreases |o1|
  {
    if o1 == [] {
      assert |multiset(o2)| == 0;
    } else {
      var n := |o1| - 1;
      assert o1[n] in multiset(o2);
      var j :| 0 <= j < |o2| && o2[j] == o1[n];
      RemoveMatching(o1, o2, j);
      var o2', r2' := Without(o2, j), Without(r2, j);
      SameWindowsSameResults(o1[..n], r1[..n], o2', r2');
      assert r1 == r1[..n] + [r2[j]];
      assert r2 == r2[..j] + [r2[j]] + r2[j + 1..];
    }
  }

  /** Two completion orders of the same windows produce the same results, up to order. */
  lemma OutcomesPermutation(basePrompt: string, src: Sources, o1: seq<nat>, o2: seq<nat>)
    requires AllSchedulable(src, o1) && AllSchedulable(src, o2)
    requires multiset(o1) == multiset(o2)
    ensures multiset(Outcomes(basePrompt, src, o1)) == multiset(Outcomes(basePrompt, src, o2))
  {
    var r1, r2 := Outcomes(basePrompt, src, o1), Outcomes(basePrompt, src, o2);
    forall a, b | 0 <= a < |o1| && 0 <= b < |o2| && o1[a] == o2[b]
      ensures r1[a] == r2[b]
    {
      OutcomesAt(basePrompt, src, o1, a);
      OutcomesAt(basePrompt, src, o2, b);
    }
    SameWindowsSameResults(o1, r1, o2, r2);
  }

  /** Fewer than 24 ETH candles: the pass fails before it reads its files, and changes neither. */
  lemma PassShortSeries(w: Wording, st: State, env: PassEnv)
    requires WellFormed(env) && |env.src.eth| < CandleHours
    ensures Pass(w, st, env) == PassOutcome(Err(InsufficientData), st)
  {
  }

  /**
   * A window whose model call or answer fails fails the whole pass with the first such error in
   * arrival order; neither the ledger nor the base prompt is written.
   */
  lemma PassWindowFailure(w: Wording, st: State, env: PassEnv)
    requires WellFormed(env) && |env.src.eth| >= CandleHours && st.prompt.Some?
    requires HasError(ArrivalOutcomes(st.prompt.value, env))
    ensures Pass(w, st, env).state == st && Pass(w, st, env).result.Err?
    ensures var outs := ArrivalOutcomes(st.prompt.value, env);
      exists k :: 0 <= k < |outs| && outs[k] == Err(Pass(w, st, env).result.error)
        && forall j :: 0 <= j < k ==> outs[j].Ok?
  {
    ScoreErr(ArrivalOutcomes(st.prompt.value, env));
  }

  /** A pass that returns an error never replaces the base prompt. */
  lemma FailedPassKeepsPrompt(w: Wording, st: State, env: PassEnv)
    requires WellFormed(env) && Pass(w, st, env).result.Err?
    ensures Pass(w, st, env).state.prompt == st.prompt
  {
    if |env.src.eth| >= CandleHours && st.prompt.Some? {
      var scored := Score(ArrivalOutcomes(st.prompt.value, env));
      if scored.Ok? {
        assert Pass(w, st, env) == Record(w, st, st.prompt.value, scored.value, env.src);
      }
    }
  }

  /**
   * A pass that succeeds scored every scheduled window, none failed, and its accuracy is the
   * share of right predictions among the scheduled windows (0 when none was scheduled).
   */
  lemma PassAccuracy(w: Wording, st: State, env: PassEnv)
    requires WellFormed(env) && Pass(w, st, env).result.Ok?
    ensures |env.src.eth| >= CandleHours && st.prompt.Some?
    ensures var outs := ArrivalOutcomes(st.prompt.value, env);
      var n := |Scheduled(env.src)|;
      !HasError(outs)
      && Pass(w, st, env).result.value == (if n == 0 then 0.0 else Matches(outs) as real / n as real)
    ensures 0.0 <= Pass(w, st, env).result.value <= 1.0
  {
    var outs := ArrivalOutcomes(st.prompt.value, env);
    ScoreOk(outs);
    AccuracyBounds(outs);
    assert |outs| == |env.arrival| == |multiset(env.arrival)| == |Scheduled(env.src)|;
  }

  /**
   * The ledger a pass leaves: once every window is scored and the old ledger could be read, the
   * old records plus (base prompt, accuracy), the last ten of them, whatever the improver then
   * does; before that, the file as it was.
   */
  lemma PassLedger(w: Wording, st: State, env: PassEnv)
    requires WellFormed(env)
    ensures Pass(w, st, env).state.ledger ==
      if |env.src.eth| < CandleHours || st.prompt.Nothing? then st.ledger
      else
        var scored := Score(ArrivalOutcomes(st.prompt.value, env));
        if scored.Err? || Load(st.ledger).Err? then st.ledger
        else
          var record := PromptRecord(st.prompt.value, Accuracy(scored.value));
          Stored(Some(Latest(Load(st.ledger).value + [record])))
  {
  }

  /**
   * After a successful pass the base prompt is unchanged when every prediction was right, and is
   * otherwise the improver's answer to the meta-prompt built from the failures and the new ledger.
   */
  lemma PassPrompt(w: Wording, st: State, env: PassEnv)
    requires WellFormed(env) && Pass(w, st, env).result.Ok?
    ensures st.prompt.Some? && Load(st.ledger).Ok? && Pass(w, st, env).state.prompt.Some?
    ensures var base := st.prompt.value;
      var failures := Mismatches(ArrivalOutcomes(base, env));
      var h := Latest(Load(st.ledger).value + [PromptRecord(base, Pass(w, st, env).result.value)]);
      if failures == [] then Pass(w, st, env).state.prompt == st.prompt else
        env.src.improve(ImprovementPrompt(w, base, failures, h, env.src.fmt))
          == Ok(Pass(w, st, env).state.prompt.value)
  {
    ScoreOk(ArrivalOutcomes(st.prompt.value, env));
  }

  /**
   * The order in which `buffer_unordered` delivers the results does not matter, except for which
   * error is reported and the order of the failures: two arrival orders of the same windows agree
   * on whether every window was scored, on the accuracy and on the failures up to order.
   */
  lemma ArrivalOrderIrrelevant(basePrompt: string, env1: PassEnv, env2: PassEnv)
    requires WellFormed(env1) && WellFormed(env2) && env1.src == env2.src
    ensures var r1, r2 := ArrivalOutcomes(basePrompt, env1), ArrivalOutcomes(basePrompt, env2);
      (Score(r1).Ok? <==> Score(r2).Ok?)
      && (Score(r1).Ok? ==>
            Accuracy(Score(r1).value) == Accuracy(Score(r2).value)
            && multiset(Score(r1).value.failures) == multiset(Score(r2).value.failures))
  {
    var r1, r2 := ArrivalOutcomes(basePrompt, env1), ArrivalOutcomes(basePrompt, env2);
    ArrivalSchedulable(env1);
    ArrivalSchedulable(env2);
    OutcomesPermutation(basePrompt, env1.src, env1.arrival, env2.arrival);
    HasErrorPermutation(r1, r2);
    if HasError(r1) {
      ScoreErr(r1);
      ScoreErr(r2);
    } else {
      if Score(r1).Err? { ScoreErrHasError(r1); }
      if Score(r2).Err? { ScoreErrHasError(r2); }
      ScoreOk(r1);
      ScoreOk(r2);
      ScorePermutation(r1, r2);
      assert |r1| == |multiset(r1)| == |multiset(r2)| == |r2|;
    }
  }

  /** Two arrival orders of the same windows leave the same ledger behind. */
  lemma ArrivalOrderLedger(w: Wording, st: State, env1: PassEnv, env2: PassEnv)
    requires WellFormed(env1) && WellFormed(env2) && env1.src == env2.src
    ensures Pass(w, st, env1).state.ledger == Pass(w, st, env2).state.ledger
  {
    PassLedger(w, st, env1);
    PassLedger(w, st, env2);
    if |env1.src.eth| >= CandleHours && st.prompt.Some? {
      ArrivalOrderIrrelevant(st.prompt.value, env1, env2);
    }
  }

  /** The task for window `i`: cut the windows, build the full prompt, query and interpret. */
  method WindowTask(basePrompt: string, src: Sources, eth: seq<Candle>, btc: seq<Candle>,
                    sol: seq<Candle>, labels: seq<Action>, i: nat)
    returns (result: Result<Scored, Error>)
    requires Schedulable(src, i)
    requires eth == Normalized(src.eth) && btc == Normalized(src.btc) && sol == Normalized(src.sol)
    requires labels == Labels(eth)
    ensures result == WindowOutcome(basePrompt, src, i)
  {
    WindowOutcomeFrom(basePrompt, src, i, eth, btc, sol, labels);
    var section := BuildDataSection(Window(eth, i), Window(btc, i), Window(sol, i), src.fmt);
    var fullPrompt := basePrompt + "\n\n" + section;
    var answer := src.ask(i, fullPrompt);
    result := Interpret(answer, src.decode, i, labels[i - 1]);
  }

  /** The task stream and its consumer: every window's result, in arrival order. */
  method ScoreWindows(basePrompt: string, env: PassEnv, eth: seq<Candle>, btc: seq<Candle>,
                      sol: seq<Candle>, labels: seq<Action>)
    returns (results: seq<Result<Scored, Error>>)
    requires WellFormed(env)
    requires eth == Normalized(env.src.eth) && btc == Normalized(env.src.btc)
    requires sol == Normalized(env.src.sol) && labels == Labels(eth)
    ensures results == ArrivalOutcomes(basePrompt, env)
  {
    ArrivalSchedulable(env);
    results := [];
    var k := 0;
    while k < |env.arrival|
      invariant 0 <= k <= |env.arrival|
      invariant results == Outcomes(basePrompt, env.src, env.arrival[..k])
    {
      var result := WindowTask(basePrompt, env.src, eth, btc, sol, labels, env.arrival[k]);
      OutcomesSnoc(basePrompt, env.src, env.arrival, k);
      results := results + [result];
      k := k + 1;
    }
    assert env.arrival[..k] == env.arrival;
  }

  /** The history update and, when a prediction failed, the improvement step. */
  method RecordPass(st: State, basePrompt: string, t: Tally, src: Sources) returns (out: PassOutcome)
    ensures out == Record(SourceWording, st, basePrompt, t, src)
  {
    var accuracy := Accuracy(t);
    var loaded := Load(st.ledger);
    if loaded.Err? {
      return PassOutcome(Err(loaded.error), st);
    }
    var history := AppendRecord(loaded.value, PromptRecord(basePrompt, accuracy));
    var ledger := Stored(Some(history));
    if t.failures == [] {
      return PassOutcome(Ok(accuracy), State(st.prompt, ledger));
    }
    var meta := BuildImprovementPrompt(basePrompt, t.failures, history, src.fmt);
    var improved := src.improve(meta);
    if improved.Err? {
      return PassOutcome(Err(improved.error), State(st.prompt, ledger));
    }
    out := PassOutcome(Ok(accuracy), State(Some(improved.value), ledger));
  }

  /**
   * `run_backtest_and_improve`: normalise and label the series, score every window in arrival
   * order, then record the prompt and, if a prediction failed, replace it with the improver's.
   */
  method RunPass(st: State, env: PassEnv) returns (out: PassOutcome)
    requires WellFormed(env)
    ensures out == Pass(SourceWording, st, env)
  {
    var eth := CandlesToArray(env.src.eth);
    var btc := CandlesToArray(env.src.btc);
    var sol := CandlesToArray(env.src.sol);
    var labels := LabelCandles(eth);
    if |eth| < CandleHours {
      return PassOutcome(Err(InsufficientData), st);
    }
    if st.prompt.Nothing? {
      return PassOutcome(Err(PromptUnreadable), st);
    }
    var basePrompt := st.prompt.value;
    var results := ScoreWindows(basePrompt, env, eth, btc, sol, labels);
    var tally := Aggregate(results);
    if tally.Err? {
      return PassOutcome(Err(tally.error), st);
    }
    out := RecordPass(st, basePrompt, tally.value, env.src);
  }
}
