/** The program's driver: repeat backtest-and-improve passes until the prompt scores well enough. */
module Driver {
  import opened Results
  import opened Improver
  import opened Backtest

  /** A pass scoring at least this much ends the run. */
  const ConvergenceThreshold: real := 0.7

  /** The most passes one run performs. */
  const MaxPasses: nat := 10

  /** How a run ended (the number of completed passes, or the error that stopped it), the scores of
      the passes that completed, in order, and the files left behind. */
  datatype RunOutcome = RunOutcome(result: Result<nat, Error>, scores: seq<real>, state: State)

  /** Every pass's sources are consistent: each window completes exactly once. */
  ghost predicate AllWellFormed(envs: nat -> PassEnv) {
    forall k :: WellFormed(envs(k))
  }

  /** Whether the loop goes on after a pass scoring `score` that brought the counter to `counter`. */
  predicate Continues(score: real, counter: nat) {
    score < ConvergenceThreshold && counter < MaxPasses
  }

  /** One pass of a run: pass number `k` starts from the files `st`. */
  type PassFn = (State, nat) -> PassOutcome

  /** The passes of the program: pass number `k` sees the sources `envs(k)`. */
  function Passes(w: Wording, envs: nat -> PassEnv): PassFn
    requires AllWellFormed(envs)
  {
    (st: State, k: nat) => Pass(w, st, envs(k))
  }

  /** Every score a pass returns lies in [0, 1]. */
  ghost predicate ScoresInUnitRange(pass: PassFn) {
    forall st, k :: pass(st, k).result.Ok? ==> 0.0 <= pass(st, k).result.value <= 1.0
  }

  /** The program's passes only return accuracies, which lie in [0, 1]. */
  lemma PassesScoreInUnitRange(w: Wording, envs: nat -> PassEnv)
    requires AllWellFormed(envs)
    ensures ScoresInUnitRange(Passes(w, envs))
  {
    forall st, k | Passes(w, envs)(st, k).result.Ok?
      ensures 0.0 <= Passes(w, envs)(st, k).result.value <= 1.0
    {
      PassAccuracy(w, st, envs(k));
    }
  }

  /**
   * The run from the moment `done` passes have completed and the files are `st`: an error ends
   * the run at once.
   */
  function Drive(pass: PassFn, st: State, done: nat): (r: RunOutcome)
    requires done < MaxPasses
    ensures |r.scores| <= MaxPasses - done
    decreases MaxPasses - done
  {
    var out := pass(st, done);
    match out.result
    case Err(e) => RunOutcome(Err(e), [], out.state)
    case Ok(score) =>
      if Continues(score, done + 1) then
        var rest := Drive(pass, out.state, done + 1);
        RunOutcome(rest.result, [score] + rest.scores, rest.state)
      else RunOutcome(Ok(done + 1), [score], out.state)
  }

  /** The earlier scores put in front of a later part of the run. */
  function After(scores: seq<real>, later: RunOutcome): RunOutcome {
    RunOutcome(later.result, scores + later.scores, later.state)
  }

  /** One step of a run: the first pass's outcome, then the rest of the run if it goes on. */
  lemma DriveStep(pass: PassFn, st: State, done: nat)
    requires done < MaxPasses
    ensures var out, r := pass(st, done), Drive(pass, st, done);
      if out.result.Err? then r == RunOutcome(Err(out.result.error), [], out.state)
      else if Continues(out.result.value, done + 1) then
        r == After([out.result.value], Drive(pass, out.state, done + 1))
      else r == RunOutcome(Ok(done + 1), [out.result.value], out.state)
  {
  }

  /**
   * A run from `done` completed passes on that ends normally has performed between one pass and
   * the passes left, and its counter is `done` plus the passes it performed; a run that fails
   * still had passes left.
   */
  lemma {:induction false} DriveCount(pass: PassFn, st: State, done: nat)
    requires done < MaxPasses
    ensures var r := Drive(pass, st, done);
      (r.result.Ok? ==> r.result.value == done + |r.scores| && 1 <= |r.scores| <= MaxPasses - done)
      && (r.result.Err? ==> |r.scores| < MaxPasses - done)
    decreases MaxPasses - done
  {
    var out := pass(st, done);
    DriveStep(pass, st, done);
    if out.result.Ok? && Continues(out.result.value, done + 1) {
      DriveCount(pass, out.state, done + 1);
    }
  }

  /**
   * Every score of a run but the last is below the threshold, and so is the last one when the
   * run failed; when the run ends normally, the last score reaches the threshold unless the
   * pass limit was hit.
   */
  lemma {:induction false} DriveStopsAtThreshold(pass: PassFn, st: State, done: nat)
    requires done < MaxPasses
    ensures var r := Drive(pass, st, done);
      (forall k :: 0 <= k < |r.scores| - 1 ==> r.scores[k] < ConvergenceThreshold)
      && (r.result.Err? ==> forall k :: 0 <= k < |r.scores| ==> r.scores[k] < ConvergenceThreshold)
      && (r.result.Ok? ==>
            |r.scores| > 0
            && (r.scores[|r.scores| - 1] >= ConvergenceThreshold || r.result.value == MaxPasses))
    decreases MaxPasses - done
  {
    var out := pass(st, done);
    DriveStep(pass, st, done);
    if out.result.Ok? && Continues(out.result.value, done + 1) {
      var score, r, rest := out.result.value, Drive(pass, st, done), Drive(pass, out.state, done + 1);
      DriveStopsAtThreshold(pass, out.state, done + 1);
      assert r.result == rest.result && r.scores == [score] + rest.scores;
      assert score < ConvergenceThreshold;
      forall k | 1 <= k < |r.scores| ensures r.scores[k] == rest.scores[k - 1] {
      }
    }
  }

  /** Every score of a run is one a pass returned; with the program's passes, it lies in [0, 1]. */
  lemma {:induction false} DriveScoresInUnitRange(pass: PassFn, st: State, done: nat)
    requires done < MaxPasses && ScoresInUnitRange(pass)
    ensures var r := Drive(pass, st, done);
      forall k :: 0 <= k < |r.scores| ==> 0.0 <= r.scores[k] <= 1.0
    decreases MaxPasses - done
  {
    var out := pass(st, done);
    DriveStep(pass, st, done);
    if out.result.Ok? {
      assert 0.0 <= out.result.value <= 1.0;
      if Continues(out.result.value, done + 1) {
        var rest := Drive(pass, out.state, done + 1);
        DriveScoresInUnitRange(pass, out.state, done + 1);
        assert forall k :: 1 <= k < 1 + |rest.scores| ==> ([out.result.value] + rest.scores)[k] == rest.scores[k - 1];
      }
    }
  }

  /**
   * The program's run: it performs at least one pass and at most ten, its counter is the number
   * of completed passes, it stops right after the first pass scoring at least 0.7, and every
   * score lies in [0, 1].
   */
  /** A whole run of passes whose scores lie in [0, 1], from no completed pass. */
  predicate RunShaped(r: RunOutcome) {
    (r.result.Ok? ==> r.result.value == |r.scores| && 1 <= r.result.value <= MaxPasses)
    && (forall k :: 0 <= k < |r.scores| - 1 ==> r.scores[k] < ConvergenceThreshold)
    && (r.result.Ok? && r.result.value < MaxPasses ==> r.scores[|r.scores| - 1] >= ConvergenceThreshold)
    && (r.result.Err? ==> |r.scores| < MaxPasses)
    && (forall k :: 0 <= k < |r.scores| ==> 0.0 <= r.scores[k] <= 1.0)
  }

  lemma DriveShaped(pass: PassFn, st: State)
    requires ScoresInUnitRange(pass)
    ensures RunShaped(Drive(pass, st, 0))
  {
    DriveCount(pass, st, 0);
    DriveStopsAtThreshold(pass, st, 0);
    DriveScoresInUnitRange(pass, st, 0);
  }

  lemma RunShape(w: Wording, st: State, envs: nat -> PassEnv)
    requires AllWellFormed(envs)
    ensures var r := Drive(Passes(w, envs), st, 0);
      (r.result.Ok? ==> r.result.value == |r.scores| && 1 <= r.result.value <= MaxPasses)
      && (forall k :: 0 <= k < |r.scores| - 1 ==> r.scores[k] < ConvergenceThreshold)
      && (r.result.Ok? && r.result.value < MaxPasses ==> r.scores[|r.scores| - 1] >= ConvergenceThreshold)
      && (r.result.Err? ==> |r.scores| < MaxPasses)
      && (forall k :: 0 <= k < |r.scores| ==> 0.0 <= r.scores[k] <= 1.0)
  {
    PassesScoreInUnitRange(w, envs);
    DriveShaped(Passes(w, envs), st);
  }

  /** An error in the first pass ends the run with no score, and nothing else is run. */
  lemma FirstPassError(pass: PassFn, st: State)
    requires pass(st, 0).result.Err?
    ensures Drive(pass, st, 0) == RunOutcome(Err(pass(st, 0).result.error), [], pass(st, 0).state)
  {
  }

  /** A run that has reached `st` after `scores` ends at the next pass when it fails or stops. */
  lemma DriveEnds(pass: PassFn, st0: State, st: State, done: nat, scores: seq<real>)
    requires done < MaxPasses
    requires Drive(pass, st0, 0) == After(scores, Drive(pass, st, done))
    ensures var out := pass(st, done);
      (out.result.Err? ==> Drive(pass, st0, 0) == RunOutcome(Err(out.result.error), scores, out.state))
      && (out.result.Ok? && !Continues(out.result.value, done + 1) ==>
            Drive(pass, st0, 0) == RunOutcome(Ok(done + 1), scores + [out.result.value], out.state))
  {
    DriveStep(pass, st, done);
    assert scores + [] == scores;
  }

  /** A run that has reached `st` after `scores` and goes on adds the next pass's score. */
  lemma DriveGoesOn(pass: PassFn, st0: State, st: State, done: nat, scores: seq<real>)
    requires done < MaxPasses
    requires Drive(pass, st0, 0) == After(scores, Drive(pass, st, done))
    requires pass(st, done).result.Ok? && Continues(pass(st, done).result.value, done + 1)
    ensures var out := pass(st, done);
      Drive(pass, st0, 0) == After(scores + [out.result.value], Drive(pass, out.state, done + 1))
  {
    var out := pass(st, done);
    DriveStep(pass, st, done);
    var later := Drive(pass, out.state, done + 1);
    assert scores + ([out.result.value] + later.scores) == scores + [out.result.value] + later.scores;
  }

  /**
   * `main`'s loop: run a pass, count it, and go on while the score is below 0.7 and fewer than
   * ten passes have run; the first error is returned.
   */
  method Converge(st0: State, envs: nat -> PassEnv) returns (out: RunOutcome)
    requires AllWellFormed(envs)
    ensures out == Drive(Passes(SourceWording, envs), st0, 0)
  {
    ghost var passes := Passes(SourceWording, envs);
    var counter := 0;
    var st := st0;
    var scores := [];
    while true
      invariant counter < MaxPasses && |scores| == counter
      invariant Drive(passes, st0, 0) == After(scores, Drive(passes, st, counter))
      decreases MaxPasses - counter
    {
      var res := RunPass(st, envs(counter));
      assert res == passes(st, counter);
      DriveEnds(passes, st0, st, counter, scores);
      if res.result.Err? {
        return RunOutcome(Err(res.result.error), scores, res.state);
      }
      var score := res.result.value;
      if !Continues(score, counter + 1) {
        return RunOutcome(Ok(counter + 1), scores + [score], res.state);
      }
      DriveGoesOn(passes, st0, st, counter, scores);
      counter := counter + 1;
      scores := scores + [score];
      st := res.state;
    }
  }
}
