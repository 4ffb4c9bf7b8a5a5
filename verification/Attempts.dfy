/** Build attempts as a job sees them: what comes back from one, and that it is what the strategy
    builds. */
module Attempts {
  import opened Wrappers
  import opened Words
  import opened Evm
  import opened Bundles
  import opened Ledger
  import opened Policy
  import Strat = BundlesStrat
  import opened BuildStates

  /** The reads cache is passed from attempt to attempt; only its identity matters here. */
  type CachedReads = nat

  datatype Outcome =
    | Better(build: Candidate, cached: CachedReads)
    | Aborted(blockValue: U256, cached: CachedReads)
    | Cancelled

  /** What polling the attempt in flight yields. */
  datatype Attempt = NotReady | Done(outcome: Outcome) | Errored

  /** What an attempt is started with, apart from the best build. */
  datatype BuildArgs = BuildArgs(
    cfg: BuildConfig,
    world: World,
    bundles: seq<RecoveredBundle>,
    pool: Strat.PoolIterator,
    cancelled: nat -> bool)
  {
    ghost predicate NeverCancelled() {
      forall n: nat {:trigger cancelled(n)} :: !cancelled(n)
    }
  }

  function BestValue(best: Option<Candidate>): U256 {
    if best.None? then 0 else best.value.value
  }

  /** The report behind an outcome. */
  function Reported(o: Outcome): Strat.Report {
    match o
    case Better(build, _) => Strat.Improved(build.value)
    case Aborted(value, _) => Strat.NotImproved(value)
    case Cancelled => Strat.WasCancelled
  }

  /** The strategy, run with these arguments against this best value, comes to this outcome. */
  ghost predicate Yields(args: BuildArgs, bestValue: U256, run: Strat.Run, end: Strat.MempoolEnd, o: Outcome) {
    && Strat.Attempted(args.cfg, args.world, args.bundles, args.pool, args.cancelled, bestValue, run, end, Reported(o))
    && (o.Better? ==> o.build.slot == args.cfg.slot && o.build.baseFee == args.cfg.baseFee)
  }

  /** What is polled comes from a build for this slot against this best value, on whatever state
      and with whatever bundles and pool, that nobody cancels. */
  ghost predicate IsAttempt(slot: nat, bestValue: U256, attempt: Attempt) {
    attempt.Done? ==>
      exists args: BuildArgs, run, end {:trigger Yields(args, bestValue, run, end, attempt.outcome)} ::
        args.cfg.slot == slot && args.NeverCancelled() && Yields(args, bestValue, run, end, attempt.outcome)
  }

  /** An attempt's better build is for its slot and strictly exceeds the best value it was started
      with, and an attempt nobody cancels does not report itself cancelled. */
  lemma AttemptImproves(slot: nat, bestValue: U256, attempt: Attempt)
    requires IsAttempt(slot, bestValue, attempt)
    ensures attempt.Done? ==> !attempt.outcome.Cancelled?
    ensures attempt.Done? && attempt.outcome.Better? ==>
              attempt.outcome.build.slot == slot && attempt.outcome.build.value > bestValue
  {
    if attempt.Done? {
      var args: BuildArgs, run, end :| args.cfg.slot == slot && args.NeverCancelled() && Yields(args, bestValue, run, end, attempt.outcome);
      assert !args.cancelled(|run.offers|);
    }
  }

  /** One attempt in full: it runs the strategy against the best build so far. A better build is
      handed out together with the candidate that stands for it. */
  method RunAttempt(args: BuildArgs, ghost bound: nat, best: BuildState?, id: nat, cached: CachedReads)
    returns (attempt: Attempt, built: BuildState?)
    requires Strat.Bounded(args.pool, bound) && args.NeverCancelled()
    ensures !attempt.NotReady?
    ensures IsAttempt(args.cfg.slot, if best == null then 0 else best.BlockValue(), attempt)
    ensures attempt.Errored? <==> Strat.BundlePhaseErrs(args.cfg, args.world, args.bundles)
    ensures built != null <==> attempt.Done? && attempt.outcome.Better?
    ensures built != null ==>
      && fresh(built) && built.cfg == args.cfg
      && attempt.outcome.build == Candidate(id, built.cfg.slot, built.cfg.baseFee, built.BlockValue())
  {
    ghost var bestValue: U256 := if best == null then 0 else best.BlockValue();
    var result, run, end := Strat.TryBuild(args.cfg, args.world, args.bundles, args.pool, bound, args.cancelled, best);
    built := null;
    match result {
      case Failure(_) =>
        return Errored, built;
      case Success(Better(state)) =>
        built := state;
        attempt := Done(Better(Candidate(id, state.cfg.slot, state.cfg.baseFee, state.BlockValue()), cached));
      case Success(Aborted(value)) =>
        attempt := Done(Aborted(value, cached));
      case Success(Cancelled) =>
        attempt := Done(Cancelled);
    }
    assert Yields(args, bestValue, run, end, attempt.outcome);
  }
}
