/** The streaming build job: it keeps one build attempt in flight and sends every better
    build to the bidder. */
module StreamJob {
  import opened Wrappers
  import opened Policy
  import opened Attempts

  const NO_READS: CachedReads := 0

  /** `expired` is whether the deadline has passed. */
  datatype JobInput = JobInput(expired: bool, attempt: Attempt)

  /** An attempt in flight: the best build it was started with and the reads it was given. */
  datatype PendingBuild = PendingBuild(bestBuild: Option<Candidate>, cached: CachedReads)

  datatype JobState = JobState(
    slot: nat,
    bestBuild: Option<Candidate>,
    pending: Option<PendingBuild>,
    cachedReads: Option<CachedReads>,
    sent: seq<Candidate>,
    spawned: nat,
    ended: nat)

  function NewJob(slot: nat): JobState {
    JobState(slot, None, None, None, [], 0, 0)
  }

  /** A new attempt is only spawned when none is in flight. */
  function Spawn(st: JobState): JobState {
    if st.pending.Some? then st
    else st.(pending := Some(PendingBuild(st.bestBuild, st.cachedReads.GetOr(NO_READS))),
             cachedReads := None, spawned := st.spawned + 1)
  }

  function OnAttempt(st: JobState, attempt: Attempt): JobState {
    match attempt
    case NotReady => st
    case Errored => st.(pending := None, ended := st.ended + 1)
    case Done(Better(build, cached)) =>
      st.(pending := None, ended := st.ended + 1, cachedReads := Some(cached), bestBuild := Some(build), sent := st.sent + [build])
    case Done(Aborted(_, cached)) => st.(pending := None, ended := st.ended + 1, cachedReads := Some(cached))
    case Done(Cancelled) => st
  }

  /** Unless the deadline has passed, what is polled is the outcome of a build attempt for the job's
      slot, run against the best build it was started with. */
  ghost predicate BuiltFor(st: JobState, input: JobInput) {
    !input.expired ==> IsAttempt(st.slot, BestValue(Spawn(st).pending.value.bestBuild), input.attempt)
  }

  function Step(st: JobState, input: JobInput): JobState {
    if input.expired then st else OnAttempt(Spawn(st), input.attempt)
  }

  class StreamBuildJob {
    const slot: nat
    var bestBuild: Option<Candidate>
    var pendingBuild: Option<PendingBuild>
    var cachedReads: Option<CachedReads>
    /** Everything handed to the bidder. */
    var sent: seq<Candidate>
    ghost var spawned: nat
    ghost var ended: nat

    constructor (slot: nat)
      ensures View() == NewJob(slot)
    {
      this.slot := slot;
      bestBuild, pendingBuild, cachedReads, sent := None, None, None, [];
      spawned, ended := 0, 0;
    }

    ghost function View(): JobState
      reads this
    {
      JobState(slot, bestBuild, pendingBuild, cachedReads, sent, spawned, ended)
    }

    /** What is polled comes from a build that nobody cancels, so it is not reported cancelled. */
    method Poll(input: JobInput) returns (finished: bool)
      requires BuiltFor(View(), input)
      modifies this
      ensures View() == Step(old(View()), input) && finished == input.expired
    {
      if input.expired {
        return true;
      }
      if pendingBuild.None? {
        pendingBuild := Some(PendingBuild(bestBuild, cachedReads.GetOr(NO_READS)));
        cachedReads := None;
        spawned := spawned + 1;
      }
      AttemptImproves(slot, BestValue(pendingBuild.value.bestBuild), input.attempt);
      match input.attempt {
        case NotReady =>
        case Errored =>
          pendingBuild, ended := None, ended + 1;
        case Done(outcome) =>
          pendingBuild, ended := None, ended + 1;
          cachedReads := Some(outcome.cached);
          if outcome.Better? {
            bestBuild := Some(outcome.build);
            sent := sent + [outcome.build];
          }
      }
      finished := false;
    }
  }

  // ---------- all runs ----------

  /** The better builds that polls within the deadline got back, in order. */
  function BetterBuilds(inputs: seq<JobInput>, n: nat): seq<Candidate>
    requires n <= |inputs|
  {
    if n == 0 then []
    else
      var input := inputs[n - 1];
      BetterBuilds(inputs, n - 1) +
      (if !input.expired && input.attempt.Done? && input.attempt.outcome.Better? then [input.attempt.outcome.build] else [])
  }

  /** The last poll within the deadline left its attempt unfinished. */
  predicate Unfinished(inputs: seq<JobInput>, n: nat)
    requires n <= |inputs|
  {
    n > 0 && if inputs[n - 1].expired then Unfinished(inputs, n - 1) else inputs[n - 1].attempt.NotReady?
  }

  /** How many polls within the deadline found no attempt unfinished. */
  function Starts(inputs: seq<JobInput>, n: nat): nat
    requires n <= |inputs|
  {
    if n == 0 then 0
    else Starts(inputs, n - 1) + (if !inputs[n - 1].expired && !Unfinished(inputs, n - 1) then 1 else 0)
  }

  /** The reads that come back from the last poll within the deadline, if it finished an attempt
      without error. */
  function Returned(inputs: seq<JobInput>, n: nat): Option<CachedReads>
    requires n <= |inputs|
  {
    if n == 0 then None
    else if inputs[n - 1].expired then Returned(inputs, n - 1)
    else
      match inputs[n - 1].attempt
      case Done(Better(_, cached)) => Some(cached)
      case Done(Aborted(_, cached)) => Some(cached)
      case _ => None
  }

  /** The reads the latest attempt was started with. */
  function StartedWith(inputs: seq<JobInput>, n: nat): CachedReads
    requires n <= |inputs|
  {
    if n == 0 then NO_READS
    else if !inputs[n - 1].expired && !Unfinished(inputs, n - 1) then Returned(inputs, n - 1).GetOr(NO_READS)
    else StartedWith(inputs, n - 1)
  }

  /** What the first `n` polls make of a job. */
  predicate Follows(st: JobState, inputs: seq<JobInput>, n: nat)
    requires n <= |inputs|
  {
    var better := BetterBuilds(inputs, n);
    && st.sent == better
    && st.bestBuild == (if |better| == 0 then None else Some(better[|better| - 1]))
    && (st.pending.Some? <==> Unfinished(inputs, n))
    && st.spawned == Starts(inputs, n)
    && st.cachedReads == Returned(inputs, n)
    && (st.pending.Some? ==> st.pending.value.cached == StartedWith(inputs, n))
  }

  lemma {:induction false} UnfinishedReturnsNothing(inputs: seq<JobInput>, n: nat)
    requires n <= |inputs| && Unfinished(inputs, n)
    ensures Returned(inputs, n) == None
  {
    if inputs[n - 1].expired {
      UnfinishedReturnsNothing(inputs, n - 1);
    }
  }

  lemma StepFollows(st: JobState, inputs: seq<JobInput>, n: nat)
    requires n < |inputs| && Follows(st, inputs, n)
    requires inputs[n].expired || !inputs[n].attempt.Done? || !inputs[n].attempt.outcome.Cancelled?
    ensures Follows(Step(st, inputs[n]), inputs, n + 1)
  {
    if Unfinished(inputs, n) {
      UnfinishedReturnsNothing(inputs, n);
    }
  }

  /** In every run of a job whose attempts are runs of the strategy: what has been sent is exactly
      what polls within the deadline got back as better, in order, and the best build is the last
      of it; an attempt is in flight exactly while the last such poll left one unfinished, an
      attempt is started by each that finds none, with the reads that the one before returned. */
  lemma {:induction false} RunFollows(slot: nat, inputs: seq<JobInput>, n: nat)
    requires n <= |inputs|
    requires forall i {:trigger BuiltAt(slot, inputs, i)} :: 0 <= i < n ==> BuiltAt(slot, inputs, i)
    ensures Follows(Run(slot, inputs, n), inputs, n)
    decreases n
  {
    if n > 0 {
      RunFollows(slot, inputs, n - 1);
      assert BuiltAt(slot, inputs, n - 1);
      var st, input := Run(slot, inputs, n - 1), inputs[n - 1];
      if !input.expired {
        AttemptImproves(st.slot, BestValue(Spawn(st).pending.value.bestBuild), input.attempt);
      }
      StepFollows(st, inputs, n - 1);
    }
  }

  /** At most one attempt is in flight, it was started with the job's best build, and what has
      been sent strictly increases in value from above zero and ends with the best build. */
  predicate Streaming(st: JobState) {
    && st.spawned == st.ended + (if st.pending.Some? then 1 else 0)
    && (st.pending.Some? ==> st.pending.value.bestBuild == st.bestBuild)
    && (st.bestBuild.None? <==> st.sent == [])
    && (st.sent != [] ==> st.bestBuild == Some(st.sent[|st.sent| - 1]))
    && (forall b :: b in st.sent ==> b.slot == st.slot && b.value > 0)
    && IncreasingValues(st.sent)
  }

  predicate IncreasingValues(builds: seq<Candidate>) {
    forall i, j :: 0 <= i < j < |builds| ==> builds[i].value < builds[j].value
  }

  /** A better build is for the job's slot and strictly better than what the attempt started with. */
  predicate Improves(st: JobState, input: JobInput) {
    input.attempt.Done? ==>
      && !input.attempt.outcome.Cancelled?
      && (input.attempt.outcome.Better? ==>
            && input.attempt.outcome.build.slot == st.slot
            && input.attempt.outcome.build.value > BestValue(Spawn(st).pending.value.bestBuild))
  }

  lemma StepStreams(st: JobState, input: JobInput)
    requires Streaming(st) && (input.expired || Improves(st, input))
    ensures Streaming(Step(st, input)) && Step(st, input).slot == st.slot
    ensures st.sent <= Step(st, input).sent
  {
    var st' := Step(st, input);
    if st'.sent != st.sent {
      var build := input.attempt.outcome.build;
      assert st'.sent == st.sent + [build];
      if st.sent != [] {
        assert build.value > st.sent[|st.sent| - 1].value;
      }
    }
  }

  lemma StepKeepsStreaming(st: JobState, input: JobInput)
    requires Streaming(st) && BuiltFor(st, input)
    ensures Streaming(Step(st, input)) && Step(st, input).slot == st.slot
    ensures st.sent <= Step(st, input).sent
  {
    if !input.expired {
      AttemptImproves(st.slot, BestValue(Spawn(st).pending.value.bestBuild), input.attempt);
    }
    StepStreams(st, input);
  }

  function Run(slot: nat, inputs: seq<JobInput>, n: nat): JobState
    requires n <= |inputs|
    decreases n
  {
    if n == 0 then NewJob(slot) else Step(Run(slot, inputs, n - 1), inputs[n - 1])
  }

  ghost predicate BuiltAt(slot: nat, inputs: seq<JobInput>, i: nat)
    requires i < |inputs|
  {
    BuiltFor(Run(slot, inputs, i), inputs[i])
  }

  /** In every run of a job whose attempts are runs of the strategy, the job streams. */
  lemma {:induction false} RunStreams(slot: nat, inputs: seq<JobInput>, n: nat)
    requires n <= |inputs|
    requires forall i {:trigger BuiltAt(slot, inputs, i)} :: 0 <= i < n ==> BuiltAt(slot, inputs, i)
    ensures Streaming(Run(slot, inputs, n)) && Run(slot, inputs, n).slot == slot
    decreases n
  {
    if n > 0 {
      RunStreams(slot, inputs, n - 1);
      assert BuiltAt(slot, inputs, n - 1);
      StepKeepsStreaming(Run(slot, inputs, n - 1), inputs[n - 1]);
    }
  }
}
