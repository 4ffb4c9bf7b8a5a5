/** The service that drives payload jobs: it sweeps the job table, then drains commands. */
module PayloadService {
  import opened Wrappers

  type PayloadId = nat

  datatype Poll = Pending | Finished | Failed

  /** A job and its internal state. */
  datatype Job = Job(key: nat, state: nat)

  /** The jobs and their generator, as functions: polling and resolving a job also change it. */
  datatype Generator = Generator(
    poll: Job -> (Job, Poll),
    resolve: Job -> (Job, nat, bool),
    best: Job -> nat,
    attributes: Job -> nat,
    create: (PayloadId, nat) -> Option<Job>)

  datatype Command =
    | BuildNewPayload(id: PayloadId, config: nat)
    | BestPayload(id: PayloadId)
    | PayloadAttributes(id: PayloadId)
    | Resolve(id: PayloadId)

  datatype Reply =
    | NewPayload(id: Option<PayloadId>)
    | Best(payload: Option<nat>)
    | Attributes(attributes: Option<nat>)
    | Resolved(future: Option<nat>)

  type Jobs = seq<(Job, PayloadId)>

  // ---------- what a sweep and a command do ----------

  /** The jobs still pending after one poll each, in table order. */
  function Survivors(gen: Generator, jobs: Jobs): Jobs {
    if |jobs| == 0 then []
    else
      var (job, result) := gen.poll(jobs[0].0);
      (if result == Pending then [(job, jobs[0].1)] else []) + Survivors(gen, jobs[1..])
  }

  /** Position of the first job with this id. */
  function Position(jobs: Jobs, id: PayloadId): (r: Option<nat>)
    ensures r.Some? ==> r.value < |jobs| && jobs[r.value].1 == id
    ensures r.None? ==> forall i :: 0 <= i < |jobs| ==> jobs[i].1 != id
  {
    if |jobs| == 0 then None
    else if jobs[0].1 == id then Some(0)
    else
      var rest := Position(jobs[1..], id);
      if rest.Some? then Some(rest.value + 1) else None
  }

  datatype Effect = Effect(jobs: Jobs, reply: Reply)

  /** A job is created unless its id is taken; a resolved job is removed unless it asks to be
      kept; everything else only reads. */
  function Execute(gen: Generator, jobs: Jobs, cmd: Command): Effect {
    var at := Position(jobs, cmd.id);
    match cmd
    case BuildNewPayload(id, config) =>
      if at.Some? then Effect(jobs, NewPayload(Some(id)))
      else
        var job := gen.create(id, config);
        if job.None? then Effect(jobs, NewPayload(None))
        else Effect(jobs + [(job.value, id)], NewPayload(Some(id)))
    case BestPayload(_) =>
      Effect(jobs, Best(if at.Some? then Some(gen.best(jobs[at.value].0)) else None))
    case PayloadAttributes(_) =>
      Effect(jobs, Attributes(if at.Some? then Some(gen.attributes(jobs[at.value].0)) else None))
    case Resolve(id) =>
      if at.None? then Effect(jobs, Resolved(None))
      else
        var (job, future, keepAlive) := gen.resolve(jobs[at.value].0);
        Effect(if keepAlive then jobs[at.value := (job, id)] else jobs[..at.value] + jobs[at.value + 1..],
               Resolved(Some(future)))
  }

  // ---------- runs ----------

  datatype Step =
    | Swept(before: Jobs, polled: Jobs, after: Jobs)
    | Handled(before: Jobs, cmd: Command, reply: Reply, after: Jobs)
  {
    predicate Creates() {
      Handled? && |after| == |before| + 1
    }
  }

  /** Every job present is polled exactly once, from the back, and what is left is a
      rearrangement of the jobs still pending. */
  ghost predicate IsSweep(gen: Generator, before: Jobs, polled: Jobs, after: Jobs) {
    && |polled| == |before|
    && (forall k :: 0 <= k < |polled| ==> polled[k] == before[|before| - 1 - k])
    && Rearranged(after, Survivors(gen, before))
  }

  /** How often an entry occurs in a table. */
  ghost function Count(jobs: Jobs, entry: (Job, PayloadId)): nat {
    multiset(jobs)[entry]
  }

  ghost predicate Rearranged(a: Jobs, b: Jobs) {
    forall entry {:trigger Count(a, entry)} {:trigger Count(b, entry)} :: Count(a, entry) == Count(b, entry)
  }

  lemma RearrangedIffSameBag(a: Jobs, b: Jobs)
    ensures Rearranged(a, b) <==> multiset(a) == multiset(b)
  {
    if Rearranged(a, b) {
      forall entry ensures multiset(a)[entry] == multiset(b)[entry] {
        assert Count(a, entry) == Count(b, entry);
      }
    }
  }

  ghost predicate ValidStep(gen: Generator, step: Step) {
    match step
    case Swept(before, polled, after) => IsSweep(gen, before, polled, after)
    case Handled(before, cmd, reply, after) => Execute(gen, before, cmd) == Effect(after, reply)
  }

  /** The steps of a run, latest last. */
  datatype Trace = Start | Then(earlier: Trace, step: Step)

  /** A run from `first` to `last`: valid steps, each starting where the one before ended. */
  ghost predicate IsRun(gen: Generator, first: Jobs, trace: Trace, last: Jobs) {
    match trace
    case Start => first == last
    case Then(earlier, step) => ValidStep(gen, step) && step.after == last && IsRun(gen, first, earlier, step.before)
  }

  function Commands(trace: Trace): seq<Command> {
    match trace
    case Start => []
    case Then(earlier, step) => Commands(earlier) + (if step.Handled? then [step.cmd] else [])
  }

  function Replies(trace: Trace): seq<Reply> {
    match trace
    case Start => []
    case Then(earlier, step) => Replies(earlier) + (if step.Handled? then [step.reply] else [])
  }

  lemma HandledExtends(gen: Generator, first: Jobs, trace: Trace, step: Step)
    requires step.Handled? && IsRun(gen, first, trace, step.before) && ValidStep(gen, step)
    ensures var next := Then(trace, step);
            && IsRun(gen, first, next, step.after)
            && Commands(next) == Commands(trace) + [step.cmd] && Replies(next) == Replies(trace) + [step.reply]
  {
  }

  lemma {:induction false} OneReplyEach(trace: Trace)
    ensures |Replies(trace)| == |Commands(trace)|
    decreases trace
  {
    if trace.Then? {
      OneReplyEach(trace.earlier);
    }
  }

  /** No job was created since the last sweep. */
  predicate Quiet(trace: Trace) {
    match trace
    case Start => false
    case Then(earlier, step) => step.Swept? || (!step.Creates() && Quiet(earlier))
  }

  function Flatten(batches: seq<seq<Command>>, n: nat): seq<Command>
    requires n <= |batches|
  {
    if n == 0 then [] else Flatten(batches, n - 1) + batches[n - 1]
  }

  /** The last element takes the place of the removed one. */
  function SwapRemove<T>(s: seq<T>, i: nat): (r: seq<T>)
    requires i < |s|
    ensures |r| == |s| - 1 && r[..i] == s[..i]
    ensures multiset(r[i..]) == multiset(s[i + 1..])
  {
    if i == |s| - 1 then
      s[..i]
    else
      var r := s[..i] + [s[|s| - 1]] + s[i + 1..|s| - 1];
      assert r[i..] == [s[|s| - 1]] + s[i + 1..|s| - 1];
      assert s[i + 1..] == s[i + 1..|s| - 1] + [s[|s| - 1]];
      r
  }

  /** The jobs below `idx` have not been touched; those from `idx` on are the survivors of the
      jobs that were there, in some order. */
  ghost predicate Sweeping(gen: Generator, before: Jobs, jobs: Jobs, idx: nat) {
    && idx <= |jobs| && idx <= |before| && jobs[..idx] == before[..idx]
    && multiset(jobs[idx..]) == multiset(Survivors(gen, before[idx..]))
  }

  lemma SweepStep(gen: Generator, before: Jobs, jobs: Jobs, idx: nat)
    requires Sweeping(gen, before, jobs, idx + 1)
    ensures jobs[idx] == before[idx]
    ensures var (job, result) := gen.poll(jobs[idx].0);
            var kept := if result == Pending then [(job, jobs[idx].1)] else [];
            Sweeping(gen, before, SwapRemove(jobs, idx) + kept, idx)
  {
    assert jobs[idx] == jobs[..idx + 1][idx] == before[..idx + 1][idx];
    assert jobs[..idx] == jobs[..idx + 1][..idx] == before[..idx + 1][..idx] == before[..idx];
    var (job, result) := gen.poll(jobs[idx].0);
    var kept := if result == Pending then [(job, jobs[idx].1)] else [];
    AppendKeepsFront(SwapRemove(jobs, idx), kept, idx);
    SurvivorsSplit(gen, before, idx);
  }

  lemma AppendKeepsFront(rest: Jobs, kept: Jobs, idx: nat)
    requires idx <= |rest|
    ensures (rest + kept)[..idx] == rest[..idx] && (rest + kept)[idx..] == rest[idx..] + kept
  {
  }

  lemma SurvivorsSplit(gen: Generator, jobs: Jobs, idx: nat)
    requires idx < |jobs|
    ensures var (job, result) := gen.poll(jobs[idx].0);
            Survivors(gen, jobs[idx..]) ==
            (if result == Pending then [(job, jobs[idx].1)] else []) + Survivors(gen, jobs[idx + 1..])
  {
    assert jobs[idx..][1..] == jobs[idx + 1..];
  }

  class PayloadBuilderService {
    const generator: Generator
    var payloadJobs: Jobs

    constructor (generator: Generator)
      ensures this.generator == generator && payloadJobs == []
    {
      this.generator := generator;
      payloadJobs := [];
    }

    /** Polls from the back, taking each job out by swapping the last one into its place and
        pushing it back if it is still pending. */
    method Sweep() returns (ghost polled: Jobs)
      modifies this
      ensures IsSweep(generator, old(payloadJobs), polled, payloadJobs)
    {
      polled := [];
      ghost var before := payloadJobs;
      for idx := |payloadJobs| downto 0
        invariant Sweeping(generator, before, payloadJobs, idx)
        invariant |polled| == |before| - idx
        invariant forall k :: 0 <= k < |polled| ==> polled[k] == before[|before| - 1 - k]
      {
        SweepStep(generator, before, payloadJobs, idx);
        var (job, id) := payloadJobs[idx];
        polled := polled + [(job, id)];
        payloadJobs := SwapRemove(payloadJobs, idx);
        var (job', result) := generator.poll(job);
        if result == Pending {
          payloadJobs := payloadJobs + [(job', id)];
        }
      }
      assert payloadJobs[0..] == payloadJobs && before[0..] == before;
      RearrangedIffSameBag(payloadJobs, Survivors(generator, before));
    }

    method Handle(cmd: Command) returns (reply: Reply, created: bool)
      modifies this
      ensures Execute(generator, old(payloadJobs), cmd) == Effect(payloadJobs, reply)
      ensures created <==> Handled(old(payloadJobs), cmd, reply, payloadJobs).Creates()
    {
      created := false;
      var at := Position(payloadJobs, cmd.id);
      match cmd {
        case BuildNewPayload(id, config) =>
          reply := NewPayload(Some(id));
          if at.None? {
            var job := generator.create(id, config);
            if job.Some? {
              created := true;
              payloadJobs := payloadJobs + [(job.value, id)];
            } else {
              reply := NewPayload(None);
            }
          }
        case BestPayload(_) =>
          reply := Best(if at.Some? then Some(generator.best(payloadJobs[at.value].0)) else None);
        case PayloadAttributes(_) =>
          reply := Attributes(if at.Some? then Some(generator.attributes(payloadJobs[at.value].0)) else None);
        case Resolve(id) =>
          reply := Resolved(None);
          if at.Some? {
            var (job, future, keepAlive) := generator.resolve(payloadJobs[at.value].0);
            if keepAlive {
              payloadJobs := payloadJobs[at.value := (job, id)];
            } else {
              payloadJobs := payloadJobs[..at.value] + payloadJobs[at.value + 1..];
            }
            reply := Resolved(Some(future));
          }
      }
    }

    /** Handles the commands of one batch in order. */
    method Drain(batch: seq<Command>, ghost first: Jobs, ghost before: Trace)
      returns (replies: seq<Reply>, newJob: bool, ghost trace: Trace)
      requires IsRun(generator, first, before, payloadJobs) && Quiet(before)
      modifies this
      ensures IsRun(generator, first, trace, payloadJobs)
      ensures Commands(trace) == Commands(before) + batch && Replies(trace) == Replies(before) + replies
      ensures newJob <==> !Quiet(trace)
      ensures newJob ==> |batch| > 0
    {
      replies, newJob, trace := [], false, before;
      var n := 0;
      while n < |batch|
        invariant 0 <= n <= |batch|
        invariant IsRun(generator, first, trace, payloadJobs)
        invariant Commands(trace) == Commands(before) + batch[..n] && Replies(trace) == Replies(before) + replies
        invariant newJob <==> !Quiet(trace)
        invariant newJob ==> |batch| > 0
      {
        ghost var jobs := payloadJobs;
        var reply, created := Handle(batch[n]);
        HandledExtends(generator, first, trace, Handled(jobs, batch[n], reply, payloadJobs));
        trace := Then(trace, Handled(jobs, batch[n], reply, payloadJobs));
        assert batch[..n + 1] == batch[..n] + [batch[n]];
        replies := replies + [reply];
        newJob := newJob || created;
        n := n + 1;
      }
      assert batch[..n] == batch;
    }

    /** One sweep and the drain behind it. */
    method Round(batch: seq<Command>, ghost first: Jobs, ghost before: Trace)
      returns (replies: seq<Reply>, newJob: bool, ghost trace: Trace)
      requires IsRun(generator, first, before, payloadJobs)
      modifies this
      ensures IsRun(generator, first, trace, payloadJobs)
      ensures Commands(trace) == Commands(before) + batch && Replies(trace) == Replies(before) + replies
      ensures newJob <==> !Quiet(trace)
      ensures newJob ==> |batch| > 0
    {
      ghost var jobs := payloadJobs;
      ghost var polled := Sweep();
      trace := Then(before, Swept(jobs, polled, payloadJobs));
      replies, newJob, trace := Drain(batch, first, trace);
    }

    /** One poll of the service; batches[k] is what the k-th drain finds in the channel. It
        sweeps and drains until a drain creates no job: every command taken is answered, in
        order, and every job created is polled by a later sweep before the poll ends. */
    method PollService(batches: seq<seq<Command>>)
      returns (replies: seq<Reply>, rounds: nat, ghost trace: Trace)
      modifies this
      ensures IsRun(generator, old(payloadJobs), trace, payloadJobs)
      ensures rounds <= |batches| && Commands(trace) == Flatten(batches, rounds)
      ensures Replies(trace) == replies && |replies| == |Flatten(batches, rounds)|
      ensures Quiet(trace)
    {
      ghost var first := payloadJobs;
      replies, rounds, trace := [], 0, Start;
      var newJob := true;
      while newJob
        invariant rounds <= |batches|
        invariant IsRun(generator, first, trace, payloadJobs)
        invariant Commands(trace) == Flatten(batches, rounds) && Replies(trace) == replies
        invariant !newJob ==> Quiet(trace)
        decreases newJob, |batches| - rounds
      {
        var batch := if rounds < |batches| then batches[rounds] else [];
        var answered: seq<Reply>;
        answered, newJob, trace := Round(batch, first, trace);
        replies := replies + answered;
        rounds := if rounds < |batches| then rounds + 1 else rounds;
      }
      OneReplyEach(trace);
    }
  }
}
