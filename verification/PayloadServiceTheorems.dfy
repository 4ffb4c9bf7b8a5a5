/** What holds over all runs of the payload service, however often it is polled. */
module PayloadServiceTheorems {
  import opened Wrappers
  import opened PayloadService

  /** How many jobs in a table have this id. */
  function IdCount(jobs: Jobs, id: PayloadId): nat {
    if |jobs| == 0 then 0 else (if jobs[0].1 == id then 1 else 0) + IdCount(jobs[1..], id)
  }

  lemma {:induction false} CountConcat(a: Jobs, b: Jobs, id: PayloadId)
    ensures IdCount(a + b, id) == IdCount(a, id) + IdCount(b, id)
    decreases |a|
  {
    if |a| == 0 {
      assert a + b == b;
    } else {
      assert (a + b)[1..] == a[1..] + b;
      CountConcat(a[1..], b, id);
    }
  }

  function Remove(jobs: Jobs, i: nat): (r: Jobs)
    requires i < |jobs|
    ensures multiset(r) == multiset(jobs) - multiset{jobs[i]}
  {
    assert jobs == jobs[..i] + [jobs[i]] + jobs[i + 1..];
    jobs[..i] + jobs[i + 1..]
  }

  lemma CountRemove(jobs: Jobs, i: nat, id: PayloadId)
    requires i < |jobs|
    ensures IdCount(jobs, id) == IdCount(Remove(jobs, i), id) + (if jobs[i].1 == id then 1 else 0)
  {
    assert jobs == jobs[..i] + jobs[i..];
    CountConcat(jobs[..i], jobs[i..], id);
    CountConcat(jobs[..i], jobs[i + 1..], id);
    assert jobs[i..][1..] == jobs[i + 1..];
  }

  lemma {:induction false} SameBagSameCount(a: Jobs, b: Jobs, id: PayloadId)
    requires multiset(a) == multiset(b)
    ensures IdCount(a, id) == IdCount(b, id)
    decreases |a|
  {
    assert |a| == |multiset(a)| == |multiset(b)| == |b|;
    if |a| > 0 {
      assert a[0] in multiset(b);
      var i :| 0 <= i < |b| && b[i] == a[0];
      CountRemove(a, 0, id);
      CountRemove(b, i, id);
      SameBagSameCount(Remove(a, 0), Remove(b, i), id);
    }
  }

  lemma {:induction false} CountedIff(jobs: Jobs, id: PayloadId)
    ensures IdCount(jobs, id) > 0 <==> Position(jobs, id).Some?
    decreases |jobs|
  {
    if |jobs| > 0 {
      CountedIff(jobs[1..], id);
    }
  }

  // ---------- what comes and goes ----------

  /** How many jobs with this id a poll finds finished or failed. */
  function DoneCount(gen: Generator, jobs: Jobs, id: PayloadId): nat {
    if |jobs| == 0 then 0
    else (if jobs[0].1 == id && gen.poll(jobs[0].0).1 != Pending then 1 else 0) + DoneCount(gen, jobs[1..], id)
  }

  /** The command resolves a job with this id that does not ask to be kept alive. */
  predicate ResolvedAway(gen: Generator, step: Step, id: PayloadId) {
    && step.Handled? && step.cmd == Resolve(id)
    && var at := Position(step.before, id);
       at.Some? && !gen.resolve(step.before[at.value].0).2
  }

  function Departed(gen: Generator, step: Step, id: PayloadId): nat {
    if step.Swept? then DoneCount(gen, step.before, id)
    else if ResolvedAway(gen, step, id) then 1
    else 0
  }

  function Created(step: Step, id: PayloadId): nat {
    if step.Creates() && step.cmd.id == id then 1 else 0
  }

  lemma {:induction false} SurvivorsAndDone(gen: Generator, jobs: Jobs, id: PayloadId)
    ensures IdCount(Survivors(gen, jobs), id) + DoneCount(gen, jobs, id) == IdCount(jobs, id)
    decreases |jobs|
  {
    if |jobs| > 0 {
      SurvivorsAndDone(gen, jobs[1..], id);
      var (job, result) := gen.poll(jobs[0].0);
      CountConcat(if result == Pending then [(job, jobs[0].1)] else [], Survivors(gen, jobs[1..]), id);
    }
  }

  lemma CountUpdate(jobs: Jobs, i: nat, job: Job, id: PayloadId)
    requires i < |jobs|
    ensures IdCount(jobs[i := (job, jobs[i].1)], id) == IdCount(jobs, id)
  {
    var updated := jobs[i := (job, jobs[i].1)];
    CountRemove(jobs, i, id);
    CountRemove(updated, i, id);
    assert Remove(updated, i) == Remove(jobs, i);
  }

  lemma ResolveConserves(gen: Generator, step: Step, id: PayloadId)
    requires step.Handled? && step.cmd.Resolve? && ValidStep(gen, step)
    ensures IdCount(step.after, id) + Departed(gen, step, id) == IdCount(step.before, id)
  {
    var jobs, at := step.before, Position(step.before, step.cmd.id);
    if at.Some? {
      if gen.resolve(jobs[at.value].0).2 {
        CountUpdate(jobs, at.value, gen.resolve(jobs[at.value].0).0, id);
      } else {
        CountRemove(jobs, at.value, id);
      }
    }
  }

  lemma BuildConserves(gen: Generator, step: Step, id: PayloadId)
    requires step.Handled? && step.cmd.BuildNewPayload? && ValidStep(gen, step)
    ensures IdCount(step.after, id) == IdCount(step.before, id) + Created(step, id)
  {
    if step.Creates() {
      CountConcat(step.before, [step.after[|step.before|]], id);
    }
  }

  /** In every step and for every id, jobs before plus jobs created are jobs after plus jobs departed. */
  lemma StepConserves(gen: Generator, step: Step, id: PayloadId)
    requires ValidStep(gen, step)
    ensures IdCount(step.after, id) + Departed(gen, step, id) == IdCount(step.before, id) + Created(step, id)
  {
    if step.Swept? {
      RearrangedIffSameBag(step.after, Survivors(gen, step.before));
      SameBagSameCount(step.after, Survivors(gen, step.before), id);
      SurvivorsAndDone(gen, step.before, id);
    } else if step.cmd.Resolve? {
      ResolveConserves(gen, step, id);
    } else if step.cmd.BuildNewPayload? {
      BuildConserves(gen, step, id);
    }
  }

  // ---------- all runs ----------

  /** At most one job per id. */
  ghost predicate DistinctIds(jobs: Jobs) {
    forall id: PayloadId {:trigger IdCount(jobs, id)} :: IdCount(jobs, id) <= 1
  }

  function AllDeparted(gen: Generator, trace: Trace, id: PayloadId): nat {
    match trace
    case Start => 0
    case Then(earlier, step) => AllDeparted(gen, earlier, id) + Departed(gen, step, id)
  }

  function AllCreated(trace: Trace, id: PayloadId): nat {
    match trace
    case Start => 0
    case Then(earlier, step) => AllCreated(earlier, id) + Created(step, id)
  }

  lemma CreatedWasAbsent(gen: Generator, step: Step, id: PayloadId)
    requires ValidStep(gen, step) && Created(step, id) == 1
    ensures IdCount(step.before, id) == 0
  {
    CountedIff(step.before, id);
  }

  lemma StepKeepsDistinct(gen: Generator, step: Step)
    requires ValidStep(gen, step) && DistinctIds(step.before)
    ensures DistinctIds(step.after)
  {
    forall id: PayloadId ensures IdCount(step.after, id) <= 1 {
      StepConserves(gen, step, id);
      assert IdCount(step.before, id) <= 1;
      if Created(step, id) == 1 {
        CreatedWasAbsent(gen, step, id);
      }
    }
  }

  /** Over every run job ids stay pairwise distinct, and for every id the table holds what was
      there at first plus what was created less what departed. */
  lemma {:induction false} RunConserves(gen: Generator, first: Jobs, trace: Trace, last: Jobs, id: PayloadId)
    requires IsRun(gen, first, trace, last) && DistinctIds(first)
    ensures DistinctIds(last)
    ensures IdCount(last, id) + AllDeparted(gen, trace, id) == IdCount(first, id) + AllCreated(trace, id)
    decreases trace
  {
    if trace.Then? {
      RunConserves(gen, first, trace.earlier, trace.step.before, id);
      StepKeepsDistinct(gen, trace.step);
      StepConserves(gen, trace.step, id);
    }
  }

  // ---------- many polls ----------

  /** One run and another behind it. */
  function Joined(a: Trace, b: Trace): Trace {
    match b
    case Start => a
    case Then(earlier, step) => Then(Joined(a, earlier), step)
  }

  lemma {:induction false} RunsJoin(gen: Generator, first: Jobs, a: Trace, between: Jobs, b: Trace, last: Jobs)
    requires IsRun(gen, first, a, between) && IsRun(gen, between, b, last)
    ensures IsRun(gen, first, Joined(a, b), last)
    ensures Commands(Joined(a, b)) == Commands(a) + Commands(b) && Replies(Joined(a, b)) == Replies(a) + Replies(b)
    decreases b
  {
    if b.Then? {
      RunsJoin(gen, first, a, between, b.earlier, b.step.before);
    }
  }

  function JoinedTo(traces: seq<Trace>, n: nat): Trace
    requires n <= |traces|
  {
    if n == 0 then Start else Joined(JoinedTo(traces, n - 1), traces[n - 1])
  }

  ghost predicate PollAt(gen: Generator, tables: seq<Jobs>, traces: seq<Trace>, i: nat)
    requires i < |traces| && |tables| == |traces| + 1
  {
    IsRun(gen, tables[i], traces[i], tables[i + 1])
  }

  /** Polls of the service one after another: each starts with the table the one before left. */
  ghost predicate Polls(gen: Generator, tables: seq<Jobs>, traces: seq<Trace>) {
    && |tables| == |traces| + 1
    && forall i: nat {:trigger PollAt(gen, tables, traces, i)} :: i < |traces| ==> PollAt(gen, tables, traces, i)
  }

  lemma {:induction false} PollsAreOneRun(gen: Generator, tables: seq<Jobs>, traces: seq<Trace>, n: nat)
    requires Polls(gen, tables, traces) && n <= |traces|
    ensures IsRun(gen, tables[0], JoinedTo(traces, n), tables[n])
  {
    if n > 0 {
      PollsAreOneRun(gen, tables, traces, n - 1);
      assert PollAt(gen, tables, traces, n - 1);
      RunsJoin(gen, tables[0], JoinedTo(traces, n - 1), tables[n - 1], traces[n - 1], tables[n]);
    }
  }

  /** However often the service is polled, from distinct ids on the ids stay distinct after every
      poll, and jobs held plus jobs departed so far are jobs at first plus jobs created so far. */
  lemma PollsConserve(gen: Generator, tables: seq<Jobs>, traces: seq<Trace>, n: nat, id: PayloadId)
    requires Polls(gen, tables, traces) && n <= |traces| && DistinctIds(tables[0])
    ensures DistinctIds(tables[n])
    ensures IdCount(tables[n], id) + AllDeparted(gen, JoinedTo(traces, n), id)
         == IdCount(tables[0], id) + AllCreated(JoinedTo(traces, n), id)
  {
    PollsAreOneRun(gen, tables, traces, n);
    RunConserves(gen, tables[0], JoinedTo(traces, n), tables[n], id);
  }

  // ---------- single steps ----------

  lemma {:induction false} DoneIsNotPending(gen: Generator, jobs: Jobs, id: PayloadId) returns (i: nat)
    requires DoneCount(gen, jobs, id) > 0
    ensures i < |jobs| && jobs[i].1 == id && gen.poll(jobs[i].0).1 != Pending
    decreases |jobs|
  {
    if jobs[0].1 == id && gen.poll(jobs[0].0).1 != Pending {
      i := 0;
    } else {
      i := DoneIsNotPending(gen, jobs[1..], id);
      i := i + 1;
    }
  }

  /** An id leaves the table only because its job finished or failed when polled, or because of
      a resolve of that id that does not keep the job alive. */
  lemma LeavesOnlyWhenDone(gen: Generator, step: Step, id: PayloadId)
    requires ValidStep(gen, step)
    requires Position(step.before, id).Some? && Position(step.after, id).None?
    ensures step.Swept? ==>
      exists i :: 0 <= i < |step.before| && step.before[i].1 == id && gen.poll(step.before[i].0).1 != Pending
    ensures step.Handled? ==> ResolvedAway(gen, step, id)
  {
    StepConserves(gen, step, id);
    CountedIff(step.before, id);
    CountedIff(step.after, id);
    if step.Swept? {
      var i := DoneIsNotPending(gen, step.before, id);
    }
  }

  lemma TwoWithOneId(jobs: Jobs, i: nat, j: nat)
    requires i < j < |jobs| && jobs[i].1 == jobs[j].1
    ensures IdCount(jobs, jobs[i].1) >= 2
  {
    CountRemove(jobs, j, jobs[i].1);
    CountRemove(Remove(jobs, j), i, jobs[i].1);
  }

  /** Where the one job of an id is in a rearranged table. */
  lemma SameJobAtPosition(a: Jobs, b: Jobs, id: PayloadId)
    requires Rearranged(a, b) && DistinctIds(a)
    ensures Position(a, id).Some? <==> Position(b, id).Some?
    ensures Position(a, id).Some? ==> a[Position(a, id).value] == b[Position(b, id).value]
  {
    RearrangedIffSameBag(a, b);
    SameBagSameCount(a, b, id);
    CountedIff(a, id);
    CountedIff(b, id);
    if Position(a, id).Some? {
      var i, j := Position(a, id).value, Position(b, id).value;
      assert a[i] in multiset(b);
      var k :| 0 <= k < |b| && b[k] == a[i];
      if k < j {
        TwoWithOneId(b, k, j);
      } else if j < k {
        TwoWithOneId(b, j, k);
      }
    }
  }

  /** Replies do not depend on the order of the table, which sweeps do not preserve. */
  lemma ReplyIgnoresOrder(gen: Generator, a: Jobs, b: Jobs, cmd: Command)
    requires Rearranged(a, b) && DistinctIds(a)
    ensures Execute(gen, a, cmd).reply == Execute(gen, b, cmd).reply
  {
    SameJobAtPosition(a, b, cmd.id);
  }

  // ---------- what replies and sweeps contain ----------

  /** With distinct ids, the job of an id is found. */
  lemma PositionOfJob(jobs: Jobs, i: nat)
    requires i < |jobs| && DistinctIds(jobs)
    ensures Position(jobs, jobs[i].1) == Some(i)
  {
    var at := Position(jobs, jobs[i].1).value;
    assert IdCount(jobs, jobs[i].1) <= 1;
    if at < i {
      TwoWithOneId(jobs, at, i);
    } else if i < at {
      TwoWithOneId(jobs, i, at);
    }
  }

  /** Every query of an id that has a job is answered by that job, a build for it leaves things as
      they are, and resolving hands out its future and keeps the job, changed, if it asks for it. */
  lemma ReplyIsOfTheJob(gen: Generator, jobs: Jobs, i: nat, config: nat)
    requires i < |jobs| && DistinctIds(jobs)
    ensures var (job, id) := jobs[i];
            && Execute(gen, jobs, BestPayload(id)) == Effect(jobs, Best(Some(gen.best(job))))
            && Execute(gen, jobs, PayloadAttributes(id)) == Effect(jobs, Attributes(Some(gen.attributes(job))))
            && Execute(gen, jobs, BuildNewPayload(id, config)) == Effect(jobs, NewPayload(Some(id)))
            && var (kept, future, keepAlive) := gen.resolve(job);
               Execute(gen, jobs, Resolve(id)) ==
               Effect(if keepAlive then jobs[i := (kept, id)] else jobs[..i] + jobs[i + 1..], Resolved(Some(future)))
  {
    PositionOfJob(jobs, i);
  }

  /** Without a job of the id there is nothing to report or to resolve, and a build creates the job
      the generator makes, if it makes one. */
  lemma ReplyWithoutJob(gen: Generator, jobs: Jobs, id: PayloadId, config: nat)
    requires forall i :: 0 <= i < |jobs| ==> jobs[i].1 != id
    ensures Execute(gen, jobs, BestPayload(id)) == Effect(jobs, Best(None))
    ensures Execute(gen, jobs, PayloadAttributes(id)) == Effect(jobs, Attributes(None))
    ensures Execute(gen, jobs, Resolve(id)) == Effect(jobs, Resolved(None))
    ensures var made := gen.create(id, config);
            Execute(gen, jobs, BuildNewPayload(id, config)) ==
            if made.Some? then Effect(jobs + [(made.value, id)], NewPayload(Some(id))) else Effect(jobs, NewPayload(None))
  {
  }

  lemma {:induction false} SurvivorsAre(gen: Generator, jobs: Jobs, entry: (Job, PayloadId))
    ensures entry in Survivors(gen, jobs) <==>
            exists i :: 0 <= i < |jobs| && jobs[i].1 == entry.1 && gen.poll(jobs[i].0) == (entry.0, Pending)
    decreases |jobs|
  {
    if |jobs| > 0 {
      SurvivorsAre(gen, jobs[1..], entry);
      if i :| 0 <= i < |jobs| && jobs[i].1 == entry.1 && gen.poll(jobs[i].0) == (entry.0, Pending) {
        if i > 0 {
          assert jobs[1..][i - 1] == jobs[i];
        }
      }
    }
  }

  /** After a sweep the table holds exactly the jobs that are pending, each as its poll left it. */
  lemma SweepKeepsPolledState(gen: Generator, before: Jobs, polled: Jobs, after: Jobs, entry: (Job, PayloadId))
    requires IsSweep(gen, before, polled, after)
    ensures entry in after <==>
            exists i :: 0 <= i < |before| && before[i].1 == entry.1 && gen.poll(before[i].0) == (entry.0, Pending)
  {
    RearrangedIffSameBag(after, Survivors(gen, before));
    SurvivorsAre(gen, before, entry);
    assert entry in after <==> entry in multiset(after);
    assert entry in Survivors(gen, before) <==> entry in multiset(Survivors(gen, before));
  }
}
