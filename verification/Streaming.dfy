/** A streaming job and the bidder, connected by the channel the job sends its builds on. */
module Streaming {
  import opened Wrappers
  import opened Clock
  import opened Policy
  import Bidder
  import BidderTheorems
  import StreamJob

  /** `queue` holds what the job sent and the bidder has not taken yet. */
  datatype System = System(job: StreamJob.JobState, bidder: Bidder.BidderState, queue: seq<Candidate>)

  datatype Event = JobPolls(job: StreamJob.JobInput) | BidderPolls(bidder: Bidder.PollInput)

  /** The job's attempts are runs of the strategy. The bidder takes a prefix of the queue, possibly
      among builds of other slots; a poll that ends before its channel is drained takes none.
      This job is the only one of its slot. */
  ghost predicate Enabled(sys: System, e: Event) {
    match e
    case JobPolls(input) => StreamJob.BuiltFor(sys.job, input)
    case BidderPolls(input) =>
      var taken := Bidder.OfSlot(input.builds, sys.job.slot, |input.builds|);
      taken <= sys.queue && (sys.bidder.terminated || input.auctionsClosed ==> input.builds == [])
  }

  function Next(policy: Policy, clock: NetworkClock, sys: System, e: Event): System
    requires policy.Usable() && Enabled(sys, e)
  {
    match e
    case JobPolls(input) =>
      var job := StreamJob.Step(sys.job, input);
      var added := if |sys.job.sent| <= |job.sent| then job.sent[|sys.job.sent|..] else [];
      System(job, sys.bidder, sys.queue + added)
    case BidderPolls(input) =>
      var taken := Bidder.OfSlot(input.builds, sys.job.slot, |input.builds|);
      System(sys.job, Bidder.Step(policy, clock, sys.bidder, input), sys.queue[|taken|..])
  }

  /** What the bidder received for the job's slot is a stretch of what the job sent, ending where
      the queue begins. */
  ghost predicate Connected(sys: System) {
    var sent, hi := sys.job.sent, |sys.job.sent| - |sys.queue|;
    && 0 <= hi && sys.queue == sent[hi..]
    && (sys.bidder.auction.Some? && sys.bidder.auction.value.info.slot == sys.job.slot ==>
          IsStretch(sent, sys.bidder.auction.value.received, hi))
  }

  ghost predicate Good(policy: Policy, sys: System) {
    StreamJob.Streaming(sys.job) && BidderTheorems.Sound(policy, sys.bidder) && Connected(sys)
  }

  // ---------- what the phases of a poll do to the received builds ----------

  ghost predicate Receives(st: Bidder.BidderState, st': Bidder.BidderState, slot: nat, more: seq<Candidate>) {
    && (st'.auction.Some? <==> st.auction.Some?)
    && (st.auction.Some? ==> st'.auction.value.info.slot == st.auction.value.info.slot)
    && (st.auction.Some? && st.auction.value.info.slot == slot ==>
          st'.auction.value.received == st.auction.value.received + more)
  }

  lemma {:induction false} BuildsReceived(st: Bidder.BidderState, builds: seq<Candidate>, slot: nat, n: nat)
    requires n <= |builds|
    ensures Receives(st, Bidder.OnBuilds(st, builds, n), slot, Bidder.OfSlot(builds, slot, n))
    decreases n
  {
    if n > 0 {
      BuildsReceived(st, builds, slot, n - 1);
    }
  }

  /** Starting auctions either keeps the received builds of a slot or begins with none. */
  ghost predicate KeepsOrClears(st: Bidder.BidderState, st': Bidder.BidderState, slot: nat) {
    st'.auction.Some? && st'.auction.value.info.slot == slot ==>
      || st'.auction.value.received == []
      || (st.auction.Some? && st.auction.value.info.slot == slot
          && st'.auction.value.received == st.auction.value.received)
  }

  lemma {:induction false} StartsKeepOrClear(st: Bidder.BidderState, msgs: seq<Bidder.AuctionStart>, slot: nat, n: nat)
    requires n <= |msgs|
    ensures KeepsOrClears(st, Bidder.OnAuctionStarts(st, msgs, n), slot)
    decreases n
  {
    if n > 0 {
      StartsKeepOrClear(st, msgs, slot, n - 1);
    }
  }

  lemma PollReceives(policy: Policy, clock: NetworkClock, st: Bidder.BidderState, input: Bidder.PollInput, slot: nat)
    requires policy.Usable() && !st.terminated && !input.auctionsClosed
    ensures var st1 := Bidder.OnAuctionStarts(st, input.auctions, |input.auctions|);
            && KeepsOrClears(st, st1, slot)
            && Receives(st1, Bidder.Step(policy, clock, st, input), slot, Bidder.OfSlot(input.builds, slot, |input.builds|))
  {
    var st1 := Bidder.OnAuctionStarts(st, input.auctions, |input.auctions|);
    StartsKeepOrClear(st, input.auctions, slot, |input.auctions|);
    var st2 := Bidder.OnTopBid(st1, input.topBid);
    assert Receives(st1, st2, slot, []);
    BuildsReceived(st2, input.builds, slot, |input.builds|);
  }

  // ---------- all runs ----------

  lemma JobKeepsConnected(policy: Policy, clock: NetworkClock, sys: System, e: Event)
    requires policy.Usable() && Connected(sys) && e.JobPolls? && Enabled(sys, e)
    requires sys.job.sent <= StreamJob.Step(sys.job, e.job).sent
    ensures Connected(Next(policy, clock, sys, e))
  {
    var sent, sent' := sys.job.sent, StreamJob.Step(sys.job, e.job).sent;
    var hi, added := |sent| - |sys.queue|, sent'[|sent|..];
    assert sent' == sent + added;
    assert sent'[hi..] == sent[hi..] + added;
    assert forall lo :: 0 <= lo <= hi ==> sent'[lo..hi] == sent[lo..hi];
  }

  /** The stretch `received` of what was sent, up to `hi`. */
  predicate IsStretch(sent: seq<Candidate>, received: seq<Candidate>, hi: int) {
    0 <= |received| <= hi <= |sent| && received == sent[hi - |received|..hi]
  }

  lemma StretchGrows(sent: seq<Candidate>, received: seq<Candidate>, hi: nat, k: nat)
    requires IsStretch(sent, received, hi) && hi + k <= |sent|
    ensures IsStretch(sent, received + sent[hi..hi + k], hi + k)
  {
  }

  lemma OpenPollKeepsStretch(policy: Policy, clock: NetworkClock, sys: System, input: Bidder.PollInput)
    requires policy.Usable() && Connected(sys) && Enabled(sys, BidderPolls(input))
    requires !sys.bidder.terminated && !input.auctionsClosed
    ensures var st' := Bidder.Step(policy, clock, sys.bidder, input);
            st'.auction.Some? && st'.auction.value.info.slot == sys.job.slot ==>
            IsStretch(sys.job.sent, st'.auction.value.received,
                      |sys.job.sent| - |sys.queue| + |Bidder.OfSlot(input.builds, sys.job.slot, |input.builds|)|)
  {
    var slot, sent := sys.job.slot, sys.job.sent;
    var taken := Bidder.OfSlot(input.builds, slot, |input.builds|);
    var hi := |sent| - |sys.queue|;
    var st1 := Bidder.OnAuctionStarts(sys.bidder, input.auctions, |input.auctions|);
    PollReceives(policy, clock, sys.bidder, input, slot);
    assert taken == sys.queue[..|taken|] == sent[hi..hi + |taken|];
    if st1.auction.Some? && st1.auction.value.info.slot == slot {
      StretchGrows(sent, st1.auction.value.received, hi, |taken|);
    }
  }

  lemma BidderKeepsConnected(policy: Policy, clock: NetworkClock, sys: System, e: Event)
    requires policy.Usable() && Connected(sys) && e.BidderPolls? && Enabled(sys, e)
    ensures Connected(Next(policy, clock, sys, e))
  {
    var input, sent := e.bidder, sys.job.sent;
    var taken := Bidder.OfSlot(input.builds, sys.job.slot, |input.builds|);
    assert sys.queue[|taken|..] == sent[|sent| - |sys.queue| + |taken|..];
    if !sys.bidder.terminated && input.auctionsClosed {
      StartsKeepOrClear(sys.bidder, input.auctions, sys.job.slot, |input.auctions|);
    } else if !sys.bidder.terminated {
      OpenPollKeepsStretch(policy, clock, sys, input);
    }
  }

  /** The states the system can reach. */
  ghost predicate Reachable(policy: Policy, clock: NetworkClock, slot: nat, events: seq<Event>, states: seq<System>)
    requires policy.Usable()
  {
    && |states| == |events| + 1
    && states[0] == System(StreamJob.NewJob(slot), Bidder.IDLE, [])
    && forall i {:trigger events[i]} :: 0 <= i < |events| ==>
         Enabled(states[i], events[i]) && states[i + 1] == Next(policy, clock, states[i], events[i])
  }

  lemma NextIsGood(policy: Policy, clock: NetworkClock, sys: System, e: Event)
    requires policy.Usable() && Good(policy, sys) && Enabled(sys, e)
    ensures Good(policy, Next(policy, clock, sys, e))
  {
    if e.JobPolls? {
      StreamJob.StepKeepsStreaming(sys.job, e.job);
      JobKeepsConnected(policy, clock, sys, e);
    } else {
      BidderTheorems.StepKeepsSound(policy, clock, sys.bidder, e.bidder);
      BidderKeepsConnected(policy, clock, sys, e);
    }
  }

  lemma {:induction false} ReachableIsGood(policy: Policy, clock: NetworkClock, slot: nat, events: seq<Event>, states: seq<System>, n: nat)
    requires policy.Usable() && Reachable(policy, clock, slot, events, states) && n < |states|
    ensures Good(policy, states[n])
    decreases n
  {
    if n > 0 {
      ReachableIsGood(policy, clock, slot, events, states, n - 1);
      var e := events[n - 1];
      NextIsGood(policy, clock, states[n - 1], e);
    }
  }

  lemma LastOfIncreasingIsBest(builds: seq<Candidate>, i: nat)
    requires StreamJob.IncreasingValues(builds) && BidderTheorems.IsEarliestBest(builds, i)
    ensures i == |builds| - 1
  {
    assert builds[|builds| - 1].value <= builds[i].value;
  }

  lemma StretchIncreases(sent: seq<Candidate>, received: seq<Candidate>, hi: int)
    requires StreamJob.IncreasingValues(sent) && IsStretch(sent, received, hi)
    ensures StreamJob.IncreasingValues(received)
  {
  }

  /** The bidder is in the auction of the job's slot and has received builds for it. */
  predicate Receiving(sys: System) {
    && sys.bidder.auction.Some? && sys.bidder.auction.value.info.slot == sys.job.slot
    && sys.bidder.auction.value.received != []
  }

  lemma LastIsRecorded(a: Bidder.Auction)
    requires BidderTheorems.KeepsBest(a) && StreamJob.IncreasingValues(a.received) && a.received != []
    ensures a.info.bestBlock == Some(a.received[|a.received| - 1])
  {
    var i: nat :| BidderTheorems.IsEarliestBest(a.received, i) && BidderTheorems.IsRecorded(a, i);
    LastOfIncreasingIsBest(a.received, i);
  }

  lemma BestIsLast(policy: Policy, sys: System)
    requires Good(policy, sys) && Receiving(sys)
    ensures var a, sent, taken := sys.bidder.auction.value, sys.job.sent, |sys.job.sent| - |sys.queue|;
            && a.info.bestBlock == Some(a.received[|a.received| - 1])
            && 0 < taken && a.info.bestBlock == Some(sent[taken - 1])
  {
    var a := sys.bidder.auction.value;
    StretchIncreases(sys.job.sent, a.received, |sys.job.sent| - |sys.queue|);
    LastIsRecorded(a);
  }

  /** In every reachable state, while the auction of the job's slot runs, the bidder's best
      block is the build it received last, which is the last one the job sent that is not still
      in the queue: comparing values never rejects what the job sends. */
  lemma LastReceivedIsBest(policy: Policy, clock: NetworkClock, slot: nat, events: seq<Event>, states: seq<System>, n: nat)
    requires policy.Usable() && Reachable(policy, clock, slot, events, states) && n < |states|
    requires Receiving(states[n])
    ensures var a, sent, taken := states[n].bidder.auction.value, states[n].job.sent, |states[n].job.sent| - |states[n].queue|;
            && a.info.bestBlock == Some(a.received[|a.received| - 1])
            && 0 < taken && a.info.bestBlock == Some(sent[taken - 1])
  {
    ReachableIsGood(policy, clock, slot, events, states, n);
    BestIsLast(policy, states[n]);
  }
}
