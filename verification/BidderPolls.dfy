/** What every poll of every run takes in and submits, stated of the states before and after it. */
module BidderPolls {
  import opened Wrappers
  import opened Words
  import opened Clock
  import opened Policy
  import opened Bidder
  import opened BidderTheorems
  import opened AuctionRecords

  // ---------- auction starts ----------

  /** The first of the messages with the highest slot. */
  predicate IsLatest(msgs: seq<AuctionStart>, i: nat) {
    && i < |msgs|
    && (forall j :: 0 <= j < |msgs| ==> msgs[j].slot <= msgs[i].slot)
    && (forall j :: 0 <= j < i ==> msgs[j].slot < msgs[i].slot)
  }

  /** The messages hold a later slot than that of the auction, if there is one. */
  predicate Starts(st: BidderState, msgs: seq<AuctionStart>) {
    if st.auction.None? then |msgs| > 0
    else exists i :: 0 <= i < |msgs| && st.auction.value.info.slot < msgs[i].slot
  }

  /** The auction is fresh and that of the latest message. */
  ghost predicate IsFresh(a: Auction, msgs: seq<AuctionStart>) {
    exists i: nat :: IsLatest(msgs, i) && a == Auction(NewInfo(msgs[i].slot, msgs[i].blockNumber), [], [])
  }

  lemma LatestAppend(msgs: seq<AuctionStart>, i: nat, msg: AuctionStart)
    requires IsLatest(msgs, i)
    ensures IsLatest(msgs + [msg], if msg.slot > msgs[i].slot then |msgs| else i)
  {
  }

  /** Where the first `n` messages have led. */
  ghost predicate StartedBy(st: BidderState, st1: BidderState, msgs: seq<AuctionStart>) {
    && st1.asked == st.asked && st1.submissions == st.submissions && st1.terminated == st.terminated
    && if Starts(st, msgs) then st1.auction.Some? && IsFresh(st1.auction.value, msgs) else st1.auction == st.auction
  }

  lemma StartedByOne(st: BidderState, st1: BidderState, msgs: seq<AuctionStart>, msg: AuctionStart)
    requires StartedBy(st, st1, msgs)
    ensures StartedBy(st, OnAuctionStart(st1, msg), msgs + [msg])
  {
    var all := msgs + [msg];
    assert all[|msgs|] == msg;
    if Starts(st, msgs) {
      var i: nat :| IsLatest(msgs, i) && st1.auction.value == Auction(NewInfo(msgs[i].slot, msgs[i].blockNumber), [], []);
      LatestAppend(msgs, i, msg);
      assert all[i] == msgs[i];
      StartsMore(st, msgs, msg);
    } else if st1.auction.None? || st1.auction.value.info.slot < msg.slot {
      assert IsLatest(all, |msgs|);
    }
  }

  lemma StartsMore(st: BidderState, msgs: seq<AuctionStart>, msg: AuctionStart)
    requires Starts(st, msgs)
    ensures Starts(st, msgs + [msg])
  {
    if st.auction.Some? {
      var i :| 0 <= i < |msgs| && st.auction.value.info.slot < msgs[i].slot;
      assert (msgs + [msg])[i] == msgs[i];
    }
  }

  lemma {:induction false} StartsLead(st: BidderState, msgs: seq<AuctionStart>, n: nat)
    requires n <= |msgs|
    ensures StartedBy(st, OnAuctionStarts(st, msgs, n), msgs[..n])
    decreases n
  {
    if n > 0 {
      StartsLead(st, msgs, n - 1);
      StartedByOne(st, OnAuctionStarts(st, msgs, n - 1), msgs[..n - 1], msgs[n - 1]);
      assert msgs[..n - 1] + [msgs[n - 1]] == msgs[..n];
    }
  }

  // ---------- builds ----------

  /** Apart from the builds of its slot the auction is as it was, and so is everything else. */
  ghost predicate TakesBuilds(st: BidderState, st': BidderState, builds: seq<Candidate>, n: nat)
    requires n <= |builds|
  {
    && st'.asked == st.asked && st'.submissions == st.submissions && st'.terminated == st.terminated
    && (st.auction.None? ==> st'.auction.None?)
    && (st.auction.Some? ==>
          && st'.auction.Some?
          && var a, a' := st.auction.value, st'.auction.value;
             && a'.received == a.received + OfSlot(builds, a.info.slot, n) && a'.answers == a.answers
             && a'.info == a.info.(bestBlock := a'.info.bestBlock, bestBlockValue := a'.info.bestBlockValue))
  }

  lemma {:induction false} BuildsTaken(st: BidderState, builds: seq<Candidate>, n: nat)
    requires n <= |builds|
    ensures TakesBuilds(st, OnBuilds(st, builds, n), builds, n)
    decreases n
  {
    if n > 0 {
      BuildsTaken(st, builds, n - 1);
    }
  }

  // ---------- what a poll takes in ----------

  /** The answers a poll counts, with the slot they were asked for in. */
  function Counted(st: BidderState, reply: TopBidPoll): seq<TopBid> {
    if st.asked.Some? && reply.Answer? then [TopBid(st.asked.value.slot, reply.value)] else []
  }

  /** The auction after a poll that was not cut short by the closed channel of auction starts: that
      of the latest message, if it is later, and otherwise the same; with the builds of its slot and
      the answer added to what it had. */
  ghost predicate TakenIn(st: BidderState, st': BidderState, input: PollInput) {
    if st.auction.None? && !Starts(st, input.auctions) then st'.auction.None?
    else
      && st'.auction.Some?
      && var a' := st'.auction.value;
         var builds := OfSlot(input.builds, a'.info.slot, |input.builds|);
         if Starts(st, input.auctions) then
           && (exists i: nat :: IsLatest(input.auctions, i)
                 && a'.info.slot == input.auctions[i].slot && a'.info.blockNumber == input.auctions[i].blockNumber)
           && a'.received == builds && a'.answers == Counted(st, input.topBid)
         else
           && a'.info.slot == st.auction.value.info.slot && a'.info.blockNumber == st.auction.value.info.blockNumber
           && a'.received == st.auction.value.received + builds
           && a'.answers == st.auction.value.answers + Counted(st, input.topBid)
  }

  /** A request still unanswered stays; in place of any other, one for the auction's block is made. */
  ghost predicate AskedAnew(st: BidderState, st': BidderState, input: PollInput) {
    if st.asked.Some? && input.topBid.NotReady? then st'.asked == st.asked
    else st'.asked == if st'.auction.None? then None
                      else Some(Request(st'.auction.value.info.slot, st'.auction.value.info.blockNumber))
  }

  /** What the top bid phase leaves of an auction. */
  ghost predicate Answered(st1: BidderState, st2: BidderState, reply: TopBidPoll) {
    && st2.submissions == st1.submissions && st2.terminated == st1.terminated
    && (st1.auction.None? <==> st2.auction.None?)
    && (st1.auction.Some? ==>
          && st2.auction.value.info.slot == st1.auction.value.info.slot
          && st2.auction.value.info.blockNumber == st1.auction.value.info.blockNumber
          && st2.auction.value.received == st1.auction.value.received
          && st2.auction.value.answers == st1.auction.value.answers + Counted(st1, reply))
    && st2.asked == (if st1.asked.Some? && reply.NotReady? then st1.asked
                     else if st1.auction.None? then None
                     else Some(Request(st1.auction.value.info.slot, st1.auction.value.info.blockNumber)))
  }

  lemma TopBidAnswers(st1: BidderState, reply: TopBidPoll)
    ensures Answered(st1, OnTopBid(st1, reply), reply)
  {
  }

  lemma ThreePhases(st: BidderState, st1: BidderState, st2: BidderState, st3: BidderState, st': BidderState, input: PollInput)
    requires StartedBy(st, st1, input.auctions) && Answered(st1, st2, input.topBid)
    requires TakesBuilds(st2, st3, input.builds, |input.builds|)
    requires st'.asked == st3.asked && (st'.auction.Some? <==> st3.auction.Some?)
    requires st3.auction.Some? ==>
      && st'.auction.value.info.slot == st3.auction.value.info.slot
      && st'.auction.value.info.blockNumber == st3.auction.value.info.blockNumber
      && st'.auction.value.received == st3.auction.value.received
      && st'.auction.value.answers == st3.auction.value.answers
    ensures TakenIn(st, st', input) && AskedAnew(st, st', input)
  {
  }

  /** In every run, a poll that is not cut short by the closed channel of auction starts takes in
      exactly what its channels hold. */
  lemma PollTakesIn(policy: Policy, clock: NetworkClock, inputs: seq<PollInput>, n: nat)
    requires policy.Usable() && n < |inputs|
    requires !Run(policy, clock, inputs, n).terminated && !inputs[n].auctionsClosed
    ensures var st, st' := Run(policy, clock, inputs, n), Run(policy, clock, inputs, n + 1);
            TakenIn(st, st', inputs[n]) && AskedAnew(st, st', inputs[n])
  {
    var st, input := Run(policy, clock, inputs, n), inputs[n];
    StartsLead(st, input.auctions, |input.auctions|);
    assert input.auctions[..|input.auctions|] == input.auctions;
    var st1 := OnAuctionStarts(st, input.auctions, |input.auctions|);
    var st2 := OnTopBid(st1, input.topBid);
    TopBidAnswers(st1, input.topBid);
    BuildsTaken(st2, input.builds, |input.builds|);
    ThreePhases(st, st1, st2, OnBuilds(st2, input.builds, |input.builds|), Step(policy, clock, st, input), input);
  }

  // ---------- what a poll submits ----------

  /** The poll runs to its end in an auction. */
  predicate Completes(st: BidderState, st': BidderState, input: PollInput) {
    !st.terminated && !input.auctionsClosed && !input.buildsClosed && st'.auction.Some?
  }

  /** The submission due in this auction state: the best block with what the policy bids. */
  function Due(policy: Policy, info: Info): seq<Submission>
    requires policy.Usable()
  {
    var bid := policy.ComputeBid(info);
    if bid.Some? && info.bestBlock.Some? then [Submission(info.slot, info.bestBlock.value, bid.value)] else []
  }

  lemma BidSubmits(policy: Policy, clock: NetworkClock, st3: BidderState, now: nat)
    requires policy.Usable()
    ensures var st' := OnBid(policy, clock, st3, now);
            && st'.terminated == st3.terminated
            && (st3.auction.None? ==> st' == st3)
            && (st3.auction.Some? ==>
                  && st'.auction.Some?
                  && var info := st'.auction.value.info;
                     && info.timeLeft == clock.TimeUntilSlotSignedMs(info.slot, now)
                     && st'.submissions == st3.submissions + Due(policy, info))
  {
  }

  lemma PhasesSubmitNothing(st: BidderState, input: PollInput)
    ensures var st1 := OnAuctionStarts(st, input.auctions, |input.auctions|);
            var st3 := OnBuilds(OnTopBid(st1, input.topBid), input.builds, |input.builds|);
            && st1.submissions == st3.submissions == st.submissions
            && st1.terminated == st3.terminated == st.terminated
  {
    var st1 := OnAuctionStarts(st, input.auctions, |input.auctions|);
    StartsLead(st, input.auctions, |input.auctions|);
    TopBidAnswers(st1, input.topBid);
    BuildsTaken(OnTopBid(st1, input.topBid), input.builds, |input.builds|);
  }

  /** In every run, a poll that runs to its end in an auction measures the time left and submits
      exactly the auction's best block with the policy's bid, if there are both; any other poll
      submits nothing, and what was submitted before stays. */
  lemma PollSubmits(policy: Policy, clock: NetworkClock, inputs: seq<PollInput>, n: nat)
    requires policy.Usable() && n < |inputs|
    ensures var st, st', input := Run(policy, clock, inputs, n), Run(policy, clock, inputs, n + 1), inputs[n];
            if Completes(st, st', input) then
              var info := st'.auction.value.info;
              && info.timeLeft == clock.TimeUntilSlotSignedMs(info.slot, input.now)
              && st'.submissions == st.submissions + Due(policy, info)
            else st'.submissions == st.submissions
  {
    var st, input := Run(policy, clock, inputs, n), inputs[n];
    PhasesSubmitNothing(st, input);
    var st3 := OnBuilds(OnTopBid(OnAuctionStarts(st, input.auctions, |input.auctions|), input.topBid), input.builds, |input.builds|);
    BidSubmits(policy, clock, st3, input.now);
  }

  /** Only a closed channel ends the service, and it does so for good. */
  lemma PollEndsIffClosed(policy: Policy, clock: NetworkClock, inputs: seq<PollInput>, n: nat)
    requires policy.Usable() && n < |inputs|
    ensures var st, st', input := Run(policy, clock, inputs, n), Run(policy, clock, inputs, n + 1), inputs[n];
            && (st'.terminated <==> st.terminated || input.auctionsClosed || input.buildsClosed)
            && (st.terminated ==> st' == st)
  {
    var st, input := Run(policy, clock, inputs, n), inputs[n];
    PhasesSubmitNothing(st, input);
    var st3 := OnBuilds(OnTopBid(OnAuctionStarts(st, input.auctions, |input.auctions|), input.topBid), input.builds, |input.builds|);
    BidSubmits(policy, clock, st3, input.now);
  }

  /** What all polls of a run submit, one after another. */
  function AllDue(policy: Policy, clock: NetworkClock, inputs: seq<PollInput>, n: nat): seq<Submission>
    requires policy.Usable() && n <= |inputs|
    decreases n
  {
    if n == 0 then []
    else
      var st, st' := Run(policy, clock, inputs, n - 1), Run(policy, clock, inputs, n);
      AllDue(policy, clock, inputs, n - 1) +
      (if Completes(st, st', inputs[n - 1]) then Due(policy, st'.auction.value.info) else [])
  }

  /** The submissions of a run are exactly those due in its polls, in order. */
  lemma {:induction false} RunSubmits(policy: Policy, clock: NetworkClock, inputs: seq<PollInput>, n: nat)
    requires policy.Usable() && n <= |inputs|
    ensures Run(policy, clock, inputs, n).submissions == AllDue(policy, clock, inputs, n)
    decreases n
  {
    if n > 0 {
      RunSubmits(policy, clock, inputs, n - 1);
      PollSubmits(policy, clock, inputs, n - 1);
    }
  }
}
