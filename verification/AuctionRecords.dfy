/** What an auction's record says of the answers counted in it and of the bids submitted for
    it, over all runs of the bidder, and which answers belong to it. */
module AuctionRecords {
  import opened Wrappers
  import opened Words
  import opened Clock
  import opened Policy
  import opened Bidder
  import opened BidderTheorems

  /** The largest of these values, 0 if there is none. */
  predicate IsMaximum(values: seq<U256>, v: U256) {
    && (forall i :: 0 <= i < |values| ==> values[i] <= v)
    && (if |values| == 0 then v == 0 else v in values)
  }

  predicate IsLast(values: seq<U256>, v: U256) {
    v == if |values| == 0 then 0 else values[|values| - 1]
  }

  lemma MaximumAppend(values: seq<U256>, v: U256, x: U256)
    requires IsMaximum(values, v)
    ensures IsMaximum(values + [x], Maximum(v, x)) && IsLast(values + [x], x)
  {
    assert (values + [x])[|values|] == x;
    if |values| > 0 {
      var i :| 0 <= i < |values| && values[i] == v;
      assert (values + [x])[i] == v;
    }
  }

  function Values(answers: seq<TopBid>): (r: seq<U256>)
    ensures |r| == |answers| && forall i :: 0 <= i < |r| ==> r[i] == answers[i].value
  {
    seq(|answers|, i requires 0 <= i < |answers| => answers[i].value)
  }

  /** The bids submitted for a slot, in order. */
  function BidsFor(submissions: seq<Submission>, slot: nat, n: nat): seq<U256>
    requires n <= |submissions|
  {
    if n == 0 then []
    else BidsFor(submissions, slot, n - 1) + (if submissions[n - 1].slot == slot then [submissions[n - 1].bid] else [])
  }

  /** Answers behind the first were asked for in the auction they count for, and so was the
      outstanding request once an answer has come. */
  predicate AnswersCurrent(a: Auction, asked: Option<Request>) {
    && (forall i :: 1 <= i < |a.answers| ==> a.answers[i].slot == a.info.slot)
    && (|a.answers| > 0 && asked.Some? ==> asked.value.slot == a.info.slot)
  }

  /** An auction's summary of its answers and of the bids submitted for its slot. */
  ghost predicate Summarized(a: Auction, submissions: seq<Submission>) {
    && IsMaximum(Values(a.answers), a.info.bestAuctionBid)
    && IsLast(Values(a.answers), a.info.lastAuctionBid)
    && var bids := BidsFor(submissions, a.info.slot, |submissions|);
       a.info.bidCount == |bids| && IsMaximum(bids, a.info.bestBid) && IsLast(bids, a.info.lastBid)
  }

  ghost predicate Tracked(st: BidderState) {
    && (st.auction.None? ==> st.asked.None? && |st.submissions| == 0)
    && (st.auction.Some? ==>
          && AnswersCurrent(st.auction.value, st.asked)
          && Summarized(st.auction.value, st.submissions)
          && forall i :: 0 <= i < |st.submissions| ==> st.submissions[i].slot <= st.auction.value.info.slot)
  }

  lemma {:induction false} NoBidsYet(submissions: seq<Submission>, slot: nat, n: nat)
    requires n <= |submissions| && forall i :: 0 <= i < n ==> submissions[i].slot != slot
    ensures |BidsFor(submissions, slot, n)| == 0
  {
    if n > 0 {
      NoBidsYet(submissions, slot, n - 1);
    }
  }

  lemma {:induction false} BidsPrefix(submissions: seq<Submission>, s: Submission, slot: nat, n: nat)
    requires n <= |submissions|
    ensures BidsFor(submissions + [s], slot, n) == BidsFor(submissions, slot, n)
  {
    if n > 0 {
      BidsPrefix(submissions, s, slot, n - 1);
    }
  }

  lemma StartKeepsTracked(st: BidderState, msg: AuctionStart)
    requires Tracked(st)
    ensures Tracked(OnAuctionStart(st, msg))
  {
    if st.auction.None? || st.auction.value.info.slot < msg.slot {
      NoBidsYet(st.submissions, msg.slot, |st.submissions|);
    }
  }

  lemma {:induction false} StartsKeepTracked(st: BidderState, msgs: seq<AuctionStart>, n: nat)
    requires Tracked(st) && n <= |msgs|
    ensures Tracked(OnAuctionStarts(st, msgs, n))
    decreases n
  {
    if n > 0 {
      StartsKeepTracked(st, msgs, n - 1);
      StartKeepsTracked(OnAuctionStarts(st, msgs, n - 1), msgs[n - 1]);
    }
  }

  lemma TopBidKeepsTracked(st: BidderState, reply: TopBidPoll)
    requires Tracked(st)
    ensures Tracked(OnTopBid(st, reply))
  {
    if st.asked.Some? && reply.Answer? {
      var a, st' := st.auction.value, OnTopBid(st, reply);
      MaximumAppend(Values(a.answers), a.info.bestAuctionBid, reply.value);
      assert Values(st'.auction.value.answers) == Values(a.answers) + [reply.value];
    }
  }

  lemma {:induction false} BuildsKeepTracked(st: BidderState, builds: seq<Candidate>, n: nat)
    requires Tracked(st) && n <= |builds|
    ensures Tracked(OnBuilds(st, builds, n))
    decreases n
  {
    if n > 0 {
      BuildsKeepTracked(st, builds, n - 1);
    }
  }

  lemma BidKeepsTracked(policy: Policy, clock: NetworkClock, st: BidderState, now: nat)
    requires policy.Usable() && Tracked(st)
    ensures Tracked(OnBid(policy, clock, st, now))
  {
    var st' := OnBid(policy, clock, st, now);
    if |st'.submissions| > |st.submissions| {
      var a, s := st.auction.value, st'.submissions[|st.submissions|];
      BidsPrefix(st.submissions, s, a.info.slot, |st.submissions|);
      MaximumAppend(BidsFor(st.submissions, a.info.slot, |st.submissions|), a.info.bestBid, s.bid);
    }
  }

  lemma StepKeepsTracked(policy: Policy, clock: NetworkClock, st: BidderState, input: PollInput)
    requires policy.Usable() && Tracked(st)
    ensures Tracked(Step(policy, clock, st, input))
  {
    var st1 := OnAuctionStarts(st, input.auctions, |input.auctions|);
    StartsKeepTracked(st, input.auctions, |input.auctions|);
    if !st.terminated && !input.auctionsClosed {
      TopBidKeepsTracked(st1, input.topBid);
      BuildsKeepTracked(OnTopBid(st1, input.topBid), input.builds, |input.builds|);
      if !input.buildsClosed {
        BidKeepsTracked(policy, clock, OnBuilds(OnTopBid(st1, input.topBid), input.builds, |input.builds|), input.now);
      }
    }
  }

  /** In every run the current auction's best and last auction bid are the largest and the last
      of the answers counted in it, all of which but possibly the first were asked for in it; and
      its bid count, best and last bid are the number, the largest and the last of the bids
      submitted for its slot. */
  lemma {:induction false} RunIsTracked(policy: Policy, clock: NetworkClock, inputs: seq<PollInput>, n: nat)
    requires policy.Usable() && n <= |inputs|
    ensures Tracked(Run(policy, clock, inputs, n))
    decreases n
  {
    if n > 0 {
      RunIsTracked(policy, clock, inputs, n - 1);
      StepKeepsTracked(policy, clock, Run(policy, clock, inputs, n - 1), inputs[n - 1]);
    }
  }

  // ---------- whose answer it is ----------

  /** The poll makes a new request in place of the one before, if any. */
  predicate Renews(st: BidderState, input: PollInput) {
    !st.terminated && !input.auctionsClosed && (st.asked.None? || !input.topBid.NotReady?)
  }

  /** After how many polls the latest request had been made. */
  function AskedAfter(policy: Policy, clock: NetworkClock, inputs: seq<PollInput>, n: nat): (m: nat)
    requires policy.Usable() && n <= |inputs|
    ensures m <= n
    decreases n
  {
    if n == 0 then 0
    else if Renews(Run(policy, clock, inputs, n - 1), inputs[n - 1]) then n
    else AskedAfter(policy, clock, inputs, n - 1)
  }

  /** What an auction start cannot change, and what it appends to. */
  ghost predicate Advances(st: BidderState, st': BidderState) {
    st.started <= st'.started && st'.asked == st.asked && st'.terminated == st.terminated
  }

  lemma {:induction false} StartsAdvance(st: BidderState, msgs: seq<AuctionStart>, n: nat)
    requires n <= |msgs|
    ensures Advances(st, OnAuctionStarts(st, msgs, n))
    decreases n
  {
    if n > 0 {
      StartsAdvance(st, msgs, n - 1);
    }
  }

  /** The same auctions, request and answers. */
  ghost predicate SameAnswers(st: BidderState, st': BidderState) {
    && st'.started == st.started && st'.asked == st.asked && st'.terminated == st.terminated
    && (st'.auction.Some? <==> st.auction.Some?)
    && (st.auction.Some? ==>
          && st'.auction.value.answers == st.auction.value.answers
          && st'.auction.value.info.slot == st.auction.value.info.slot)
  }

  lemma {:induction false} BuildsKeepAnswers(st: BidderState, builds: seq<Candidate>, n: nat)
    requires n <= |builds|
    ensures SameAnswers(st, OnBuilds(st, builds, n))
    decreases n
  {
    if n > 0 {
      BuildsKeepAnswers(st, builds, n - 1);
    }
  }

  /** What a poll does to auctions, request and answers is what its auction starts and its top bid
      phase do. */
  lemma StepAnswers(policy: Policy, clock: NetworkClock, st: BidderState, input: PollInput)
    requires policy.Usable() && !st.terminated && !input.auctionsClosed
    ensures var st2, st' := OnTopBid(OnAuctionStarts(st, input.auctions, |input.auctions|), input.topBid), Step(policy, clock, st, input);
            && st'.started == st2.started && st'.asked == st2.asked
            && (st'.auction.Some? <==> st2.auction.Some?)
            && (st2.auction.Some? ==>
                  && st'.auction.value.answers == st2.auction.value.answers
                  && st'.auction.value.info.slot == st2.auction.value.info.slot)
  {
    var st2 := OnTopBid(OnAuctionStarts(st, input.auctions, |input.auctions|), input.topBid);
    BuildsKeepAnswers(st2, input.builds, |input.builds|);
  }

  lemma StepAdvances(policy: Policy, clock: NetworkClock, st: BidderState, input: PollInput)
    requires policy.Usable()
    ensures st.started <= Step(policy, clock, st, input).started
    ensures !Renews(st, input) ==> Step(policy, clock, st, input).asked == st.asked
  {
    StartsAdvance(st, input.auctions, |input.auctions|);
    if !st.terminated && !input.auctionsClosed {
      StepAnswers(policy, clock, st, input);
    }
  }

  lemma RenewedRequest(policy: Policy, clock: NetworkClock, st: BidderState, input: PollInput)
    requires policy.Usable() && Renews(st, input)
    ensures var st' := Step(policy, clock, st, input);
            st'.asked.Some? ==> st'.auction.Some? && st'.asked.value.slot == st'.auction.value.info.slot
  {
    StepAnswers(policy, clock, st, input);
    StartsAdvance(st, input.auctions, |input.auctions|);
  }

  /** The outstanding request bears the slot of the auction that was the latest in `st0`. */
  ghost predicate DatedBy(st: BidderState, st0: BidderState) {
    && st0.started <= st.started
    && |st0.started| > 0 && st.asked.Some? && st.asked.value.slot == st0.started[|st0.started| - 1]
  }

  lemma RenewedIsDated(policy: Policy, clock: NetworkClock, st: BidderState, input: PollInput)
    requires policy.Usable() && Renews(st, input) && Sound(policy, Step(policy, clock, st, input))
    requires Step(policy, clock, st, input).asked.Some?
    ensures DatedBy(Step(policy, clock, st, input), Step(policy, clock, st, input))
  {
    RenewedRequest(policy, clock, st, input);
  }

  lemma KeptIsDated(policy: Policy, clock: NetworkClock, st: BidderState, input: PollInput, st0: BidderState)
    requires policy.Usable() && !Renews(st, input) && DatedBy(st, st0)
    ensures DatedBy(Step(policy, clock, st, input), st0)
  {
    StepAdvances(policy, clock, st, input);
  }

  /** A request bears the slot of the auction that was running when it was made. */
  lemma {:induction false} RequestIsDated(policy: Policy, clock: NetworkClock, inputs: seq<PollInput>, n: nat)
    requires policy.Usable() && n <= |inputs| && Run(policy, clock, inputs, n).asked.Some?
    ensures DatedBy(Run(policy, clock, inputs, n), Run(policy, clock, inputs, AskedAfter(policy, clock, inputs, n)))
    decreases n
  {
    var before, input := Run(policy, clock, inputs, n - 1), inputs[n - 1];
    if Renews(before, input) {
      RunIsSound(policy, clock, inputs, n);
      RenewedIsDated(policy, clock, before, input);
    } else {
      StepAdvances(policy, clock, before, input);
      RequestIsDated(policy, clock, inputs, n - 1);
      KeptIsDated(policy, clock, before, input, Run(policy, clock, inputs, AskedAfter(policy, clock, inputs, n - 1)));
    }
  }

  /** The poll takes an answer to the outstanding request and counts it. */
  predicate CountsAnswer(st: BidderState, input: PollInput) {
    !st.terminated && !input.auctionsClosed && st.asked.Some? && input.topBid.Answer?
  }

  /** The answer counted last, with the slot it was asked for in, and the slot it counts for. */
  ghost predicate Counted(st: BidderState, asked: nat, value: U256) {
    && st.auction.Some? && |st.auction.value.answers| > 0
    && st.auction.value.answers[|st.auction.value.answers| - 1] == TopBid(asked, value)
    && |st.started| > 0 && st.started[|st.started| - 1] == st.auction.value.info.slot
    && Increasing(st.started)
  }

  lemma PollCounts(policy: Policy, clock: NetworkClock, st: BidderState, input: PollInput)
    requires policy.Usable() && Sound(policy, st) && Tracked(st) && CountsAnswer(st, input)
    ensures Counted(Step(policy, clock, st, input), st.asked.value.slot, input.topBid.value)
    ensures st.started <= Step(policy, clock, st, input).started
  {
    StartsAdvance(st, input.auctions, |input.auctions|);
    StartsKeepSound(policy, st, input.auctions, |input.auctions|);
    StartsKeepTracked(st, input.auctions, |input.auctions|);
    StepAnswers(policy, clock, st, input);
  }

  lemma RunCounts(policy: Policy, clock: NetworkClock, inputs: seq<PollInput>, n: nat)
    requires policy.Usable() && n < |inputs| && CountsAnswer(Run(policy, clock, inputs, n), inputs[n])
    ensures var before, st := Run(policy, clock, inputs, n), Run(policy, clock, inputs, n + 1);
            Counted(st, before.asked.value.slot, inputs[n].topBid.value) && before.started <= st.started
  {
    RunIsSound(policy, clock, inputs, n);
    RunIsTracked(policy, clock, inputs, n);
    PollCounts(policy, clock, Run(policy, clock, inputs, n), inputs[n]);
  }

  lemma OwnIffNoStart(st: BidderState, st0: BidderState, before: BidderState, asked: nat, value: U256)
    requires DatedBy(before, st0) && asked == before.asked.value.slot
    requires before.started <= st.started && Counted(st, asked, value)
    ensures asked == st.auction.value.info.slot <==> st.started == st0.started
  {
    assert st0.started[|st0.started| - 1] == st.started[|st0.started| - 1];
  }

  /** In every run, an answer that a poll counts was asked for in the auction it counts for exactly
      when no auction start was accepted while the request was outstanding, be it in this poll. */
  lemma AnswerIsOwnIff(policy: Policy, clock: NetworkClock, inputs: seq<PollInput>, n: nat)
    requires policy.Usable() && n < |inputs| && CountsAnswer(Run(policy, clock, inputs, n), inputs[n])
    ensures var st, st0 := Run(policy, clock, inputs, n + 1), Run(policy, clock, inputs, AskedAfter(policy, clock, inputs, n));
            && st.auction.Some? && |st.auction.value.answers| > 0
            && var a := st.auction.value;
               var counted := a.answers[|a.answers| - 1];
               && counted.value == inputs[n].topBid.value
               && (counted.slot == a.info.slot <==> st.started == st0.started)
  {
    var before, st := Run(policy, clock, inputs, n), Run(policy, clock, inputs, n + 1);
    RequestIsDated(policy, clock, inputs, n);
    RunCounts(policy, clock, inputs, n);
    OwnIffNoStart(st, Run(policy, clock, inputs, AskedAfter(policy, clock, inputs, n)), before,
                  before.asked.value.slot, inputs[n].topBid.value);
  }

  /** The answers that were asked for in the auction they count for, if at most the first was not. */
  function OwnAnswers(a: Auction): seq<TopBid> {
    if |a.answers| > 0 && a.answers[0].slot != a.info.slot then a.answers[1..] else a.answers
  }

  /** In every run, the best auction bid is the largest of the current auction's own answers exactly
      if the first answer counted is one of them, or is 0 or matched by a later one. */
  lemma BestIsOfOwnAnswersIff(policy: Policy, clock: NetworkClock, inputs: seq<PollInput>, n: nat)
    requires policy.Usable() && n <= |inputs| && Run(policy, clock, inputs, n).auction.Some?
    ensures var a := Run(policy, clock, inputs, n).auction.value;
            && (forall x :: x in OwnAnswers(a) <==> x in a.answers && x.slot == a.info.slot)
            && (IsMaximum(Values(OwnAnswers(a)), a.info.bestAuctionBid) <==>
                  |a.answers| == 0 || a.answers[0].slot == a.info.slot || a.answers[0].value == 0
                  || exists i :: 1 <= i < |a.answers| && a.answers[i].value >= a.answers[0].value)
  {
    RunIsTracked(policy, clock, inputs, n);
    var a := Run(policy, clock, inputs, n).auction.value;
    if |a.answers| > 0 && a.answers[0].slot != a.info.slot {
      MaximumOfRest(Values(a.answers), a.info.bestAuctionBid);
      assert Values(a.answers)[1..] == Values(a.answers[1..]);
      assert forall i :: 1 <= i < |a.answers| ==> Values(a.answers)[i] == a.answers[i].value;
    }
  }

  lemma MaximumOfRest(values: seq<U256>, v: U256)
    requires |values| > 0 && IsMaximum(values, v)
    ensures IsMaximum(values[1..], v) <==>
            values[0] == 0 || exists i :: 1 <= i < |values| && values[i] >= values[0]
  {
    var rest := values[1..];
    if i :| 1 <= i < |values| && values[i] >= values[0] {
      assert values[i] == rest[i - 1];
      assert v in rest;
    } else if |rest| > 0 {
      assert rest[0] == values[1] < values[0];
      assert forall k :: 0 <= k < |rest| ==> rest[k] == values[k + 1];
    }
  }

  /** For any two slots and blocks: an answer to a request of the earlier auction, come when the
      later one has begun, is taken as the best bid of the later one, in which nothing was asked. */
  lemma StaleAnswerCounts(policy: Policy, clock: NetworkClock, first: AuctionStart, second: AuctionStart, value: U256,
                          now: nat, later: nat)
    requires policy.Usable() && first.slot < second.slot
    ensures var inputs := [PollInput([first], false, NotReady, [], false, now),
                           PollInput([second], false, Answer(value), [], false, later)];
            var st := Run(policy, clock, inputs, 2);
            && st.auction.Some? && st.auction.value.info.slot == second.slot
            && st.auction.value.info.bestAuctionBid == value
            && st.auction.value.answers == [TopBid(first.slot, value)]
  {
    var inputs := [PollInput([first], false, NotReady, [], false, now),
                   PollInput([second], false, Answer(value), [], false, later)];
    var one := Run(policy, clock, inputs, 1);
    assert Run(policy, clock, inputs, 0) == IDLE;
    assert OnAuctionStarts(IDLE, [first], 1) == OnAuctionStart(OnAuctionStarts(IDLE, [first], 0), first);
    StepAnswers(policy, clock, IDLE, inputs[0]);
    assert one.asked == Some(Request(first.slot, first.blockNumber));
    assert OnAuctionStarts(one, [second], 1) == OnAuctionStart(OnAuctionStarts(one, [second], 0), second);
    StepAnswers(policy, clock, one, inputs[1]);
  }
}
