/** What holds over all runs of the bidder. */
module BidderTheorems {
  import opened Wrappers
  import opened Words
  import opened Clock
  import opened Policy
  import opened Bidder

  predicate Increasing(s: seq<nat>) {
    forall i, j :: 0 <= i < j < |s| ==> s[i] < s[j]
  }

  /** Build `i` is the earliest of maximal value. */
  predicate IsEarliestBest(builds: seq<Candidate>, i: nat) {
    && i < |builds|
    && (forall j :: 0 <= j < |builds| ==> builds[j].value <= builds[i].value)
    && (forall j :: 0 <= j < i ==> builds[j].value < builds[i].value)
  }

  /** The best block is the earliest received build of maximal value and its value is recorded. */
  ghost predicate KeepsBest(a: Auction) {
    && (forall b :: b in a.received ==> b.slot == a.info.slot)
    && (a.received == [] <==> a.info.bestBlock.None?)
    && (a.received == [] ==> a.info.bestBlockValue == 0)
    && (a.received != [] ==> exists i: nat :: IsEarliestBest(a.received, i) && IsRecorded(a, i))
  }

  predicate IsRecorded(a: Auction, i: nat) {
    i < |a.received| && a.info.bestBlock == Some(a.received[i]) && a.info.bestBlockValue == a.received[i].value
  }

  /** The most a bid may be for a build: its value less the gas of the payment, and the subsidy
      on top under the linear policy. Only the policy for development networks ignores the gas. */
  function Ceiling(policy: Policy, build: Candidate): nat {
    match policy
    case LinearSurplus(_, subsidy, _, _) => subsidy + NetOf(build)
    case NoProfit(_) => NetOf(build)
    case Devnet => build.value
  }

  /** Submissions carry a build of their auction's slot and bid no more than it can pay. */
  ghost predicate Sound(policy: Policy, st: BidderState) {
    && Increasing(st.started)
    && (st.auction.Some? ==>
          && KeepsBest(st.auction.value)
          && |st.started| > 0 && st.started[|st.started| - 1] == st.auction.value.info.slot)
    && (st.auction.None? ==> st.started == [])
    && (forall s :: s in st.submissions ==> IsSoundSubmission(policy, s))
  }

  predicate IsSoundSubmission(policy: Policy, s: Submission) {
    s.build.slot == s.slot && s.bid <= Ceiling(policy, s.build)
  }

  lemma StartKeepsSound(policy: Policy, st: BidderState, msg: AuctionStart)
    requires Sound(policy, st)
    ensures Sound(policy, OnAuctionStart(st, msg))
  {
  }

  lemma {:induction false} StartsKeepSound(policy: Policy, st: BidderState, msgs: seq<AuctionStart>, n: nat)
    requires Sound(policy, st) && n <= |msgs|
    ensures Sound(policy, OnAuctionStarts(st, msgs, n))
    decreases n
  {
    if n > 0 {
      StartsKeepSound(policy, st, msgs, n - 1);
      StartKeepsSound(policy, OnAuctionStarts(st, msgs, n - 1), msgs[n - 1]);
    }
  }

  lemma RecordedElsewhere(a: Auction, info: Info)
    requires KeepsBest(a)
    requires info.slot == a.info.slot && info.bestBlock == a.info.bestBlock && info.bestBlockValue == a.info.bestBlockValue
    ensures forall answers :: KeepsBest(Auction(info, a.received, answers))
  {
    if a.received != [] {
      var i: nat :| IsEarliestBest(a.received, i) && IsRecorded(a, i);
      assert forall answers :: IsRecorded(Auction(info, a.received, answers), i);
    }
  }

  lemma TopBidKeepsSound(policy: Policy, st: BidderState, reply: TopBidPoll)
    requires Sound(policy, st)
    ensures Sound(policy, OnTopBid(st, reply))
  {
    if reply.Answer? && st.auction.Some? {
      var a := st.auction.value;
      RecordedElsewhere(a, WithAuctionBid(a.info, reply.value));
    }
  }

  lemma BuildKeepsBest(a: Auction, build: Candidate, info: Info)
    requires KeepsBest(a) && build.slot == a.info.slot && info.slot == a.info.slot
    requires if a.info.bestBlock.None? || build.value > a.info.bestBlock.value.value
             then info.bestBlock == Some(build) && info.bestBlockValue == build.value
             else info.bestBlock == a.info.bestBlock && info.bestBlockValue == a.info.bestBlockValue
    ensures KeepsBest(Auction(info, a.received + [build], a.answers))
  {
    var a', n := Auction(info, a.received + [build], a.answers), |a.received|;
    if a.received == [] {
      assert IsEarliestBest(a'.received, n) && IsRecorded(a', n);
    } else {
      var i: nat :| IsEarliestBest(a.received, i) && IsRecorded(a, i);
      if build.value > a.received[i].value {
        assert IsEarliestBest(a'.received, n) && IsRecorded(a', n);
      } else {
        assert IsEarliestBest(a'.received, i) && IsRecorded(a', i);
      }
    }
  }

  lemma BuildKeepsSound(policy: Policy, st: BidderState, build: Candidate)
    requires Sound(policy, st)
    ensures Sound(policy, OnBuild(st, build))
  {
    if st.auction.Some? && st.auction.value.info.slot == build.slot {
      var a := st.auction.value;
      assert a.info.bestBlock.Some? ==> a.info.bestBlock.value.value == a.info.bestBlockValue;
      BuildKeepsBest(a, build, OnBuild(st, build).auction.value.info);
    }
  }

  lemma {:induction false} BuildsKeepSound(policy: Policy, st: BidderState, builds: seq<Candidate>, n: nat)
    requires Sound(policy, st) && n <= |builds|
    ensures Sound(policy, OnBuilds(st, builds, n))
    decreases n
  {
    if n > 0 {
      BuildsKeepSound(policy, st, builds, n - 1);
      BuildKeepsSound(policy, OnBuilds(st, builds, n - 1), builds[n - 1]);
    }
  }

  lemma BidIsAffordable(policy: Policy, info: Info)
    requires policy.Usable() && info.bestBlock.Some? && info.bestBlockValue == info.bestBlock.value.value
    requires policy.ComputeBid(info).Some?
    ensures policy.ComputeBid(info).value <= Ceiling(policy, info.bestBlock.value)
  {
    if policy.LinearSurplus? {
      BidWithinBounds(policy, info);
    }
  }

  lemma BidKeepsSound(policy: Policy, clock: NetworkClock, st: BidderState, now: nat)
    requires policy.Usable() && Sound(policy, st)
    ensures Sound(policy, OnBid(policy, clock, st, now))
  {
    if st.auction.Some? {
      var a, st' := st.auction.value, OnBid(policy, clock, st, now);
      RecordedElsewhere(a, st'.auction.value.info);
      var info := a.info.(timeLeft := clock.TimeUntilSlotSignedMs(a.info.slot, now));
      if policy.ComputeBid(info).Some? && info.bestBlock.Some? {
        var i: nat :| IsEarliestBest(a.received, i) && IsRecorded(a, i);
        BidIsAffordable(policy, info);
        assert info.bestBlock.value in a.received;
      }
    }
  }

  lemma StepKeepsSound(policy: Policy, clock: NetworkClock, st: BidderState, input: PollInput)
    requires policy.Usable() && Sound(policy, st)
    ensures Sound(policy, Step(policy, clock, st, input))
  {
    var st1 := OnAuctionStarts(st, input.auctions, |input.auctions|);
    StartsKeepSound(policy, st, input.auctions, |input.auctions|);
    if !st.terminated && !input.auctionsClosed {
      TopBidKeepsSound(policy, st1, input.topBid);
      var st2 := OnBuilds(OnTopBid(st1, input.topBid), input.builds, |input.builds|);
      BuildsKeepSound(policy, OnTopBid(st1, input.topBid), input.builds, |input.builds|);
      if !input.buildsClosed {
        BidKeepsSound(policy, clock, st2, input.now);
      }
    }
  }

  /** The state after the first `n` polls. */
  function Run(policy: Policy, clock: NetworkClock, inputs: seq<PollInput>, n: nat): BidderState
    requires policy.Usable() && n <= |inputs|
    decreases n
  {
    if n == 0 then IDLE else Step(policy, clock, Run(policy, clock, inputs, n - 1), inputs[n - 1])
  }

  /** In every run: auction slots strictly increase; the best block is the earliest build of
      maximal value among those received for the current slot since its auction began, and its
      value is recorded; every submission carries a build of its auction's slot and bids no
      more than the build's value less the gas of the payment, plus the subsidy under the linear
      policy. */
  lemma {:induction false} RunIsSound(policy: Policy, clock: NetworkClock, inputs: seq<PollInput>, n: nat)
    requires policy.Usable() && n <= |inputs|
    ensures Sound(policy, Run(policy, clock, inputs, n))
    decreases n
  {
    if n > 0 {
      RunIsSound(policy, clock, inputs, n - 1);
      StepKeepsSound(policy, clock, Run(policy, clock, inputs, n - 1), inputs[n - 1]);
    }
  }

  // ---------- budget ----------

  /** What winning with a submission costs beyond the net value of its build. */
  function Overpaid(s: Submission): nat {
    SaturatingSub(s.bid, NetOf(s.build))
  }

  function TotalOverpaid(won: seq<Submission>, n: nat): nat
    requires n <= |won|
  {
    if n == 0 then 0 else TotalOverpaid(won, n - 1) + Overpaid(won[n - 1])
  }

  lemma {:induction false} OverpaidAtMostSubsidies(policy: Policy, won: seq<Submission>, n: nat)
    requires policy.LinearSurplus? && n <= |won|
    requires forall s :: s in won ==> IsSoundSubmission(policy, s)
    ensures TotalOverpaid(won, n) <= n * policy.maxBlockSubsidy
  {
    if n > 0 {
      OverpaidAtMostSubsidies(policy, won, n - 1);
      assert won[n - 1] in won;
      assert n * policy.maxBlockSubsidy == (n - 1) * policy.maxBlockSubsidy + policy.maxBlockSubsidy;
    }
  }

  /** Whatever the bidder saw in a run: winning with any of its submissions, at most as many as
      the targeted blocks, costs no more than the monthly budget beyond the net value of the
      builds submitted. */
  lemma BudgetHolds(offset: int, monthlyBudget: U64, targetBlocks: nat, minSurplus: U64, maxSurplus: U64,
                    clock: NetworkClock, inputs: seq<PollInput>, won: seq<Submission>)
    requires targetBlocks > 0 && offset > -1000 && |won| <= targetBlocks
    requires var p := NewLinearSurplus(offset, monthlyBudget, targetBlocks, minSurplus, maxSurplus);
             forall s :: s in won ==> s in Run(p, clock, inputs, |inputs|).submissions
    ensures TotalOverpaid(won, |won|) <= monthlyBudget * GWEI_TO_WEI
  {
    var p := NewLinearSurplus(offset, monthlyBudget, targetBlocks, minSurplus, maxSurplus);
    RunIsSound(p, clock, inputs, |inputs|);
    OverpaidAtMostSubsidies(p, won, |won|);
    FactorsKeepOrder(|won|, targetBlocks, p.maxBlockSubsidy);
  }
}
