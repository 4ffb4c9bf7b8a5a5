/** The bidder: it follows slot auctions, keeps the best build of the current one and submits
    it with a bid. A poll takes what its channels hold at that moment as input. */
module Bidder {
  import opened Wrappers
  import opened Words
  import opened Clock
  import opened Policy

  datatype AuctionStart = AuctionStart(slot: nat, blockNumber: nat)

  /** What polling the outstanding top bid request yields. */
  datatype TopBidPoll = NotReady | NoAnswer | Answer(value: U256)

  datatype PollInput = PollInput(
    auctions: seq<AuctionStart>,
    auctionsClosed: bool,
    topBid: TopBidPoll,
    builds: seq<Candidate>,
    buildsClosed: bool,
    now: nat)

  /** A build handed over to be finished with a payment and sent to the relays. */
  datatype Submission = Submission(slot: nat, build: Candidate, bid: U256)

  /** A request for the top bid of a block, made in the auction of a slot. */
  datatype Request = Request(slot: nat, blockNumber: nat)

  /** An answer that was counted, with the slot of the auction it had been asked for in. */
  datatype TopBid = TopBid(slot: nat, value: U256)

  /** An auction together with the builds of its slot received and the answers counted since it
      began. */
  datatype Auction = Auction(info: Info, received: seq<Candidate>, answers: seq<TopBid>)

  /** `asked` is the outstanding top bid request, `started` the slots of all auctions so far. */
  datatype BidderState = BidderState(
    auction: Option<Auction>,
    asked: Option<Request>,
    submissions: seq<Submission>,
    started: seq<nat>,
    terminated: bool)

  const IDLE: BidderState := BidderState(None, None, [], [], false)

  // ---------- the phases of a poll ----------

  /** The builds of a slot, in order. */
  function OfSlot(builds: seq<Candidate>, slot: nat, n: nat): seq<Candidate>
    requires n <= |builds|
    decreases n
  {
    if n == 0 then []
    else OfSlot(builds, slot, n - 1) + (if builds[n - 1].slot == slot then [builds[n - 1]] else [])
  }

  /** Only a later slot than the current one starts a new auction. */
  function OnAuctionStart(st: BidderState, msg: AuctionStart): BidderState {
    if st.auction.None? || st.auction.value.info.slot < msg.slot
    then st.(auction := Some(Auction(NewInfo(msg.slot, msg.blockNumber), [], [])), started := st.started + [msg.slot])
    else st
  }

  function OnAuctionStarts(st: BidderState, msgs: seq<AuctionStart>, n: nat): BidderState
    requires n <= |msgs|
    decreases n
  {
    if n == 0 then st else OnAuctionStart(OnAuctionStarts(st, msgs, n - 1), msgs[n - 1])
  }

  function WithAuctionBid(info: Info, bid: U256): Info {
    info.(bestAuctionBid := Maximum(info.bestAuctionBid, bid), lastAuctionBid := bid)
  }

  function Ask(st: BidderState): BidderState {
    st.(asked := if st.auction.Some? then Some(Request(st.auction.value.info.slot, st.auction.value.info.blockNumber)) else None)
  }

  /** An answer counts for the auction of the moment, whichever block was asked about. */
  function OnTopBid(st: BidderState, reply: TopBidPoll): BidderState {
    if st.asked.None? then Ask(st)
    else if reply.NotReady? then st
    else if reply.Answer? && st.auction.Some? then
      var a := st.auction.value;
      Ask(st.(auction := Some(Auction(WithAuctionBid(a.info, reply.value), a.received,
                                      a.answers + [TopBid(st.asked.value.slot, reply.value)]))))
    else Ask(st)
  }

  /** A build of another slot is dropped; one of this slot replaces the best only if its value
      is strictly greater. */
  function OnBuild(st: BidderState, build: Candidate): BidderState {
    if st.auction.None? || st.auction.value.info.slot != build.slot then st
    else
      var a := st.auction.value;
      var better := a.info.bestBlock.None? || build.value > a.info.bestBlock.value.value;
      var info := if better && build.value >= a.info.bestBlockValue
                  then a.info.(bestBlock := Some(build), bestBlockValue := build.value)
                  else a.info;
      st.(auction := Some(Auction(info, a.received + [build], a.answers)))
  }

  function OnBuilds(st: BidderState, builds: seq<Candidate>, n: nat): BidderState
    requires n <= |builds|
    decreases n
  {
    if n == 0 then st else OnBuild(OnBuilds(st, builds, n - 1), builds[n - 1])
  }

  /** Refreshes the time and, if the policy bids and there is a block, submits it. */
  function OnBid(policy: Policy, clock: NetworkClock, st: BidderState, now: nat): BidderState
    requires policy.Usable()
  {
    if st.auction.None? then st
    else
      var a := st.auction.value;
      var info := a.info.(timeLeft := clock.TimeUntilSlotSignedMs(a.info.slot, now));
      var bid := policy.ComputeBid(info);
      if bid.None? || info.bestBlock.None? then st.(auction := Some(a.(info := info)))
      else
        var info' := info.(bidCount := info.bidCount + 1, bestBid := Maximum(info.bestBid, bid.value), lastBid := bid.value);
        st.(auction := Some(a.(info := info')),
            submissions := st.submissions + [Submission(info.slot, info.bestBlock.value, bid.value)])
  }

  /** One poll. A closed channel ends the service before the later phases. */
  function Step(policy: Policy, clock: NetworkClock, st: BidderState, input: PollInput): BidderState
    requires policy.Usable()
  {
    if st.terminated then st
    else
      var st1 := OnAuctionStarts(st, input.auctions, |input.auctions|);
      if input.auctionsClosed then st1.(terminated := true)
      else
        var st2 := OnBuilds(OnTopBid(st1, input.topBid), input.builds, |input.builds|);
        if input.buildsClosed then st2.(terminated := true)
        else OnBid(policy, clock, st2, input.now)
  }

  class BidderService {
    const policy: Policy
    const clock: NetworkClock
    var info: AuctionBidInfo?
    var asked: Option<Request>
    var submissions: seq<Submission>
    var terminated: bool
    ghost var received: seq<Candidate>
    ghost var answers: seq<TopBid>
    ghost var started: seq<nat>

    constructor (policy: Policy, clock: NetworkClock)
      ensures this.policy == policy && this.clock == clock && View() == IDLE
    {
      this.policy, this.clock := policy, clock;
      info, asked, submissions, terminated := null, None, [], false;
      received, answers, started := [], [], [];
    }

    ghost function View(): BidderState
      reads this, info
    {
      BidderState(if info == null then None else Some(Auction(info.View(), received, answers)),
                  asked, submissions, started, terminated)
    }

    method OnNewSlotAuction(slot: nat, blockNumber: nat)
      modifies this`info, this`received, this`answers, this`started
      ensures fresh(info)
      ensures View() == old(View()).(auction := Some(Auction(NewInfo(slot, blockNumber), [], [])), started := old(started) + [slot])
    {
      info := new AuctionBidInfo(slot, blockNumber);
      received, answers, started := [], [], started + [slot];
    }

    method DrainAuctionStarts(msgs: seq<AuctionStart>)
      modifies this`info, this`received, this`answers, this`started
      ensures View() == OnAuctionStarts(old(View()), msgs, |msgs|)
      ensures info == old(info) || fresh(info)
    {
      var n := 0;
      while n < |msgs|
        invariant 0 <= n <= |msgs| && View() == OnAuctionStarts(old(View()), msgs, n)
        invariant info == old(info) || fresh(info)
      {
        if info == null || info.slot < msgs[n].slot {
          OnNewSlotAuction(msgs[n].slot, msgs[n].blockNumber);
        }
        n := n + 1;
      }
    }

    method SpawnTopBidRequest()
      modifies this`asked
      ensures View() == Ask(old(View()).(asked := None))
    {
      asked := if info != null then Some(Request(info.slot, info.blockNumber)) else None;
    }

    method PollTopBid(reply: TopBidPoll)
      modifies this`asked, this`answers, info
      ensures View() == OnTopBid(old(View()), reply)
    {
      if asked.Some? {
        if reply.NotReady? {
          return;
        }
        if reply.Answer? && info != null {
          info.UpdateAuctionBidInfo(reply.value);
          answers := answers + [TopBid(asked.value.slot, reply.value)];
        }
      }
      SpawnTopBidRequest();
    }

    method DrainBuilds(builds: seq<Candidate>)
      modifies this`received, info
      ensures View() == OnBuilds(old(View()), builds, |builds|)
    {
      var n := 0;
      while n < |builds|
        invariant 0 <= n <= |builds| && View() == OnBuilds(old(View()), builds, n)
      {
        var build := builds[n];
        n := n + 1;
        if info != null && info.slot == build.slot {
          var isBetter := info.bestBlock.None? || build.value > info.bestBlock.value.value;
          if isBetter {
            info.UpdateBlockInfo(build, build.value);
          }
          received := received + [build];
        }
      }
    }

    method MakeBid(now: nat)
      requires policy.Usable()
      modifies this`submissions, info
      ensures View() == OnBid(policy, clock, old(View()), now)
    {
      if info != null {
        info.RefreshTime(clock.TimeUntilSlotSignedMs(info.slot, now));
        var bid := policy.ComputeBid(info.View());
        if bid.Some? && info.bestBlock.Some? {
          submissions := submissions + [Submission(info.slot, info.bestBlock.value, bid.value)];
          info.UpdateBidInfo(bid.value);
        }
      }
    }

    method Poll(input: PollInput) returns (ready: bool)
      requires policy.Usable() && !terminated
      modifies this, info
      ensures View() == Step(policy, clock, old(View()), input)
      ensures ready <==> terminated
    {
      DrainAuctionStarts(input.auctions);
      if input.auctionsClosed {
        terminated := true;
        return true;
      }
      PollTopBid(input.topBid);
      DrainBuilds(input.builds);
      if input.buildsClosed {
        terminated := true;
        return true;
      }
      MakeBid(input.now);
      ready := false;
    }
  }
}
