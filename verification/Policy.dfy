/** What the bidder knows about an auction, and the policies that turn it into a bid. */
module Policy {
  import opened Wrappers
  import opened Words
  import opened Evm
  import opened Clock

  const GWEI_TO_WEI: nat := 1_000_000_000

  /** A finished build state as the bidder sees it. */
  datatype Candidate = Candidate(id: nat, slot: nat, baseFee: U64, value: U256)

  /** The state of an auction; also the value of an AuctionBidInfo object. */
  datatype Info = Info(
    slot: nat,
    blockNumber: nat,
    timeLeft: int,
    bidCount: nat,
    bestBlock: Option<Candidate>,
    bestBlockValue: U256,
    bestBid: U256,
    lastBid: U256,
    bestAuctionBid: U256,
    lastAuctionBid: U256)

  function NewInfo(slot: nat, blockNumber: nat): Info {
    Info(slot, blockNumber, 12000, 0, None, 0, 0, 0, 0, 0)
  }

  function Maximum(a: U256, b: U256): U256 {
    if a < b then b else a
  }

  class AuctionBidInfo {
    const slot: nat
    const blockNumber: nat
    var timeLeft: int
    var bidCount: nat
    var bestBlock: Option<Candidate>
    var bestBlockValue: U256
    var bestBid: U256
    var lastBid: U256
    var bestAuctionBid: U256
    var lastAuctionBid: U256

    constructor (slot: nat, blockNumber: nat)
      ensures View() == NewInfo(slot, blockNumber)
    {
      this.slot, this.blockNumber, timeLeft, bidCount := slot, blockNumber, 12000, 0;
      bestBlock, bestBlockValue := None, 0;
      bestBid, lastBid, bestAuctionBid, lastAuctionBid := 0, 0, 0, 0;
    }

    function View(): Info
      reads this
    {
      Info(slot, blockNumber, timeLeft, bidCount, bestBlock, bestBlockValue, bestBid, lastBid, bestAuctionBid, lastAuctionBid)
    }

    method RefreshTime(left: int)
      modifies this
      ensures View() == old(View()).(timeLeft := left)
    {
      timeLeft := left;
    }

    /** A build of lower value leaves everything as it is. */
    method UpdateBlockInfo(block: Candidate, value: U256)
      modifies this
      ensures View() == if value >= old(bestBlockValue)
                        then old(View()).(bestBlock := Some(block), bestBlockValue := value)
                        else old(View())
    {
      if value >= bestBlockValue {
        bestBlock := Some(block);
        bestBlockValue := value;
      }
    }

    method UpdateBidInfo(bid: U256)
      modifies this
      ensures View() == old(View()).(bidCount := old(bidCount) + 1, bestBid := Maximum(old(bestBid), bid), lastBid := bid)
    {
      bidCount := bidCount + 1;
      bestBid := Maximum(bestBid, bid);
      lastBid := bid;
    }

    method UpdateAuctionBidInfo(bid: U256)
      modifies this
      ensures View() == old(View()).(bestAuctionBid := Maximum(old(bestAuctionBid), bid), lastAuctionBid := bid)
    {
      bestAuctionBid := Maximum(bestAuctionBid, bid);
      lastAuctionBid := bid;
    }
  }

  // ---------- policies ----------

  function GweiToWei(v: U64): U256 {
    v * GWEI_TO_WEI
  }

  /** The share of `spread` due when `into` of `window` milliseconds have passed. */
  function Ramp(spread: U256, into: nat, window: nat): U256
    requires window > 0
  {
    QuotientBelow(WrappingMul(spread, into), window);
    WrappingMul(spread, into) / window
  }

  datatype Policy =
    | NoProfit(offset: int)
    | LinearSurplus(offset: int, maxBlockSubsidy: U256, minBidSurplus: U256, maxBidSurplus: U256)
    | Devnet
  {
    /** With an offset of -1000 or less the linear policy would divide by zero or convert a
        negative number. */
    predicate Usable() {
      LinearSurplus? ==> offset > -1000
    }

    /** Surplus over the best auction bid, growing linearly from the offset to one second past
        the slot's start. */
    function Surplus(timeLeft: int): U256
      requires LinearSurplus? && offset > -1000 && timeLeft <= offset
    {
      var spread := SaturatingSub(maxBidSurplus, minBidSurplus);
      SaturatingAdd(Ramp(spread, offset - timeLeft, offset + 1000), minBidSurplus)
    }

    function ComputeBid(info: Info): Option<U256>
      requires Usable()
    {
      if Devnet? then Some(info.bestBlockValue)
      else if info.timeLeft > offset || info.bestBlock.None? then None
      else if NoProfit? then Some(NetValue(info))
      else
        var toBid := WrappingAdd(info.bestAuctionBid, Surplus(info.timeLeft));
        var maxBid := WrappingAdd(maxBlockSubsidy, NetValue(info));
        var bid: U256 := if maxBid < toBid then maxBid else toBid;
        if bid < info.bestAuctionBid then None else Some(bid)
    }
  }

  /** Value of a build less the gas cost of the payment, not below 0. */
  function NetOf(build: Candidate): U256 {
    SaturatingSub(build.value, build.baseFee * MAX_BUILDER_TRANSFER_GAS_LIMIT)
  }

  /** Best block value less the gas cost of the payment, not below 0. */
  function NetValue(info: Info): U256 {
    if info.bestBlock.None? then info.bestBlockValue
    else SaturatingSub(info.bestBlockValue, info.bestBlock.value.baseFee * MAX_BUILDER_TRANSFER_GAS_LIMIT)
  }

  /** `targetBlocks` is the market share of a month's blocks; it must not be 0. */
  function NewLinearSurplus(offset: int, monthlyBudget: U64, targetBlocks: nat, minSurplus: U64, maxSurplus: U64): (p: Policy)
    requires targetBlocks > 0
    ensures p.LinearSurplus? && p.offset == offset
    ensures p.minBidSurplus == minSurplus * 1_000_000_000 && p.maxBidSurplus == maxSurplus * 1_000_000_000
    ensures p.maxBlockSubsidy * targetBlocks <= monthlyBudget * 1_000_000_000 < (p.maxBlockSubsidy + 1) * targetBlocks
  {
    var subsidy := GweiToWei(monthlyBudget) / targetBlocks;
    LinearSurplus(offset, subsidy, GweiToWei(minSurplus), GweiToWei(maxSurplus))
  }

  /** Above every amount configured as a 64-bit number of gwei. */
  const MAX_SPREAD: nat := 0x1_0000_0000_0000_0000 * GWEI_TO_WEI

  /** Above every difference of two times in milliseconds. */
  const MAX_TIME: nat := 0x1_0000_0000_0000_0000_0000_0000_0000_0000

  /** Amounts configured in gwei and times that fit in 128 bits. */
  predicate Sane(p: Policy, timeLeft: int) {
    && p.LinearSurplus? && p.offset > -1000
    && p.minBidSurplus < MAX_SPREAD && p.maxBidSurplus < MAX_SPREAD
    && 0 <= p.offset - timeLeft < MAX_TIME
  }

  lemma ProductBelow(a: nat, b: nat, x: nat, y: nat)
    requires a <= x && b <= y
    ensures a * b <= x * y
  {
    FactorsKeepOrder(a, x, b);
    FactorsKeepOrder(b, y, x);
  }

  lemma QuotientBelow(a: nat, d: nat)
    requires d > 0
    ensures a / d <= a
  {
    DivBounds(a, d, a / d);
    FactorsKeepOrder(1, d, a / d);
  }

  /** Nothing wraps in the ramp for sane inputs. */
  lemma RampExact(spread: U256, into: nat, window: nat)
    requires window > 0 && spread < MAX_SPREAD && into < MAX_TIME
    ensures spread * into < U256_SIZE / 4
    ensures Ramp(spread, into, window) == spread * into / window
    ensures Ramp(spread, into, window) < U256_SIZE / 4
  {
    ProductBelow(spread, into, MAX_SPREAD, MAX_TIME);
    QuotientBelow(spread * into, window);
  }

  lemma RampGrows(spread: U256, into: nat, later: nat, window: nat)
    requires window > 0 && spread < MAX_SPREAD && into <= later < MAX_TIME
    ensures Ramp(spread, into, window) <= Ramp(spread, later, window)
  {
    RampExact(spread, into, window);
    RampExact(spread, later, window);
    ProductBelow(spread, into, spread, later);
    DivMonotone(spread * into, spread * later, window);
  }

  lemma RampEnds(spread: U256, window: nat)
    requires 0 < window < MAX_TIME && spread < MAX_SPREAD
    ensures Ramp(spread, 0, window) == 0 && Ramp(spread, window, window) == spread
  {
    RampExact(spread, 0, window);
    RampExact(spread, window, window);
    DivBounds(spread * window, window, spread);
  }

  /** For sane inputs the surplus does not saturate and leaves room above half the range. */
  lemma SurplusExact(p: Policy, timeLeft: int)
    requires Sane(p, timeLeft)
    ensures p.Surplus(timeLeft) == p.minBidSurplus +
            Ramp(SaturatingSub(p.maxBidSurplus, p.minBidSurplus), p.offset - timeLeft, p.offset + 1000)
    ensures p.Surplus(timeLeft) < U256_SIZE / 2
  {
    RampExact(SaturatingSub(p.maxBidSurplus, p.minBidSurplus), p.offset - timeLeft, p.offset + 1000);
  }

  lemma SurplusGrows(p: Policy, timeLeft: int, later: int)
    requires Sane(p, timeLeft) && Sane(p, later) && later <= timeLeft
    ensures p.Surplus(timeLeft) <= p.Surplus(later)
  {
    SurplusExact(p, timeLeft);
    SurplusExact(p, later);
    RampGrows(SaturatingSub(p.maxBidSurplus, p.minBidSurplus), p.offset - timeLeft, p.offset - later, p.offset + 1000);
  }

  /** The surplus is the minimum when bidding starts and the larger of the two bounds one
      second past the slot's start; in between it lies between them. */
  lemma SurplusWithinWindow(p: Policy, timeLeft: int)
    requires Sane(p, timeLeft) && Sane(p, -1000) && -1000 <= timeLeft
    ensures p.Surplus(p.offset) == p.minBidSurplus
    ensures p.Surplus(-1000) == Max(p.minBidSurplus, p.maxBidSurplus)
    ensures p.minBidSurplus <= p.Surplus(timeLeft) <= Max(p.minBidSurplus, p.maxBidSurplus)
  {
    RampEnds(SaturatingSub(p.maxBidSurplus, p.minBidSurplus), p.offset + 1000);
    SurplusExact(p, p.offset);
    SurplusExact(p, -1000);
    SurplusGrows(p, timeLeft, -1000);
    SurplusGrows(p, p.offset, timeLeft);
  }

  /** A bid is made exactly when the offset is reached, there is a block, the auction's best bid
      is within reach of subsidy and net value, and outbidding it does not overflow. */
  lemma BidIff(p: Policy, info: Info)
    requires p.LinearSurplus? && p.offset > -1000
    ensures p.ComputeBid(info).Some? <==>
            && info.timeLeft <= p.offset && info.bestBlock.Some?
            && info.bestAuctionBid <= WrappingAdd(p.maxBlockSubsidy, NetValue(info))
            && info.bestAuctionBid + p.Surplus(info.timeLeft) < U256_SIZE
  {
  }

  /** The surplus due is the configured minimum and, of what the maximum exceeds it by, the share of
      the window that has passed. */
  lemma SurplusIsShare(p: Policy, timeLeft: int)
    requires Sane(p, timeLeft)
    ensures var spread := if p.maxBidSurplus > p.minBidSurplus then p.maxBidSurplus - p.minBidSurplus else 0;
            p.Surplus(timeLeft) == p.minBidSurplus + spread * (p.offset - timeLeft) / (p.offset + 1000)
  {
    SurplusExact(p, timeLeft);
    RampExact(SaturatingSub(p.maxBidSurplus, p.minBidSurplus), p.offset - timeLeft, p.offset + 1000);
  }

  /** A linear bid outbids the auction by exactly the surplus due, unless what the subsidy and the
      block's value above 32000 gas of the base fee can pay is less: then it is that. */
  lemma LinearBidOutbids(p: Policy, info: Info)
    requires p.LinearSurplus? && p.offset > -1000 && p.ComputeBid(info).Some?
    ensures info.bestBlock.Some?
    ensures var cost := info.bestBlock.value.baseFee * 32000;
            var net := if info.bestBlockValue > cost then info.bestBlockValue - cost else 0;
            p.maxBlockSubsidy + net < U256_SIZE ==>
              var outbid, cap := info.bestAuctionBid + p.Surplus(info.timeLeft), p.maxBlockSubsidy + net;
              p.ComputeBid(info).value == if outbid <= cap then outbid else cap
  {
  }

  /** When the two other policies bid, and what: without profit from the offset on, the block's value
      above 32000 gas of the base fee, which is 0 only if it does not exceed that; for development
      networks always the whole value. */
  lemma OtherBidsIff(p: Policy, info: Info)
    requires !p.LinearSurplus?
    ensures p.NoProfit? ==>
      && (p.ComputeBid(info).Some? <==> info.timeLeft <= p.offset && info.bestBlock.Some?)
      && (p.ComputeBid(info).Some? ==>
            var bid, cost := p.ComputeBid(info).value, info.bestBlock.value.baseFee * 32000;
            (bid == 0 <==> info.bestBlockValue <= cost) && (bid > 0 ==> bid + cost == info.bestBlockValue))
    ensures p.Devnet? ==> p.ComputeBid(info) == Some(info.bestBlockValue)
  {
  }

  /** Every bid of the linear policy lies between the auction's best bid and what subsidy and
      block can pay, for all 256-bit amounts; inside the window it exceeds the auction's best
      bid by at most the larger surplus bound. */
  lemma BidWithinBounds(p: Policy, info: Info)
    requires p.LinearSurplus? && p.offset > -1000 && p.ComputeBid(info).Some?
    ensures info.bestAuctionBid <= p.ComputeBid(info).value <= p.maxBlockSubsidy + NetValue(info)
    ensures Sane(p, info.timeLeft) && Sane(p, -1000) && -1000 <= info.timeLeft ==>
            p.ComputeBid(info).value <= info.bestAuctionBid + Max(p.minBidSurplus, p.maxBidSurplus)
  {
    if Sane(p, info.timeLeft) && Sane(p, -1000) && -1000 <= info.timeLeft {
      SurplusWithinWindow(p, info.timeLeft);
    }
  }

  /** For a fixed auction state in which there is a bid, there still is one at a later moment, as
      measured by the clock, exactly if outbidding the auction then does not overflow; and the bid
      never falls. */
  lemma BidNeverFalls(p: Policy, info: Info, clock: NetworkClock, now: nat, later: nat)
    requires now <= later
    requires var t, t' := clock.TimeUntilSlotSignedMs(info.slot, now), clock.TimeUntilSlotSignedMs(info.slot, later);
             Sane(p, t) && Sane(p, t') && p.ComputeBid(info.(timeLeft := t)).Some?
    ensures var t, t' := clock.TimeUntilSlotSignedMs(info.slot, now), clock.TimeUntilSlotSignedMs(info.slot, later);
            var bid, bid' := p.ComputeBid(info.(timeLeft := t)), p.ComputeBid(info.(timeLeft := t'));
            && (bid'.Some? <==> info.bestAuctionBid + p.Surplus(t') < U256_SIZE)
            && (bid'.Some? ==> bid.value <= bid'.value)
  {
    var t, t' := clock.TimeUntilSlotSignedMs(info.slot, now), clock.TimeUntilSlotSignedMs(info.slot, later);
    TimeLeftNeverGrows(clock, info.slot, now, later);
    SurplusGrows(p, t, t');
    BidIff(p, info.(timeLeft := t));
    BidIff(p, info.(timeLeft := t'));
  }

  /** The bid without profit and the gas reserved for paying it make up the block value, or the bid
      is 0. */
  lemma NoProfitCovered(p: Policy, info: Info)
    requires p.NoProfit? && p.ComputeBid(info).Some?
    ensures var bid := p.ComputeBid(info).value;
            bid == 0 || bid + info.bestBlock.value.baseFee * MAX_BUILDER_TRANSFER_GAS_LIMIT == info.bestBlockValue
  {
  }
}
