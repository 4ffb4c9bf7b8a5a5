/** Bundles as submitted and as recovered, and the arithmetic of bundle refunds. */
module Bundles {
  import opened Wrappers
  import opened Words
  import opened Evm

  type Uuid = nat

  datatype Bundle = Bundle(
    hash: Hash,
    blockNumber: nat,
    minTimestamp: Option<nat>,
    maxTimestamp: Option<nat>,
    replacementUuid: Option<Uuid>)
  {
    predicate IsWithinTimestamp(timestamp: nat) {
      && (minTimestamp.None? || timestamp >= minTimestamp.value)
      && (maxTimestamp.None? || timestamp <= maxTimestamp.value)
    }

    predicate IsWithinBlockNumber(block: nat) {
      block == blockNumber
    }

    predicate IsTimestampOutOfBounds(timestamp: nat) {
      || (minTimestamp.Some? && timestamp < minTimestamp.value)
      || (maxTimestamp.Some? && timestamp > maxTimestamp.value)
    }

    predicate IsPrunable(block: nat, timestamp: nat) {
      IsTimestampOutOfBounds(timestamp) || blockNumber < block
    }
  }

  // ---------- refunds ----------

  /** Cost of the builder's transfer as the refund computes it: a 64-bit product that wraps. */
  function TransferCost(baseFee: nat): nat {
    MAX_BUILDER_TRANSFER_GAS_LIMIT * baseFee % U64_SIZE
  }

  datatype BundleRefund = BundleRefund(percent: nat, index: Option<nat>, recipient: Option<Address>) {
    function Amount(fees: nat, coinbaseTransfer: nat, baseFee: nat): nat {
      SaturatingMul(SaturatingSub(SaturatingAdd(fees, coinbaseTransfer), TransferCost(baseFee)), percent) / 100
    }
  }

  function NewRefund(percent: Option<nat>, index: Option<nat>, recipient: Option<Address>): (r: Option<BundleRefund>)
    ensures r.Some? <==> percent.Some?
    ensures r.Some? ==> r.value.index == index && r.value.recipient == recipient
    ensures r.Some? ==> r.value.percent == if percent.value > 100 then 100 else percent.value
  {
    if percent.None? then None
    else Some(BundleRefund(if percent.value < 100 then percent.value else 100, index, recipient))
  }

  lemma ShareIsAtMostWhole(x: nat, percent: nat)
    requires percent <= 100
    ensures SaturatingMul(x, percent) / 100 <= x
  {
    assert x * percent <= x * 100;
  }

  /** A refund that is paid leaves the builder the cost of paying it, whatever percentage was
      asked for and however large the amounts are. */
  lemma RefundLeavesTransferCost(refund: BundleRefund, fees: nat, coinbaseTransfer: nat, baseFee: nat)
    requires refund.percent <= 100
    ensures refund.Amount(fees, coinbaseTransfer, baseFee) > 0 ==>
            refund.Amount(fees, coinbaseTransfer, baseFee) + TransferCost(baseFee) <= fees + coinbaseTransfer
  {
    var left := SaturatingSub(SaturatingAdd(fees, coinbaseTransfer), TransferCost(baseFee));
    ShareIsAtMostWhole(left, refund.percent);
  }

  /** While nothing exceeds its word, the refund is the requested share of what fees and coinbase
      transfer leave above the cost of a transfer of 32000 gas, rounded down. */
  lemma RefundIsShare(refund: BundleRefund, fees: nat, coinbaseTransfer: nat, baseFee: nat)
    requires refund.percent <= 100 && 32000 * baseFee < U64_SIZE
    requires (fees + coinbaseTransfer) * 100 < U256_SIZE
    ensures var amount, left := refund.Amount(fees, coinbaseTransfer, baseFee), fees + coinbaseTransfer - 32000 * baseFee;
            && (left <= 0 ==> amount == 0)
            && (left > 0 ==> 100 * amount <= left * refund.percent < 100 * (amount + 1))
  {
    var left := SaturatingSub(SaturatingAdd(fees, coinbaseTransfer), TransferCost(baseFee));
    ProductAtMost(left, refund.percent, fees + coinbaseTransfer);
  }

  lemma ProductAtMost(left: nat, percent: nat, whole: nat)
    requires left <= whole && percent <= 100
    ensures left * percent <= whole * 100
  {
    assert left * percent <= left * 100;
  }

  ghost predicate RefundsLeaveGasCost(baseFee: nat) {
    forall refund: BundleRefund, fees: nat, coinbaseTransfer: nat {:trigger refund.Amount(fees, coinbaseTransfer, baseFee)} ::
      refund.percent <= 100 && refund.Amount(fees, coinbaseTransfer, baseFee) > 0 ==>
      refund.Amount(fees, coinbaseTransfer, baseFee) + MAX_BUILDER_TRANSFER_GAS_LIMIT * baseFee
        <= fees + coinbaseTransfer
  }

  /** Refunds leave the real gas cost of the transfer exactly at those base fees for which
      that cost fits in 64 bits. */
  lemma RefundsLeaveGasCostIff(baseFee: nat)
    ensures RefundsLeaveGasCost(baseFee) <==> MAX_BUILDER_TRANSFER_GAS_LIMIT * baseFee < U64_SIZE
  {
    var cost := MAX_BUILDER_TRANSFER_GAS_LIMIT * baseFee;
    if cost < U64_SIZE {
      forall refund: BundleRefund, fees: nat, coinbaseTransfer: nat
        | refund.percent <= 100 && refund.Amount(fees, coinbaseTransfer, baseFee) > 0
        ensures refund.Amount(fees, coinbaseTransfer, baseFee) + cost <= fees + coinbaseTransfer
      {
        RefundLeavesTransferCost(refund, fees, coinbaseTransfer, baseFee);
      }
    } else {
      var refund := BundleRefund(100, None, None);
      assert refund.Amount(TransferCost(baseFee) + 1, 0, baseFee) == 1;
    }
  }

  // ---------- recovered bundles ----------

  datatype RecoveredBundle = RecoveredBundle(
    txs: seq<Tx>,
    revertingTxHashes: seq<Hash>,
    refund: Option<BundleRefund>)
  {
    function Hashes(): set<Hash> {
      set tx | tx in txs :: tx.hash
    }

    /** The index asked for, or the last transaction. */
    function RefundIndex(): Option<nat> {
      if refund.Some? && refund.value.index.Some? then refund.value.index
      else if |txs| == 0 then None
      else Some(|txs| - 1)
    }

    /** The recipient asked for, or the sender of the transaction at the refund index. */
    function RefundRecipient(): Option<Address> {
      if refund.Some? && refund.value.recipient.Some? then refund.value.recipient
      else
        var index := RefundIndex();
        if index.Some? && index.value < |txs| then Some(txs[index.value].signer) else None
    }
  }

  /** Without an index the last transaction is the one that counts; without a recipient the sender
      of the one that counts is paid; an index behind the last leaves nobody to be paid. */
  lemma RefundDefaults(b: RecoveredBundle, r: BundleRefund)
    requires b.refund == Some(r)
    ensures r.index.None? && |b.txs| > 0 ==> b.RefundIndex() == Some(|b.txs| - 1)
    ensures r.index.Some? ==> b.RefundIndex() == r.index
    ensures r.recipient.Some? ==> b.RefundRecipient() == r.recipient
    ensures r.recipient.None? && r.index.None? && |b.txs| > 0 ==> b.RefundRecipient() == Some(b.txs[|b.txs| - 1].signer)
    ensures r.recipient.None? && r.index.Some? ==>
      b.RefundRecipient() == if r.index.value < |b.txs| then Some(b.txs[r.index.value].signer) else None
    ensures r.recipient.None? && |b.txs| == 0 ==> b.RefundRecipient() == None
  {
  }
}
