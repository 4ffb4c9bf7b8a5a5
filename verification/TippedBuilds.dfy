/** Builds that bring the builder something and still do not do what one would expect of them. */
module TippedBuilds {
  import opened Wrappers
  import opened Evm
  import opened Bundles
  import opened Ledger
  import opened Simulation
  import opened BundleOrder
  import opened BuildStates
  import opened BundlesStrat
  import opened BlockTheorems
  import opened Policy
  import opened Solvency
  import opened FailingBuild

  /** A transaction of the coinbase account transfers its value away; any other brings the account
      100. All use 21000 gas. */
  function TippingEvm(w: World, tx: Tx): Result<EvmResult, EvmError> {
    var before := Balance(w, 0);
    if tx.gasLimit < 21000 || (tx.signer == 0 && tx.value > before) then Failure(InvalidTransaction)
    else Success(EvmResult(true, 21000, BuilderHolds(if tx.signer == 0 then before - tx.value else before + 100)))
  }

  function BuilderHolds(balance: nat): World {
    map[0 := Account(0, balance, 0, map[])]
  }

  function TippingConfig(blockGasLimit: nat): BuildConfig {
    BuildConfig(1, 1, blockGasLimit, 0, 0, 9, {}, TippingEvm, (nonce, recipient, amount) => 0)
  }

  /** What a tip leaves behind when the builder held `before`. */
  function Tip(tx: Tx, before: nat): SimTx {
    SimTx(tx, true, BuilderHolds(before + 100), 21000, 0, 0, 100)
  }

  /** What a transfer of the builder leaves behind. */
  function Transferred(cfg: BuildConfig, recipient: Address, amount: nat, before: nat): SimTx
    requires amount <= before
  {
    SimTx(cfg.TransferTx(BuilderHolds(before), recipient, amount), true, BuilderHolds(before - amount), 21000, 0, 0, 0)
  }

  lemma TipSimulates(limit: nat, hash: Hash, nonce: nat, gasLimit: nat, before: nat)
    requires gasLimit >= 21000
    ensures var tx := PlainTx(hash, nonce, gasLimit);
            SimulateTx(TippingConfig(limit), BuilderHolds(before), before, tx) == Success(Tip(tx, before))
  {
  }

  lemma TransferSimulates(limit: nat, recipient: Address, amount: nat, before: nat)
    requires amount <= before
    ensures var cfg := TippingConfig(limit);
            SimulateTx(cfg, BuilderHolds(before), before, cfg.TransferTx(BuilderHolds(before), recipient, amount))
            == Success(Transferred(cfg, recipient, amount, before))
  {
  }

  lemma HoldingsReplaced(before: nat, after: nat)
    ensures BuilderHolds(before) + BuilderHolds(after) == BuilderHolds(after)
  {
  }

  lemma AppendTwo(w: World, a: SimTx, b: SimTx)
    ensures Replay(w, [a, b]) == w + a.state + b.state
    ensures BlockValue([a, b]) == a.fees + a.coinbaseTransfer + b.fees + b.coinbaseTransfer
  {
    AppendOne(w, a);
    Append(w, [a], b);
    assert [a] + [b] == [a, b];
  }

  // ---------- gas limits ----------

  const FIRST: Tx := PlainTx(1, 0, 90000)
  const SECOND: Tx := PlainTx(2, 1, 90000)

  function TwoOffers(): PoolIterator {
    f => if |f| == 0 then Some(FIRST) else if |f| == 1 then Some(SECOND) else None
  }

  /** Both are included, one behind the other. */
  function TwoTips(start: nat): seq<Offer> {
    [Offer(FIRST, Included(Tip(FIRST, start))), Offer(SECOND, Included(Tip(SECOND, start + 100)))]
  }

  lemma TakenOfTwo(h: seq<Offer>)
    requires |h| == 2 && h[0].verdict.Included? && h[1].verdict.Included?
    ensures |Taken(h, 0)| == 0 && Taken(h, 1) == [h[0].verdict.sim] && Taken(h, 2) == [h[0].verdict.sim, h[1].verdict.sim]
    ensures TakenHashes(h, 1) == {h[0].tx.hash}
  {
    assert Taken(h, 1) == Taken(h, 0) + [h[0].verdict.sim];
  }

  lemma FirstOffered(start: nat)
    ensures OfferedAt(TippingConfig(100000), BuilderHolds(start), [], {}, TwoOffers(), TwoTips(start), 0)
  {
    TipSimulates(100000, 1, 0, 90000, start);
  }

  lemma SecondOffered(start: nat)
    ensures OfferedAt(TippingConfig(100000), BuilderHolds(start), [], {}, TwoOffers(), TwoTips(start), 1)
  {
    var h := TwoTips(start);
    TakenOfTwo(h);
    assert [] + Taken(h, 1) == [Tip(FIRST, start)];
    AppendOne(BuilderHolds(start), Tip(FIRST, start));
    HoldingsReplaced(start, start + 100);
    TipSimulates(100000, 2, 1, 90000, start + 100);
  }

  lemma TwoAreBuilt(start: nat) returns (run: Run)
    ensures BuiltBy(TippingConfig(100000), BuilderHolds(start), [], TwoOffers(), run)
    ensures run.Ledger() == [Tip(FIRST, start), Tip(SECOND, start + 100)] && run.offers == TwoTips(start)
  {
    run := Run([], [], TwoTips(start));
    FirstOffered(start);
    SecondOffered(start);
    assert Processed(TippingConfig(100000), BuilderHolds(start), []) == [];
    assert Offered(TippingConfig(100000), BuilderHolds(start), run.FromBundles(), {}, TwoOffers(), run.offers);
    TakenOfTwo(run.offers);
  }

  lemma TwoTipsAdd(start: nat)
    ensures var l := [Tip(FIRST, start), Tip(SECOND, start + 100)];
            BlockValue(l) == 200 && Replay(BuilderHolds(start), l) == BuilderHolds(start + 200)
  {
    AppendTwo(BuilderHolds(start), Tip(FIRST, start), Tip(SECOND, start + 100));
    HoldingsReplaced(start, start + 100);
    HoldingsReplaced(start + 100, start + 200);
  }

  lemma SecondOverruns(l: seq<SimTx>, start: nat)
    requires l == [Tip(FIRST, start), Tip(SECOND, start + 100)]
    ensures !LimitsFit(TippingConfig(100000), l, 2)
  {
    AppendOne(map[], l[0]);
    PrefixTo(map[], l, [l[0]], 1);
    assert !LimitFits(TippingConfig(100000), l, 1);
  }

  /** Two mempool transactions that use 21000 gas each, with a gas limit of 90000 each, and bring the
      builder 100 each, whatever it holds. An attempt with a block gas limit of 100000 builds both
      and hands the block out with value 200; the payment of 200 goes through; and no node accepts
      the finished block. */
  lemma GasLimitsCanOverrun(start: nat, cancelled: nat -> bool) returns (run: Run)
    requires !cancelled(0) && !cancelled(1)
    ensures var cfg, w := TippingConfig(100000), BuilderHolds(start);
            && Attempted(cfg, w, [], TwoOffers(), cancelled, 0, run, Exhausted, Improved(200))
            && Payment(cfg, w, run.Ledger(), 200).Success?
            && var full := run.Ledger() + [Payment(cfg, w, run.Ledger(), 200).value];
               |full| == 3 && ExecuteBlock(cfg, w, Txs(full), 3) == None
  {
    var cfg, w := TippingConfig(100000), BuilderHolds(start);
    run := TwoAreBuilt(start);
    TwoTipsAdd(start);
    TransferSimulates(100000, 9, 200, start + 200);
    SecondOverruns(run.Ledger(), start);
    assert Uncancelled(cancelled, 1) && Uncancelled(cancelled, 2);
    FinishedBlockIsValidIff(cfg, w, [], TwoOffers(), run, 9, 200);
  }

  // ---------- refunds ----------

  const TIPPER: Tx := PlainTx(1, 0, 21000)

  /** One transaction, and 90 percent of what it brings is to be refunded to its sender. */
  const REFUNDED: RecoveredBundle := RecoveredBundle([TIPPER], [], Some(BundleRefund(90, None, None)))

  const ROOMY: BuildConfig := TippingConfig(30_000_000)

  function NoOffers(): PoolIterator {
    f => None
  }

  function Refund(start: nat): SimTx {
    Transferred(ROOMY, 7, 90, start + 100)
  }

  /** The bundle simulated without and with its refund. */
  function Due(start: nat): SimulatedBundle {
    SimulatedBundle(REFUNDED, [Tip(TIPPER, start)], BundleOutcome(None, Totals(21000, 0, 0, 100), 90))
  }

  function Paid(start: nat): SimulatedBundle {
    SimulatedBundle(REFUNDED, [Tip(TIPPER, start), Refund(start)], BundleOutcome(None, Totals(42000, 0, 0, 100), 90))
  }

  lemma TipperSimulates(start: nat)
    ensures SimulateTo(ROOMY, BuilderHolds(start), REFUNDED.txs, 1) == Success([Tip(TIPPER, start)])
  {
    var w, txs := BuilderHolds(start), REFUNDED.txs;
    var l := SimulateTo(ROOMY, w, txs, 0).value;
    assert SimulateTo(ROOMY, w, txs, 1) == Continue(ROOMY, w, l, txs[0]);
    assert Replay(w, l) == w && Seen(ROOMY, w, l) == start;
    TipSimulates(30_000_000, 1, 0, 21000, start);
    assert l + [Tip(TIPPER, start)] == [Tip(TIPPER, start)];
  }

  lemma RefundIsDue(start: nat)
    ensures NewSimulated(REFUNDED, [Tip(TIPPER, start)], 0) == Due(start)
  {
    AppendOne(map[], Tip(TIPPER, start));
    assert Allowed(REFUNDED, Tip(TIPPER, start));
  }

  lemma RefundSucceeds(start: nat)
    ensures SimulateRefund(ROOMY, BuilderHolds(start + 100), Due(start)) == Success(Some(Refund(start)))
    ensures Due(start).AddTx(Refund(start)) == Paid(start)
  {
    assert REFUNDED.RefundRecipient() == Some(7);
    TransferSimulates(30_000_000, 7, 90, start + 100);
    assert [Tip(TIPPER, start)] + [Refund(start)] == [Tip(TIPPER, start), Refund(start)];
  }

  lemma RefundedSimulates(start: nat)
    ensures Simulate(ROOMY, BuilderHolds(start), REFUNDED) == Success(Paid(start))
  {
    TipperSimulates(start);
    RefundIsDue(start);
    AppendOne(BuilderHolds(start), Tip(TIPPER, start));
    HoldingsReplaced(start, start + 100);
    RefundSucceeds(start);
  }

  lemma KeptOfOne(v: seq<Verdict>)
    requires |v| == 1 && v[0].Accepted?
    ensures Kept(v, 1) == v[0].sims
  {
  }

  lemma ProcessedOfOne(cfg: BuildConfig, w: World, bundles: seq<RecoveredBundle>, sb: SimulatedBundle)
    requires |bundles| == 1 && Simulate(cfg, w, bundles[0]) == Success(sb)
    ensures Processed(cfg, w, bundles) == [sb]
  {
    var none := TopOfBlock(cfg, w, bundles, 0);
    assert |none| == 0 && TopOfBlock(cfg, w, bundles, 1) == none + [sb];
    assert |[sb][..0]| == 0 && SortByMaxValue([sb]) == [sb];
  }

  lemma RefundedIsAccepted(start: nat, v: seq<Verdict>)
    requires v == [Accepted(Paid(start).sims)]
    ensures JudgedAt(ROOMY, BuilderHolds(start), [], [Paid(start)], v, 0)
  {
    RefundedSimulates(start);
    var l := [] + Kept(v, 0);
    assert Replay(BuilderHolds(start), l) == BuilderHolds(start);
  }

  lemma RefundedIsBuilt(start: nat) returns (run: Run)
    ensures BuiltBy(ROOMY, BuilderHolds(start), [REFUNDED], NoOffers(), run)
    ensures run.Ledger() == [Tip(TIPPER, start), Refund(start)] && run.offers == []
  {
    run := Run([Paid(start)], [Accepted(Paid(start).sims)], []);
    RefundedSimulates(start);
    ProcessedOfOne(ROOMY, BuilderHolds(start), [REFUNDED], Paid(start));
    RefundedIsAccepted(start, run.verdicts);
    KeptOfOne(run.verdicts);
  }

  /** A run whose one bundle brings the builder 100 and is refunded 90 is handed out with value 100,
      and the builder gains 10. */
  lemma RefundedValueIsNotGain(start: nat, cancelled: nat -> bool) returns (run: Run)
    ensures Attempted(ROOMY, BuilderHolds(start), [REFUNDED], NoOffers(), cancelled, 0, run, Exhausted, Improved(100))
    ensures run.Ledger() == [Tip(TIPPER, start), Refund(start)] && BlockValue(run.Ledger()) == 100
    ensures Replay(BuilderHolds(start), run.Ledger()) == BuilderHolds(start + 10)
  {
    run := RefundedIsBuilt(start);
    TipAndRefundAdd(start);
  }

  lemma TipAndRefundAdd(start: nat)
    ensures var l := [Tip(TIPPER, start), Refund(start)];
            BlockValue(l) == 100 && Replay(BuilderHolds(start), l) == BuilderHolds(start + 10)
  {
    AppendTwo(BuilderHolds(start), Tip(TIPPER, start), Refund(start));
    HoldingsReplaced(start, start + 100);
    HoldingsReplaced(start + 100, start + 10);
  }

  /** That block, bid for without profit and paid for, leaves the builder 90 poorer than it was. */
  lemma RefundMakesPoorer(start: nat, cancelled: nat -> bool, policy: Policy, info: Info) returns (run: Run)
    requires start >= 90 && policy.NoProfit? && info.timeLeft <= policy.offset && Offers(info, ROOMY, 100)
    ensures Attempted(ROOMY, BuilderHolds(start), [REFUNDED], NoOffers(), cancelled, 0, run, Exhausted, Improved(100))
    ensures policy.ComputeBid(info) == Some(100) && Payment(ROOMY, BuilderHolds(start), run.Ledger(), 100).Success?
    ensures FinalBalance(ROOMY, BuilderHolds(start), run.Ledger(), Payment(ROOMY, BuilderHolds(start), run.Ledger(), 100).value)
            == start - 90
  {
    run := RefundedValueIsNotGain(start, cancelled);
    TransferSimulates(30_000_000, 9, 100, start + 10);
    HoldingsReplaced(start + 10, start - 90);
  }

  // ---------- bids of 0 ----------

  /** As the EVM above, but the builder's transfers also cost a base fee of 1. */
  function LeanEvm(w: World, tx: Tx): Result<EvmResult, EvmError> {
    var before := Balance(w, 0);
    if tx.gasLimit < 21000 || (tx.signer == 0 && tx.value + 21000 > before) then Failure(InvalidTransaction)
    else Success(EvmResult(true, 21000, BuilderHolds(if tx.signer == 0 then before - tx.value - 21000 else before + 100)))
  }

  const LEAN: BuildConfig := BuildConfig(1, 1, 100000, 1, 0, 9, {}, LeanEvm, (nonce, recipient, amount) => 0)

  /** It pays the base fee and no tip. */
  const PAYER: Tx := Tx(1, 7, None, 0, 0, 21000, 1, Some(0), None)

  function OneOffer(): PoolIterator {
    f => if |f| == 0 then Some(PAYER) else None
  }

  lemma LeanIsBuilt(start: nat) returns (run: Run)
    ensures BuiltBy(LEAN, BuilderHolds(start), [], OneOffer(), run)
    ensures run.Ledger() == [Tip(PAYER, start)] && |run.offers| == 1
  {
    run := Run([], [], [Offer(PAYER, Included(Tip(PAYER, start)))]);
    assert SimulateTx(LEAN, BuilderHolds(start), start, PAYER) == Success(Tip(PAYER, start));
    assert OfferedAt(LEAN, BuilderHolds(start), [], {}, OneOffer(), run.offers, 0);
    assert Processed(LEAN, BuilderHolds(start), []) == [];
    assert Taken(run.offers, 1) == [Tip(PAYER, start)];
  }

  /** A block of value 100 at a base fee of 1 is worth less than the gas of paying for it. The policy
      without profit does not hold back but bids 0, and the builder loses what the gas costs beyond
      100, with no overstated value involved. */
  lemma ZeroBidCostsGas(start: nat, cancelled: nat -> bool, policy: Policy, info: Info) returns (run: Run)
    requires !cancelled(0)
    requires start >= 21000 && policy.NoProfit? && info.timeLeft <= policy.offset && Offers(info, LEAN, 100)
    ensures Attempted(LEAN, BuilderHolds(start), [], OneOffer(), cancelled, 0, run, Exhausted, Improved(100))
    ensures Balance(Replay(BuilderHolds(start), run.Ledger()), LEAN.coinbase) == start + 100
    ensures policy.ComputeBid(info) == Some(0) && Payment(LEAN, BuilderHolds(start), run.Ledger(), 0).Success?
    ensures FinalBalance(LEAN, BuilderHolds(start), run.Ledger(), Payment(LEAN, BuilderHolds(start), run.Ledger(), 0).value)
            == start + 100 - 21000
  {
    run := LeanIsBuilt(start);
    AppendOne(BuilderHolds(start), Tip(PAYER, start));
    HoldingsReplaced(start, start + 100);
    HoldingsReplaced(start + 100, start + 100 - 21000);
  }
}
