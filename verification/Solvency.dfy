/** What paying the bid leaves the builder with. */
module Solvency {
  import opened Wrappers
  import opened Words
  import opened Evm
  import opened Bundles
  import opened Ledger
  import opened Simulation
  import opened BuildStates
  import opened BundlesStrat
  import opened BlockTheorems
  import opened Policy

  /** What the build makes of the transfer of `amount` to the proposer at its end. */
  function Payment(cfg: BuildConfig, w: World, l: seq<SimTx>, amount: nat): Result<SimTx, ExecError> {
    ExecTx(cfg, Replay(w, l), Total(l), cfg.TransferTx(Replay(w, l), cfg.feeRecipient, amount), true)
  }

  /** The builder's account when the block with the payment is finished. */
  function FinalBalance(cfg: BuildConfig, w: World, l: seq<SimTx>, payment: SimTx): nat {
    Balance(Replay(w, l) + payment.state, cfg.coinbase)
  }

  /** A transfer takes its amount and the base fee of the gas it used from the builder's account. */
  predicate TakesAmountAndGas(cfg: BuildConfig, w: World, l: seq<SimTx>, payment: SimTx, amount: nat) {
    FinalBalance(cfg, w, l, payment) == Balance(Replay(w, l), cfg.coinbase) - amount - cfg.baseFee * payment.gasUsed
  }

  /** By how much the block value of a ledger overstates the builder's gain. */
  function Overstated(cfg: BuildConfig, w: World, l: seq<SimTx>): int {
    OvercountTo(cfg, w, l, |l|)
  }

  /** The bidder knows this build as its best block. */
  predicate Offers(info: Info, cfg: BuildConfig, value: U256) {
    && info.bestBlock.Some? && info.bestBlockValue == value
    && info.bestBlock.value.value == value && info.bestBlock.value.baseFee == cfg.baseFee
  }

  lemma WrappedIsAtMost(sum: nat)
    ensures Wrapped(sum) <= sum
  {
  }

  lemma GasCostIsReserved(baseFee: nat, gasUsed: nat)
    requires gasUsed <= MAX_BUILDER_TRANSFER_GAS_LIMIT
    ensures baseFee * gasUsed <= baseFee * MAX_BUILDER_TRANSFER_GAS_LIMIT
  {
    assert baseFee * MAX_BUILDER_TRANSFER_GAS_LIMIT
        == baseFee * gasUsed + baseFee * (MAX_BUILDER_TRANSFER_GAS_LIMIT - gasUsed);
  }

  /** After every improving attempt whose finished block pays the bid without profit, the builder
      holds what it held before plus block value, less the overstatement, the bid and the gas of the
      payment. Up to the overstatement it is no poorer exactly when block value covers that gas;
      it surely does when it covers the reserve, below which the policy still bids 0. */
  lemma NoProfitIsSolventIff(cfg: BuildConfig, w: World, bundles: seq<RecoveredBundle>, pool: PoolIterator, cancelled: nat -> bool,
                             best: U256, run: Run, end: MempoolEnd, value: U256, policy: Policy, info: Info)
    requires Attempted(cfg, w, bundles, pool, cancelled, best, run, end, Improved(value))
    requires cfg.GasBounded() && policy.NoProfit? && Offers(info, cfg, value)
    requires policy.ComputeBid(info).Some?
    requires var l, bid := run.Ledger(), policy.ComputeBid(info).value;
             Payment(cfg, w, l, bid).Success? && TakesAmountAndGas(cfg, w, l, Payment(cfg, w, l, bid).value, bid)
    ensures var l, bid := run.Ledger(), policy.ComputeBid(info).value;
            var payment := Payment(cfg, w, l, bid).value;
            var final, before := FinalBalance(cfg, w, l, payment), Balance(w, cfg.coinbase);
            && Overstated(cfg, w, l) >= 0
            && final == before + BlockValue(l) - Overstated(cfg, w, l) - bid - cfg.baseFee * payment.gasUsed
            && (final + Overstated(cfg, w, l) >= before <==> cfg.baseFee * payment.gasUsed <= BlockValue(l))
            && (value >= cfg.baseFee * MAX_BUILDER_TRANSFER_GAS_LIMIT ==> final + Overstated(cfg, w, l) >= before)
  {
    var l, bid := run.Ledger(), policy.ComputeBid(info).value;
    RunIsSound(cfg, w, bundles, pool, run);
    ValueIsGainPlusOvercount(cfg, w, l, |l|);
    OvercountZeroIffAllExact(cfg, w, l, |l|);
    WrappedIsAtMost(BlockValue(l));
    var tx := cfg.TransferTx(Replay(w, l), cfg.feeRecipient, bid);
    assert cfg.transact(Replay(w, l), tx).value.gasUsed <= tx.gasLimit;
    GasCostIsReserved(cfg.baseFee, Payment(cfg, w, l, bid).value.gasUsed);
  }

  // ---------- who is paid ----------

  lemma TransferFollows(cfg: BuildConfig, w: World, recipient: Address, amount: nat)
    ensures cfg.IsTransfer(w, cfg.TransferTx(w, recipient, amount), recipient, amount)
  {
  }

  /** With an EVM that carries out plain transfers, the payment behind every run succeeds if the
      builder can pay the bid and the gas, and the proposer's fee recipient then holds the bid more. */
  lemma PaymentArrives(cfg: BuildConfig, w: World, bundles: seq<RecoveredBundle>, pool: PoolIterator, run: Run, bid: nat)
    requires BuiltBy(cfg, w, bundles, pool, run) && cfg.MovesValue() && cfg.AcceptsTransfers()
    requires var u := Replay(w, run.Ledger());
             && cfg.feeRecipient != cfg.coinbase && !HasCode(u, cfg.feeRecipient)
             && Balance(u, cfg.coinbase) >= bid + 32000 * cfg.baseFee
    ensures var l := run.Ledger();
            var u, payment := Replay(w, l), Payment(cfg, w, l, bid);
            && payment.Success? && payment.value.success
            && cfg.IsTransfer(u, payment.value.tx, cfg.feeRecipient, bid)
            && Replay(w, l + [payment.value]) == u + payment.value.state
            && Balance(u + payment.value.state, cfg.feeRecipient) == Balance(u, cfg.feeRecipient) + bid
  {
    var l := run.Ledger();
    var u := Replay(w, l);
    var tx := cfg.TransferTx(u, cfg.feeRecipient, bid);
    TransferFollows(cfg, u, cfg.feeRecipient, bid);
    assert cfg.AcceptsTransferAt(u, tx);
    assert cfg.MovesValueAt(u, tx);
    Append(w, l, Payment(cfg, w, l, bid).value);
  }

  /** Bundle n's simulation at its turn, faithful on the state the bundles before it left. */
  lemma TurnIsFaithful(cfg: BuildConfig, w: World, processed: seq<SimulatedBundle>, v: seq<Verdict>, n: nat)
    returns (x: SimulatedBundle)
    requires Selected(cfg, w, [], processed, v) && n < |v| && v[n].Accepted?
    ensures x.bundle == processed[n].bundle && x.sims == v[n].sims && Faithful(cfg, Replay(w, Kept(v, n)), x)
  {
    assert JudgedAt(cfg, w, [], processed, v, n);
    assert [] + Kept(v, n) == Kept(v, n);
    x := AcceptedIsExecuted(cfg, w, Kept(v, n), KeptHashes(processed, v, n), processed[n], v[n]);
    SimulateIsFaithful(cfg, Replay(w, Kept(v, n)), processed[n].bundle);
  }

  lemma BundleInBlock(run: Run, n: nat)
    requires n < |run.verdicts| && run.verdicts[n].Accepted?
    ensures Kept(run.verdicts, n) + run.verdicts[n].sims <= run.Ledger()
  {
    KeptExtends(run.verdicts, n + 1, |run.verdicts|);
  }

  /** The state before transaction k of bundle n, in the block and in the bundle's simulation. */
  lemma StateInBlock(w: World, run: Run, n: nat, k: nat)
    requires n < |run.verdicts| && run.verdicts[n].Accepted? && k < |run.verdicts[n].sims|
    ensures var i := |Kept(run.verdicts, n)| + k;
            && i < |run.Ledger()| && run.Ledger()[i] == run.verdicts[n].sims[k]
            && ReplayTo(w, run.Ledger(), i) == ReplayTo(Replay(w, Kept(run.verdicts, n)), run.verdicts[n].sims, k)
  {
    var v, l := run.verdicts, run.Ledger();
    var before, sims := Kept(v, n), v[n].sims;
    var i := |before| + k;
    BundleInBlock(run, n);
    assert l[i] == (before + sims)[i];
    assert l[..i] == (before + sims)[..i];
    PrefixTo(w, before + sims, l, i);
    ReplayConcatTo(w, before, sims, k);
  }

  /** The refund of a bundle is that of the one of its transactions that counts: the one at the index
      asked for, or the last. Without it, or without a refund asked for, it is 0. */
  lemma RefundIsOfIndexed(bundle: RecoveredBundle, own: seq<SimTx>, baseFee: nat)
    requires |own| == |bundle.txs|
    ensures bundle.refund.None? || |own| == 0 ==> RefundOf(bundle, own, baseFee) == 0
    ensures bundle.refund.Some? && |own| > 0 ==>
      var index := if bundle.refund.value.index.Some? then bundle.refund.value.index.value else |own| - 1;
      RefundOf(bundle, own, baseFee) ==
      if index < |own| then bundle.refund.value.Amount(own[index].fees, own[index].coinbaseTransfer, baseFee) else 0
  {
  }

  /** With an EVM that carries out plain transfers, every committed refund brings the refund
      recipient, if it is not the builder and has no code, the amount computed from the bundle's
      transactions. */
  lemma RefundArrives(cfg: BuildConfig, w: World, bundles: seq<RecoveredBundle>, pool: PoolIterator, run: Run, n: nat)
    returns (i: nat)
    requires BuiltBy(cfg, w, bundles, pool, run) && cfg.MovesValue()
    requires n < |run.verdicts| && |RefundsBehind(run.processed[n], run.verdicts[n])| == 1
    ensures var bundle := run.processed[n].bundle;
            && i == |Kept(run.verdicts, n)| + |bundle.txs| < |run.Ledger()|
            && |bundle.txs| < |run.verdicts[n].sims| && bundle.RefundRecipient().Some?
            && var l, own, recipient := run.Ledger(), run.verdicts[n].sims[..|bundle.txs|], bundle.RefundRecipient().value;
               var refund, u := RefundOf(bundle, own, cfg.baseFee), ReplayTo(w, l, i);
               && refund > 0 && l[i].success && cfg.IsTransfer(u, l[i].tx, recipient, refund)
               && (recipient != cfg.coinbase && !HasCode(u, recipient) ==>
                     Balance(ReplayTo(w, l, i + 1), recipient) == Balance(u, recipient) + refund)
  {
    var bundle, l := run.processed[n].bundle, run.Ledger();
    var x := TurnIsFaithful(cfg, w, run.processed, run.verdicts, n);
    i := |Kept(run.verdicts, n)| + |bundle.txs|;
    StateInBlock(w, run, n, |bundle.txs|);
    RunIsSound(cfg, w, bundles, pool, run);
    assert ProducedAt(cfg, w, l, i);
    assert cfg.MovesValueAt(ReplayTo(w, l, i), l[i].tx);
  }
}
