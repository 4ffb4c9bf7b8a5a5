/** What simulating a transaction, a bundle and a refund must yield, stated by running them
    directly on a state. */
module Simulation {
  import opened Wrappers
  import opened Words
  import opened Evm
  import opened Bundles
  import opened Ledger

  datatype ExecError =
    | MaxGasExceeded
    | MaxBlobGasExceeded
    | PayloadBuilder(error: EvmError)
    | BundleReverted(index: nat)
    | OfacAddressDetected
    | BuilderRefundTx

  /** The record of one execution. `seen` is the coinbase balance read before it; the balance
      after it is the one among the touched accounts, 0 when the coinbase is not touched. */
  function Record(cfg: BuildConfig, tx: Tx, seen: nat, r: EvmResult): SimTx {
    var fees := tx.EffectiveTip(cfg.baseFee).GetOr(0) * r.gasUsed;
    var diff := SaturatingSub(Balance(r.state, cfg.coinbase), seen);
    SimTx(tx, r.success, r.state, r.gasUsed, tx.blobGas.GetOr(0), fees, SaturatingSub(diff, fees))
  }

  function SimulateTx(cfg: BuildConfig, w: World, seen: nat, tx: Tx): Result<SimTx, EvmError> {
    match cfg.transact(w, tx)
    case Failure(e) => Failure(e)
    case Success(r) => Success(Record(cfg, tx, seen, r))
  }

  /** Coinbase balance the next transaction of a bundle is compared with. */
  function Seen(cfg: BuildConfig, w: World, l: seq<SimTx>): nat {
    if |l| == 0 then Balance(w, cfg.coinbase) else Balance(l[|l| - 1].state, cfg.coinbase)
  }

  /** The next transaction behind `l`: an EVM error or a blacklisted touched account ends the
      simulation. */
  function Continue(cfg: BuildConfig, w: World, l: seq<SimTx>, tx: Tx): Result<seq<SimTx>, ExecError> {
    match SimulateTx(cfg, Replay(w, l), Seen(cfg, w, l), tx)
    case Failure(e) => Failure(PayloadBuilder(e))
    case Success(s) => if cfg.Touches(s.state) then Failure(OfacAddressDetected) else Success(l + [s])
  }

  /** The first `n` transactions executed directly on `w`. */
  function SimulateTo(cfg: BuildConfig, w: World, txs: seq<Tx>, n: nat): (r: Result<seq<SimTx>, ExecError>)
    requires n <= |txs|
    ensures r.Success? ==> |r.value| == n
    decreases n
  {
    if n == 0 then Success([])
    else
      var l :- SimulateTo(cfg, w, txs, n - 1);
      Continue(cfg, w, l, txs[n - 1])
  }

  /** An error among the first `n` transactions is the error of the whole. */
  lemma {:induction false} FailureSticks(cfg: BuildConfig, w: World, txs: seq<Tx>, n: nat, m: nat)
    requires n <= m <= |txs| && SimulateTo(cfg, w, txs, n).Failure?
    ensures SimulateTo(cfg, w, txs, m) == SimulateTo(cfg, w, txs, n)
    decreases m
  {
    if n < m {
      FailureSticks(cfg, w, txs, n, m - 1);
    }
  }

  lemma SimulateTxProduces(cfg: BuildConfig, w: World, seen: nat, tx: Tx)
    requires SimulateTx(cfg, w, seen, tx).Success? && seen <= Balance(w, cfg.coinbase)
    ensures Produced(cfg, w, SimulateTx(cfg, w, seen, tx).value)
  {
  }

  lemma GenuineAppend(cfg: BuildConfig, w: World, l: seq<SimTx>, s: SimTx)
    requires Genuine(cfg, w, l) && Produced(cfg, Replay(w, l), s)
    ensures Genuine(cfg, w, l + [s])
  {
    forall i | 0 <= i < |l + [s]|
      ensures ProducedAt(cfg, w, l + [s], i)
    {
      PrefixTo(w, l, l + [s], i);
      if i < |l| {
        assert ProducedAt(cfg, w, l, i);
      }
    }
  }

  lemma GenuineStep(cfg: BuildConfig, w: World, l: seq<SimTx>, s: SimTx)
    requires Genuine(cfg, w, l) && Produced(cfg, Replay(w, l), s)
    ensures Genuine(cfg, w, l + [s]) && Txs(l + [s]) == Txs(l) + [s.tx]
    ensures Seen(cfg, w, l + [s]) <= Balance(Replay(w, l + [s]), cfg.coinbase)
  {
    GenuineAppend(cfg, w, l, s);
    Append(w, l, s);
  }

  lemma {:induction false} SimulateToGenuine(cfg: BuildConfig, w: World, txs: seq<Tx>, n: nat)
    requires n <= |txs| && SimulateTo(cfg, w, txs, n).Success?
    ensures var l := SimulateTo(cfg, w, txs, n).value;
            Txs(l) == txs[..n] && Genuine(cfg, w, l) && Seen(cfg, w, l) <= Balance(Replay(w, l), cfg.coinbase)
    decreases n
  {
    if n > 0 {
      SimulateToGenuine(cfg, w, txs, n - 1);
      var l := SimulateTo(cfg, w, txs, n - 1).value;
      SimulateTxProduces(cfg, Replay(w, l), Seen(cfg, w, l), txs[n - 1]);
      GenuineStep(cfg, w, l, SimulateTx(cfg, Replay(w, l), Seen(cfg, w, l), txs[n - 1]).value);
      assert txs[..n] == txs[..n - 1] + [txs[n - 1]];
    }
  }

  lemma {:induction false} SimulatePrefix(cfg: BuildConfig, w: World, txs: seq<Tx>, i: nat, n: nat)
    requires i <= n <= |txs| && SimulateTo(cfg, w, txs, n).Success?
    ensures SimulateTo(cfg, w, txs, i).Success?
    ensures SimulateTo(cfg, w, txs, i).value == SimulateTo(cfg, w, txs, n).value[..i]
    decreases n
  {
    if i < n {
      SimulatePrefix(cfg, w, txs, i, n - 1);
    }
  }

  lemma SimulatedStep(cfg: BuildConfig, w: World, txs: seq<Tx>, i: nat)
    requires i < |txs| && SimulateTo(cfg, w, txs, i + 1).Success?
    ensures SimulateTo(cfg, w, txs, i).Success?
    ensures var before := SimulateTo(cfg, w, txs, i).value;
            var s := SimulateTx(cfg, Replay(w, before), Seen(cfg, w, before), txs[i]);
            s.Success? && SimulateTo(cfg, w, txs, i + 1).value == before + [s.value]
  {
  }

  lemma SimulatedAt(cfg: BuildConfig, w: World, txs: seq<Tx>, i: nat)
    requires i < |txs| && SimulateTo(cfg, w, txs, |txs|).Success?
    ensures var l := SimulateTo(cfg, w, txs, |txs|).value;
            && SimulateTx(cfg, ReplayTo(w, l, i), Seen(cfg, w, l[..i]), txs[i]) == Success(l[i])
  {
    var l := SimulateTo(cfg, w, txs, |txs|).value;
    SimulatePrefix(cfg, w, txs, i, |txs|);
    SimulatePrefix(cfg, w, txs, i + 1, |txs|);
    SimulatedStep(cfg, w, txs, i);
    PrefixTo(w, l[..i], l, i);
    assert l[i] == l[..i + 1][i];
  }

  // ---------- EVM errors ----------

  /** The state the first `n` transactions leave; None if one of them fails in the EVM or touches
      a blacklisted account. */
  function StateAfter(cfg: BuildConfig, w: World, txs: seq<Tx>, n: nat): Option<World>
    requires n <= |txs|
    decreases n
  {
    if n == 0 then Some(w)
    else
      match StateAfter(cfg, w, txs, n - 1)
      case None => None
      case Some(u) =>
        var r := cfg.transact(u, txs[n - 1]);
        if r.Failure? || cfg.Touches(r.value.state) then None else Some(u + r.value.state)
  }

  /** Transaction k is reached and the EVM rejects it. */
  predicate ErrsAt(cfg: BuildConfig, w: World, txs: seq<Tx>, k: nat) {
    k < |txs| && StateAfter(cfg, w, txs, k).Some? && cfg.transact(StateAfter(cfg, w, txs, k).value, txs[k]).Failure?
  }

  /** The simulation goes on to where the state after it says. */
  ghost predicate LeadsTo(w: World, r: Result<seq<SimTx>, ExecError>, u: Option<World>) {
    (r.Success? <==> u.Some?) && (r.Success? ==> Replay(w, r.value) == u.value)
  }

  lemma ContinueToState(cfg: BuildConfig, w: World, l: seq<SimTx>, tx: Tx)
    ensures var r := cfg.transact(Replay(w, l), tx);
            LeadsTo(w, Continue(cfg, w, l, tx),
                    if r.Failure? || cfg.Touches(r.value.state) then None else Some(Replay(w, l) + r.value.state))
  {
    var s := SimulateTx(cfg, Replay(w, l), Seen(cfg, w, l), tx);
    if s.Success? {
      Append(w, l, s.value);
    }
  }

  lemma {:induction false} SimulateToState(cfg: BuildConfig, w: World, txs: seq<Tx>, n: nat)
    requires n <= |txs|
    ensures LeadsTo(w, SimulateTo(cfg, w, txs, n), StateAfter(cfg, w, txs, n))
    decreases n
  {
    if n > 0 {
      SimulateToState(cfg, w, txs, n - 1);
      var before := SimulateTo(cfg, w, txs, n - 1);
      if before.Success? {
        ContinueToState(cfg, w, before.value, txs[n - 1]);
      }
    }
  }

  lemma {:induction false} ErrorIsSomewhere(cfg: BuildConfig, w: World, txs: seq<Tx>, n: nat) returns (k: nat)
    requires n <= |txs| && SimulateTo(cfg, w, txs, n).Failure? && SimulateTo(cfg, w, txs, n).error.PayloadBuilder?
    ensures ErrsAt(cfg, w, txs, k)
    decreases n
  {
    if SimulateTo(cfg, w, txs, n - 1).Failure? {
      k := ErrorIsSomewhere(cfg, w, txs, n - 1);
    } else {
      k := n - 1;
      SimulateToState(cfg, w, txs, k);
    }
  }

  lemma ErrEndsSimulation(cfg: BuildConfig, w: World, txs: seq<Tx>, k: nat)
    requires k < |txs| && SimulateTo(cfg, w, txs, k).Success?
    requires cfg.transact(Replay(w, SimulateTo(cfg, w, txs, k).value), txs[k]).Failure?
    ensures var r := SimulateTo(cfg, w, txs, k + 1); r.Failure? && r.error.PayloadBuilder?
  {
  }

  lemma SimulationErrsAt(cfg: BuildConfig, w: World, txs: seq<Tx>, k: nat)
    requires ErrsAt(cfg, w, txs, k)
    ensures var r := SimulateTo(cfg, w, txs, |txs|); r.Failure? && r.error.PayloadBuilder?
  {
    SimulateToState(cfg, w, txs, k);
    ErrEndsSimulation(cfg, w, txs, k);
    FailureSticks(cfg, w, txs, k + 1, |txs|);
  }

  /** A refund that fails is reported as such, not as an EVM error. */
  lemma EvmErrorIsOfTxs(cfg: BuildConfig, w: World, bundle: RecoveredBundle)
    ensures var r, own := Simulate(cfg, w, bundle), SimulateTo(cfg, w, bundle.txs, |bundle.txs|);
            r.Failure? && r.error.PayloadBuilder? <==> own.Failure? && own.error.PayloadBuilder?
  {
  }

  /** Simulating a bundle ends in an EVM error exactly when the EVM rejects one of its own
      transactions on the state the ones before left, with no blacklisted account touched until
      then. */
  lemma SimulateErrsIff(cfg: BuildConfig, w: World, bundle: RecoveredBundle)
    ensures Simulate(cfg, w, bundle).Failure? && Simulate(cfg, w, bundle).error.PayloadBuilder? <==>
            exists k: nat :: ErrsAt(cfg, w, bundle.txs, k)
  {
    var own := SimulateTo(cfg, w, bundle.txs, |bundle.txs|);
    EvmErrorIsOfTxs(cfg, w, bundle);
    if own.Failure? && own.error.PayloadBuilder? {
      var k := ErrorIsSomewhere(cfg, w, bundle.txs, |bundle.txs|);
    }
    forall k: nat | ErrsAt(cfg, w, bundle.txs, k)
      ensures own.Failure? && own.error.PayloadBuilder?
    {
      SimulationErrsAt(cfg, w, bundle.txs, k);
    }
  }

  // ---------- bundle outcomes ----------

  datatype BundleOutcome = BundleOutcome(reverted: Option<nat>, totals: Totals, refund: nat) {
    function TotalValue(): nat {
      SaturatingSub(SaturatingAdd(totals.fees, totals.coinbase), refund)
    }
  }

  predicate Allowed(bundle: RecoveredBundle, s: SimTx) {
    s.success || s.tx.hash in bundle.revertingTxHashes
  }

  predicate IsFirstRevert(bundle: RecoveredBundle, sims: seq<SimTx>, i: nat) {
    && i < |sims| && !Allowed(bundle, sims[i])
    && forall j :: 0 <= j < i ==> Allowed(bundle, sims[j])
  }

  predicate NoneReverted(bundle: RecoveredBundle, sims: seq<SimTx>) {
    forall j :: 0 <= j < |sims| ==> Allowed(bundle, sims[j])
  }

  /** `reverted` is the first disallowed failure, and the totals stop before it. */
  ghost predicate Summarizes(o: BundleOutcome, bundle: RecoveredBundle, sims: seq<SimTx>) {
    match o.reverted
    case None => NoneReverted(bundle, sims) && o.totals == Total(sims)
    case Some(i) => IsFirstRevert(bundle, sims, i) && o.totals == TotalTo(sims, i)
  }

  function FirstRevert(bundle: RecoveredBundle, sims: seq<SimTx>, from: nat): (r: Option<nat>)
    requires from <= |sims| && forall j :: 0 <= j < from ==> Allowed(bundle, sims[j])
    ensures r.None? ==> NoneReverted(bundle, sims)
    ensures r.Some? ==> IsFirstRevert(bundle, sims, r.value)
    decreases |sims| - from
  {
    if from == |sims| then None
    else if !Allowed(bundle, sims[from]) then Some(from)
    else FirstRevert(bundle, sims, from + 1)
  }

  function OutcomeOf(bundle: RecoveredBundle, sims: seq<SimTx>): (o: BundleOutcome)
    ensures Summarizes(o, bundle, sims) && o.refund == 0
  {
    var reverted := FirstRevert(bundle, sims, 0);
    BundleOutcome(reverted, TotalTo(sims, if reverted.Some? then reverted.value else |sims|), 0)
  }

  /** The aggregation loop over a bundle's simulated transactions. */
  method FromTxs(bundle: RecoveredBundle, sims: seq<SimTx>) returns (o: BundleOutcome)
    ensures Summarizes(o, bundle, sims)
    ensures o == OutcomeOf(bundle, sims)
  {
    var reverted: Option<nat> := None;
    var totals := Totals(0, 0, 0, 0);
    var i := 0;
    while i < |sims|
      invariant 0 <= i <= |sims| && totals == TotalTo(sims, i) && reverted == None
      invariant forall j :: 0 <= j < i ==> Allowed(bundle, sims[j])
    {
      if !sims[i].success && sims[i].tx.hash !in bundle.revertingTxHashes {
        reverted := Some(i);
        break;
      }
      totals := totals.Plus(sims[i]);
      i := i + 1;
    }
    o := BundleOutcome(reverted, totals, 0);
  }

  datatype SimulatedBundle = SimulatedBundle(bundle: RecoveredBundle, sims: seq<SimTx>, outcome: BundleOutcome) {
    function AddTx(s: SimTx): SimulatedBundle {
      SimulatedBundle(bundle, sims + [s], outcome.(totals := outcome.totals.Plus(s)))
    }

    function Value(): nat {
      outcome.TotalValue()
    }

    /** The transfers appended after the bundle's own transactions. */
    function Refunds(): seq<Tx> {
      if |bundle.txs| <= |sims| then Txs(sims)[|bundle.txs|..] else []
    }
  }

  function RefundOf(bundle: RecoveredBundle, sims: seq<SimTx>, baseFee: nat): nat {
    var index := bundle.RefundIndex();
    if bundle.refund.None? || index.None? || index.value >= |sims| then 0
    else bundle.refund.value.Amount(sims[index.value].fees, sims[index.value].coinbaseTransfer, baseFee)
  }

  function NewSimulated(bundle: RecoveredBundle, sims: seq<SimTx>, baseFee: nat): SimulatedBundle {
    SimulatedBundle(bundle, sims, OutcomeOf(bundle, sims).(refund := RefundOf(bundle, sims, baseFee)))
  }

  /** The builder's transfer to the refund recipient on the state `w` the bundle leaves, when
      there is something to refund and somebody to refund it to. It must not fail or revert. */
  function SimulateRefund(cfg: BuildConfig, w: World, sb: SimulatedBundle): Result<Option<SimTx>, ExecError> {
    var recipient := sb.bundle.RefundRecipient();
    if sb.outcome.refund == 0 || recipient.None? then Success(None)
    else
      var tx := cfg.TransferTx(w, recipient.value, sb.outcome.refund);
      match SimulateTx(cfg, w, Balance(w, cfg.coinbase), tx)
      case Failure(_) => Failure(BuilderRefundTx)
      case Success(s) => if s.success then Success(Some(s)) else Failure(BuilderRefundTx)
  }

  /** A bundle and its refund, executed directly on `w`. */
  function Simulate(cfg: BuildConfig, w: World, bundle: RecoveredBundle): Result<SimulatedBundle, ExecError> {
    var l :- SimulateTo(cfg, w, bundle.txs, |bundle.txs|);
    var sb := NewSimulated(bundle, l, cfg.baseFee);
    var refund :- SimulateRefund(cfg, Replay(w, l), sb);
    Success(if refund.None? then sb else sb.AddTx(refund.value))
  }

  /** What a successful simulation is: the bundle's whole transaction list, the refund transfer
      behind it exactly if a refund is due and somebody is there to receive it, every transaction
      genuine, and totals over all of them unless the bundle reverted. The refund is the one
      computed from the simulated transactions. */
  ghost predicate Faithful(cfg: BuildConfig, w: World, sb: SimulatedBundle) {
    && Genuine(cfg, w, sb.sims)
    && Txs(sb.sims) == sb.bundle.txs + sb.Refunds()
    && |sb.Refunds()| <= 1
    && sb.outcome.refund == RefundOf(sb.bundle, sb.sims[..|sb.bundle.txs|], cfg.baseFee)
    && (sb.Refunds() != [] <==> sb.outcome.refund > 0 && sb.bundle.RefundRecipient().Some?)
    && (sb.Refunds() != [] ==> PaysRefund(cfg, w, sb))
    && (sb.outcome.reverted.None? ==> sb.outcome.totals == Total(sb.sims))
  }

  ghost predicate PaysRefund(cfg: BuildConfig, w: World, sb: SimulatedBundle) {
    var n := |sb.bundle.txs|;
    && |sb.sims| == n + 1 && sb.sims[n].success
    && sb.bundle.RefundRecipient().Some?
    && cfg.IsTransfer(ReplayTo(w, sb.sims, n), sb.sims[n].tx, sb.bundle.RefundRecipient().value, sb.outcome.refund)
  }

  lemma RefundIsPaid(cfg: BuildConfig, w: World, sb: SimulatedBundle)
    requires Genuine(cfg, w, sb.sims) && Txs(sb.sims) == sb.bundle.txs
    requires sb.outcome.refund == RefundOf(sb.bundle, sb.sims, cfg.baseFee)
    requires sb.outcome.reverted.None? ==> sb.outcome.totals == Total(sb.sims)
    requires SimulateRefund(cfg, Replay(w, sb.sims), sb).Success?
    requires SimulateRefund(cfg, Replay(w, sb.sims), sb).value.Some?
    ensures Faithful(cfg, w, sb.AddTx(SimulateRefund(cfg, Replay(w, sb.sims), sb).value.value))
  {
    var w', l := Replay(w, sb.sims), sb.sims;
    var s := SimulateRefund(cfg, w', sb).value.value;
    SimulateTxProduces(cfg, w', Balance(w', cfg.coinbase),
                       cfg.TransferTx(w', sb.bundle.RefundRecipient().value, sb.outcome.refund));
    GenuineAppend(cfg, w, l, s);
    Append(w, l, s);
    PrefixTo(w, l, l + [s], |l|);
    assert sb.AddTx(s).Refunds() == [s.tx];
    assert (l + [s])[..|l|] == l;
  }

  lemma SimulateIsFaithful(cfg: BuildConfig, w: World, bundle: RecoveredBundle)
    requires Simulate(cfg, w, bundle).Success?
    ensures Simulate(cfg, w, bundle).value.bundle == bundle
    ensures Faithful(cfg, w, Simulate(cfg, w, bundle).value)
  {
    var n := |bundle.txs|;
    SimulateToGenuine(cfg, w, bundle.txs, n);
    var l := SimulateTo(cfg, w, bundle.txs, n).value;
    assert bundle.txs[..n] == bundle.txs;
    var sb := NewSimulated(bundle, l, cfg.baseFee);
    if SimulateRefund(cfg, Replay(w, l), sb).value.Some? {
      RefundIsPaid(cfg, w, sb);
    } else {
      assert sb.Refunds() == [];
      assert l[..n] == l;
    }
  }

  lemma {:induction false} TotalAtLeastEach(l: seq<SimTx>, i: nat, n: nat)
    requires i < n <= |l|
    ensures TotalTo(l, n).fees >= l[i].fees && TotalTo(l, n).coinbase >= l[i].coinbaseTransfer
  {
    if i < n - 1 {
      TotalAtLeastEach(l, i, n - 1);
    }
  }

  /** A bundle that pays a refund and does not revert still brings the builder what the
      transfer costs: its value subtracts the refund without saturating. */
  lemma RefundedBundleKeepsTransferCost(cfg: BuildConfig, w: World, bundle: RecoveredBundle)
    requires Simulate(cfg, w, bundle).Success?
    requires var o := Simulate(cfg, w, bundle).value.outcome; o.reverted.None? && o.refund > 0
    requires bundle.refund.Some? ==> bundle.refund.value.percent <= 100
    ensures var o := Simulate(cfg, w, bundle).value.outcome;
            && o.refund + TransferCost(cfg.baseFee) <= o.totals.fees + o.totals.coinbase
            && TransferCost(cfg.baseFee) <= o.TotalValue()
            && (o.totals.fees + o.totals.coinbase < U256_SIZE ==>
                o.TotalValue() + o.refund == o.totals.fees + o.totals.coinbase)
  {
    var l := SimulateTo(cfg, w, bundle.txs, |bundle.txs|).value;
    var i := bundle.RefundIndex().value;
    RefundLeavesTransferCost(bundle.refund.value, l[i].fees, l[i].coinbaseTransfer, cfg.baseFee);
    TotalAtLeastEach(l, i, |l|);
    ShareIsAtMostWhole(
      SaturatingSub(SaturatingAdd(l[i].fees, l[i].coinbaseTransfer), TransferCost(cfg.baseFee)),
      bundle.refund.value.percent);
  }
}
