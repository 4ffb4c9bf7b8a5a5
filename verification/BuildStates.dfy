/** The state of one build: what has been committed, and the operations that simulate,
    verify and commit transactions and bundles. */
module BuildStates {
  import opened Wrappers
  import opened Words
  import opened Evm
  import opened Bundles
  import opened Ledger
  import opened Simulation

  /** Room left in the block, with the builder's own transfer kept back. */
  function VerifyRoom(cfg: BuildConfig, t: Totals, gas: nat, blobGas: nat): Option<ExecError> {
    if t.gas + gas + MAX_BUILDER_TRANSFER_GAS_LIMIT > cfg.blockGasLimit then Some(MaxGasExceeded)
    else if t.blobGas + blobGas > MAX_DATA_GAS_PER_BLOCK then Some(MaxBlobGasExceeded)
    else None
  }

  function VerifyBundle(cfg: BuildConfig, t: Totals, o: BundleOutcome): Option<ExecError> {
    if o.reverted.Some? then Some(BundleReverted(o.reverted.value))
    else VerifyRoom(cfg, t, o.totals.gas, o.totals.blobGas)
  }

  /** The outcome of executing a bundle on state `w` behind transactions that add up to `t`. */
  function ExecBundle(cfg: BuildConfig, w: World, t: Totals, bundle: RecoveredBundle): Result<SimulatedBundle, ExecError> {
    var sb :- Simulate(cfg, w, bundle);
    var problem := VerifyBundle(cfg, t, sb.outcome);
    if problem.Some? then Failure(problem.value) else Success(sb)
  }

  function ExecTx(cfg: BuildConfig, w: World, t: Totals, tx: Tx, skipVerify: bool): Result<SimTx, ExecError> {
    match SimulateTx(cfg, w, Balance(w, cfg.coinbase), tx)
    case Failure(e) => Failure(PayloadBuilder(e))
    case Success(s) =>
      var problem := if skipVerify then None else VerifyRoom(cfg, t, s.gasUsed, s.blobGasUsed);
      if problem.Some? then Failure(problem.value) else Success(s)
  }

  /** Nothing is committed, or the block still has room for the builder's transfer; blobs fit. */
  predicate Fits(cfg: BuildConfig, l: seq<SimTx>) {
    && (|l| == 0 || Total(l).gas + MAX_BUILDER_TRANSFER_GAS_LIMIT <= cfg.blockGasLimit)
    && Total(l).blobGas <= MAX_DATA_GAS_PER_BLOCK
  }

  /** Executing a bundle raises gas, blob gas, fees and coinbase transfers by exactly the
      bundle outcome's totals, refund included, and keeps the block within its limits. */
  lemma ExecBundleRaisesTotals(cfg: BuildConfig, genesis: World, l: seq<SimTx>, bundle: RecoveredBundle)
    requires ExecBundle(cfg, Replay(genesis, l), Total(l), bundle).Success?
    ensures var sb := ExecBundle(cfg, Replay(genesis, l), Total(l), bundle).value;
            && Total(l + sb.sims).IsSumOf(Total(l), sb.outcome.totals)
            && Fits(cfg, l + sb.sims)
  {
    var sb := ExecBundle(cfg, Replay(genesis, l), Total(l), bundle).value;
    SimulateIsFaithful(cfg, Replay(genesis, l), bundle);
    Concat(genesis, l, sb.sims);
  }

  /** Executing a bundle yields a faithful simulation that extends a genuine ledger. */
  lemma ExecBundleExtends(cfg: BuildConfig, genesis: World, l: seq<SimTx>, bundle: RecoveredBundle)
    requires Genuine(cfg, genesis, l)
    requires ExecBundle(cfg, Replay(genesis, l), Total(l), bundle).Success?
    ensures var sb := ExecBundle(cfg, Replay(genesis, l), Total(l), bundle).value;
            && sb.bundle == bundle
            && Faithful(cfg, Replay(genesis, l), sb)
            && Genuine(cfg, genesis, l + sb.sims)
            && Fits(cfg, l + sb.sims)
  {
    SimulateIsFaithful(cfg, Replay(genesis, l), bundle);
    GenuineConcat(cfg, genesis, l, ExecBundle(cfg, Replay(genesis, l), Total(l), bundle).value.sims);
    ExecBundleRaisesTotals(cfg, genesis, l, bundle);
  }

  lemma ExecTxExtends(cfg: BuildConfig, genesis: World, l: seq<SimTx>, tx: Tx, skipVerify: bool)
    requires Genuine(cfg, genesis, l)
    requires ExecTx(cfg, Replay(genesis, l), Total(l), tx, skipVerify).Success?
    ensures var s := ExecTx(cfg, Replay(genesis, l), Total(l), tx, skipVerify).value;
            && s.tx == tx
            && Genuine(cfg, genesis, l + [s])
            && Total(l + [s]) == Total(l).Plus(s)
            && (!skipVerify ==> Fits(cfg, l + [s]))
  {
    var w := Replay(genesis, l);
    SimulateTxProduces(cfg, w, Balance(w, cfg.coinbase), tx);
    GenuineStep(cfg, genesis, l, ExecTx(cfg, w, Total(l), tx, skipVerify).value);
    Append(genesis, l, ExecTx(cfg, w, Total(l), tx, skipVerify).value);
  }

  /** With the builder's transfer behind a ledger that fits, the block stays within its gas
      limit; an empty ledger needs the limit to admit the transfer alone. */
  lemma TransferFits(cfg: BuildConfig, genesis: World, l: seq<SimTx>, recipient: Address, amount: nat)
    requires cfg.GasBounded() && Genuine(cfg, genesis, l) && Fits(cfg, l)
    requires |l| == 0 ==> MAX_BUILDER_TRANSFER_GAS_LIMIT <= cfg.blockGasLimit
    requires var w := Replay(genesis, l); ExecTx(cfg, w, Total(l), cfg.TransferTx(w, recipient, amount), true).Success?
    ensures var w := Replay(genesis, l);
            var s := ExecTx(cfg, w, Total(l), cfg.TransferTx(w, recipient, amount), true).value;
            Total(l + [s]).gas <= cfg.blockGasLimit && Total(l + [s]).blobGas <= MAX_DATA_GAS_PER_BLOCK
  {
    var w := Replay(genesis, l);
    var tx := cfg.TransferTx(w, recipient, amount);
    ExecTxExtends(cfg, genesis, l, tx, true);
    assert cfg.transact(w, tx).value.gasUsed <= tx.gasLimit;
  }

  /** Header and body of a finished block. */
  datatype Build = Build(
    gasLimit: nat,
    gasUsed: nat,
    blobGasUsed: nat,
    body: seq<Tx>,
    receipts: seq<Receipt>,
    bid: nat)

  class BuildState {
    const cfg: BuildConfig
    var details: ExecutionDetails
    /** The state before the first commit, and everything committed since. */
    ghost const genesis: World
    ghost var ledger: seq<SimTx>

    constructor (cfg: BuildConfig, ghost genesis: World)
      ensures this.cfg == cfg && this.genesis == genesis && ledger == []
      ensures details == DetailsOf([], None)
    {
      this.cfg := cfg;
      this.genesis := genesis;
      this.ledger := [];
      this.details := ExecutionDetails([], [], 0, 0, 0, 0, None);
    }

    constructor Clone(other: BuildState)
      ensures cfg == other.cfg && genesis == other.genesis
      ensures ledger == other.ledger && details == other.details
    {
      cfg := other.cfg;
      genesis := other.genesis;
      ledger := other.ledger;
      details := other.details;
    }

    /** The details are those of the ledger, the database holds the state it leads to, and
        every transaction in it is genuine. */
    ghost predicate Valid(db: ExecutionDB)
      reads this, db
    {
      && details == DetailsOf(ledger, details.builderPayment)
      && db.accounts == Replay(genesis, ledger)
      && Genuine(cfg, genesis, ledger)
    }

    /** A word: the sums, kept without bounds here, are added up with wrapping additions. */
    function BlockValue(): U256
      reads this
    {
      Wrapped(details.sumFees + details.sumCoinbaseTransfers)
    }

    function Used(): Totals
      reads this
    {
      Totals(details.cumulativeGasUsed, details.cumulativeBlobGasUsed, details.sumFees, details.sumCoinbaseTransfers)
    }

    method WithPayment(payment: nat)
      modifies this
      ensures details == old(details).(builderPayment := Some(payment)) && ledger == old(ledger)
    {
      details := details.(builderPayment := Some(payment));
    }

    method SimulateTxOnDb(db: SimulationDB, tx: Tx) returns (r: Result<SimTx, EvmError>)
      ensures r == SimulateTx(cfg, db.View(), Balance(db.View(), cfg.coinbase), tx)
    {
      var account := db.Basic(cfg.coinbase);
      var seen := if account.Some? then account.value.balance else 0;
      var result := cfg.transact(db.View(), tx);
      match result {
        case Failure(e) => r := Failure(e);
        case Success(res) => r := Success(Record(cfg, tx, seen, res));
      }
    }

    /** Runs the bundle on a cache in front of the database, which stays as it is, and yields
        what running it directly on the database's state would. */
    method SimulateBundle(db: ExecutionDB, bundle: RecoveredBundle) returns (r: Result<SimulatedBundle, ExecError>)
      ensures r == Simulate(cfg, db.accounts, bundle)
    {
      var overlay := new SimulationDB(db);
      var sims := SimulateTxs(overlay, bundle.txs);
      if sims.Failure? {
        return Failure(sims.error);
      }
      var sb := NewSimulated(bundle, sims.value, cfg.baseFee);
      var refund := SimulateRefundTx(overlay, sb);
      match refund {
        case Failure(_) => r := Failure(BuilderRefundTx);
        case Success(None) => r := Success(sb);
        case Success(Some(s)) => r := Success(sb.AddTx(s));
      }
    }

    /** The loop over a bundle's transactions; each sees what the ones before left in the cache. */
    method SimulateTxs(overlay: SimulationDB, txs: seq<Tx>) returns (r: Result<seq<SimTx>, ExecError>)
      modifies overlay
      ensures r == SimulateTo(cfg, old(overlay.View()), txs, |txs|)
      ensures r.Success? ==> overlay.View() == Replay(old(overlay.View()), r.value)
    {
      ghost var w := overlay.View();
      var account := overlay.Basic(cfg.coinbase);
      var seen := if account.Some? then account.value.balance else 0;
      var sims: seq<SimTx> := [];
      while |sims| < |txs|
        invariant |sims| <= |txs| && SimulateTo(cfg, w, txs, |sims|) == Success(sims)
        invariant overlay.View() == Replay(w, sims) && seen == Seen(cfg, w, sims)
      {
        assert SimulateTo(cfg, w, txs, |sims| + 1) == Continue(cfg, w, sims, txs[|sims|]);
        var result := cfg.transact(overlay.View(), txs[|sims|]);
        if result.Failure? {
          FailureSticks(cfg, w, txs, |sims| + 1, |txs|);
          return Failure(PayloadBuilder(result.error));
        }
        var s := Record(cfg, txs[|sims|], seen, result.value);
        seen := Balance(s.state, cfg.coinbase);
        if cfg.Touches(s.state) {
          FailureSticks(cfg, w, txs, |sims| + 1, |txs|);
          return Failure(OfacAddressDetected);
        }
        Append(w, sims, s);
        sims := sims + [s];
        overlay.Commit(s.state);
      }
      r := Success(sims);
    }

    method SimulateRefundTx(db: SimulationDB, sb: SimulatedBundle) returns (r: Result<Option<SimTx>, ExecError>)
      ensures r == SimulateRefund(cfg, db.View(), sb)
      ensures r.Success? && r.value.Some? ==>
        && sb.bundle.RefundRecipient().Some? && r.value.value.success
        && cfg.IsTransfer(db.View(), r.value.value.tx, sb.bundle.RefundRecipient().value, sb.outcome.refund)
    {
      if sb.outcome.refund == 0 {
        return Success(None);
      }
      var recipient := sb.bundle.RefundRecipient();
      if recipient.None? {
        return Success(None);
      }
      var sim := SimulateTxOnDb(db, cfg.TransferTx(db.View(), recipient.value, sb.outcome.refund));
      match sim {
        case Failure(_) => r := Failure(BuilderRefundTx);
        case Success(s) => r := if s.success then Success(Some(s)) else Failure(BuilderRefundTx);
      }
    }

    /** Replays the recorded changes onto the database, adds up the totals and pushes one
        receipt and one transaction each. */
    method Commit(db: ExecutionDB, sims: seq<SimTx>)
      requires Valid(db) && Genuine(cfg, db.accounts, sims)
      modifies this, db
      ensures Valid(db) && ledger == old(ledger) + sims
      ensures details.builderPayment == old(details.builderPayment)
    {
      GenuineConcat(cfg, genesis, ledger, sims);
      ghost var l := ledger;
      var i := 0;
      assert l == l + sims[..0];
      while i < |sims|
        invariant 0 <= i <= |sims|
        invariant ledger == l + sims[..i]
        invariant details == DetailsOf(ledger, old(details.builderPayment))
        invariant db.accounts == Replay(genesis, ledger)
      {
        var s := sims[i];
        db.Commit(s.state);
        Append(genesis, ledger, s);
        var gas := details.cumulativeGasUsed + s.gasUsed;
        details := ExecutionDetails(
          details.executedTxs + [s.tx],
          details.receipts + [Receipt(s.success, gas)],
          gas,
          details.cumulativeBlobGasUsed + s.blobGasUsed,
          details.sumFees + s.fees,
          details.sumCoinbaseTransfers + s.coinbaseTransfer,
          details.builderPayment);
        assert sims[..i + 1] == sims[..i] + [s];
        ledger := ledger + [s];
        i := i + 1;
      }
      assert sims[..i] == sims;
    }

    /** A bundle is committed whole, refund included, or nothing changes at all. */
    method ExecuteBundle(db: ExecutionDB, bundle: RecoveredBundle) returns (r: Result<(), ExecError>)
      requires Valid(db)
      modifies this, db
      ensures Valid(db) && details.builderPayment == old(details.builderPayment)
      ensures match ExecBundle(cfg, old(db.accounts), Total(old(ledger)), bundle)
              case Success(sb) => r.Success? && ledger == old(ledger) + sb.sims
              case Failure(e) => r == Failure(e) && unchanged(this) && unchanged(db)
    {
      var sim := SimulateBundle(db, bundle);
      if sim.Failure? {
        return Failure(sim.error);
      }
      var problem := VerifyBundle(cfg, Used(), sim.value.outcome);
      if problem.Some? {
        return Failure(problem.value);
      }
      SimulateIsFaithful(cfg, db.accounts, bundle);
      Commit(db, sim.value.sims);
      r := Success(());
    }

    method ExecuteTransactionSkipVerify(db: ExecutionDB, tx: Tx, skipVerify: bool) returns (r: Result<(), ExecError>)
      requires Valid(db)
      modifies this, db
      ensures Valid(db) && details.builderPayment == old(details.builderPayment)
      ensures match ExecTx(cfg, old(db.accounts), Total(old(ledger)), tx, skipVerify)
              case Success(s) => r.Success? && ledger == old(ledger) + [s]
              case Failure(e) => r == Failure(e) && unchanged(this) && unchanged(db)
    {
      var overlay := new SimulationDB(db);
      var sim := SimulateTxOnDb(overlay, tx);
      if sim.Failure? {
        return Failure(PayloadBuilder(sim.error));
      }
      if !skipVerify {
        var problem := VerifyRoom(cfg, Used(), sim.value.gasUsed, sim.value.blobGasUsed);
        if problem.Some? {
          return Failure(problem.value);
        }
      }
      CommitOne(db, sim.value);
      r := Success(());
    }

    method CommitOne(db: ExecutionDB, s: SimTx)
      requires Valid(db) && SimulateTx(cfg, db.accounts, Balance(db.accounts, cfg.coinbase), s.tx) == Success(s)
      modifies this, db
      ensures Valid(db) && ledger == old(ledger) + [s]
      ensures details.builderPayment == old(details.builderPayment)
    {
      SimulateTxProduces(cfg, db.accounts, Balance(db.accounts, cfg.coinbase), s.tx);
      assert ProducedAt(cfg, db.accounts, [s], 0);
      Commit(db, [s]);
    }

    /** The finished block: everything committed, then the transfer of the payment to the
        proposer's fee recipient, executed without checking for room or for its success. The
        build state itself is not touched. */
    method IntoBuild(accounts: World) returns (r: Result<Build, ExecError>)
      requires details == DetailsOf(ledger, details.builderPayment)
      requires accounts == Replay(genesis, ledger) && Genuine(cfg, genesis, ledger)
      ensures var payment := details.builderPayment.GetOr(0);
              var tx := cfg.TransferTx(accounts, cfg.feeRecipient, payment);
              match ExecTx(cfg, accounts, Total(ledger), tx, true)
              case Failure(e) => r == Failure(e)
              case Success(s) =>
                && var full := ledger + [s];
                && Genuine(cfg, genesis, full)
                && r == Success(Build(cfg.blockGasLimit, Total(full).gas, Total(full).blobGas,
                                      Txs(full), Receipts(full), payment))
      ensures r.Success? ==>
        && |r.value.body| == |ledger| + 1 && r.value.body[..|ledger|] == Txs(ledger)
        && cfg.IsTransfer(accounts, r.value.body[|ledger|], cfg.feeRecipient, details.builderPayment.GetOr(0))
    {
      var that := new BuildState.Clone(this);
      var db := new ExecutionDB(accounts);
      var payment := details.builderPayment.GetOr(0);
      var tx := cfg.TransferTx(db.accounts, cfg.feeRecipient, payment);
      var executed := that.ExecuteTransactionSkipVerify(db, tx, true);
      if executed.Failure? {
        return Failure(executed.error);
      }
      r := Success(Build(cfg.blockGasLimit, that.details.cumulativeGasUsed, that.details.cumulativeBlobGasUsed,
                         that.details.executedTxs, that.details.receipts, payment));
    }
  }
}
