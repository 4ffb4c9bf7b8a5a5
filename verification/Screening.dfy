/** What gets into a block and what does not, in terms of the transactions themselves, the EVM and
    the limits. */
module Screening {
  import opened Wrappers
  import opened Words
  import opened Evm
  import opened Bundles
  import opened Ledger
  import opened Simulation
  import opened BundleOrder
  import opened BuildStates
  import opened BundlesStrat
  import opened BlockTheorems

  // ---------- blacklisted parties ----------

  /** Nobody on the list sends or receives the transaction. */
  predicate Clean(tx: Tx, blacklist: set<Address>) {
    tx.signer !in blacklist && (tx.to.Some? ==> tx.to.value !in blacklist)
  }

  predicate AllClean(txs: seq<Tx>, blacklist: set<Address>) {
    forall i :: 0 <= i < |txs| ==> Clean(txs[i], blacklist)
  }

  lemma BundleIsClean(cfg: BuildConfig, sb: SimulatedBundle)
    ensures ContainsOfac(cfg, sb) <==> !AllClean(sb.bundle.txs, cfg.blacklist)
  {
    if i :| 0 <= i < |sb.bundle.txs| && !Clean(sb.bundle.txs[i], cfg.blacklist) {
      assert sb.bundle.txs[i] in sb.bundle.txs && cfg.Blacklisted(sb.bundle.txs[i]);
    }
  }

  lemma {:induction false} UserTxsClean(cfg: BuildConfig, w: World, processed: seq<SimulatedBundle>, v: seq<Verdict>, n: nat)
    requires Selected(cfg, w, [], processed, v) && n <= |v|
    ensures AllClean(UserTxs(processed, v, n), cfg.blacklist)
    decreases n
  {
    if n > 0 {
      UserTxsClean(cfg, w, processed, v, n - 1);
      assert JudgedAt(cfg, w, [], processed, v, n - 1);
      BundleIsClean(cfg, processed[n - 1]);
    }
  }

  lemma {:induction false} MempoolTxsClean(cfg: BuildConfig, w: World, base: seq<SimTx>, committed: set<Hash>, pool: PoolIterator, h: seq<Offer>, n: nat)
    requires Offered(cfg, w, base, committed, pool, h) && n <= |h|
    ensures AllClean(MempoolTxs(h, n), cfg.blacklist)
    decreases n
  {
    if n > 0 {
      MempoolTxsClean(cfg, w, base, committed, pool, h, n - 1);
      assert OfferedAt(cfg, w, base, committed, pool, h, n - 1);
    }
  }

  /** In every run no bundle or mempool transaction in the block has a blacklisted sender or
      recipient. */
  lemma NoBlacklistedParties(cfg: BuildConfig, w: World, bundles: seq<RecoveredBundle>, pool: PoolIterator, run: Run)
    requires BuiltBy(cfg, w, bundles, pool, run)
    ensures AllClean(UserTxs(run.processed, run.verdicts, |run.verdicts|) + MempoolTxs(run.offers, |run.offers|), cfg.blacklist)
  {
    UserTxsClean(cfg, w, run.processed, run.verdicts, |run.verdicts|);
    MempoolTxsClean(cfg, w, run.FromBundles(), KeptHashes(run.processed, run.verdicts, |run.verdicts|), pool, run.offers, |run.offers|);
  }

  lemma UntouchedIsDisjoint(cfg: BuildConfig, state: World)
    requires !cfg.Touches(state)
    ensures state.Keys !! cfg.blacklist
  {
    forall a | a in state ensures a !in cfg.blacklist {
    }
  }

  lemma LastIsUntouched(cfg: BuildConfig, w: World, txs: seq<Tx>, k: nat)
    requires k < |txs| && SimulateTo(cfg, w, txs, k + 1).Success?
    ensures !cfg.Touches(SimulateTo(cfg, w, txs, k + 1).value[k].state)
  {
    SimulatedStep(cfg, w, txs, k);
  }

  lemma SimulatedTouchNothing(cfg: BuildConfig, w: World, txs: seq<Tx>, k: nat)
    requires k < |txs| && SimulateTo(cfg, w, txs, |txs|).Success?
    ensures SimulateTo(cfg, w, txs, |txs|).value[k].state.Keys !! cfg.blacklist
  {
    SimulatePrefix(cfg, w, txs, k + 1, |txs|);
    LastIsUntouched(cfg, w, txs, k);
    var l := SimulateTo(cfg, w, txs, |txs|).value;
    assert l[..k + 1][k] == l[k];
    UntouchedIsDisjoint(cfg, l[k].state);
  }

  lemma OwnAreSimulated(cfg: BuildConfig, w: World, bundle: RecoveredBundle)
    requires Simulate(cfg, w, bundle).Success?
    ensures var own, sims := SimulateTo(cfg, w, bundle.txs, |bundle.txs|), Simulate(cfg, w, bundle).value.sims;
            own.Success? && own.value <= sims
  {
  }

  /** No transaction of an accepted bundle touches a blacklisted account at its place in the block;
      this is not so of refunds and mempool transactions. */
  lemma AcceptedTouchNothing(cfg: BuildConfig, w: World, bundles: seq<RecoveredBundle>, pool: PoolIterator, run: Run, i: nat, k: nat)
    requires BuiltBy(cfg, w, bundles, pool, run)
    requires i < |run.verdicts| && run.verdicts[i].Accepted? && k < |run.processed[i].bundle.txs|
    ensures k < |run.verdicts[i].sims| && run.verdicts[i].sims[k].state.Keys !! cfg.blacklist
  {
    var bundle, l := run.processed[i].bundle, Kept(run.verdicts, i);
    assert JudgedAt(cfg, w, [], run.processed, run.verdicts, i);
    assert [] + l == l;
    var x := AcceptedIsExecuted(cfg, w, l, KeptHashes(run.processed, run.verdicts, i), run.processed[i], run.verdicts[i]);
    OwnAreSimulated(cfg, Replay(w, l), bundle);
    SimulatedTouchNothing(cfg, Replay(w, l), bundle.txs, k);
  }

  // ---------- which bundles ----------

  lemma {:induction false} InTopOfBlock(cfg: BuildConfig, w: World, bundles: seq<RecoveredBundle>, n: nat, i: nat)
    requires i < n <= |bundles| && Simulate(cfg, w, bundles[i]).Success?
    ensures Simulate(cfg, w, bundles[i]).value in TopOfBlock(cfg, w, bundles, n)
    decreases n
  {
    if i < n - 1 {
      InTopOfBlock(cfg, w, bundles, n - 1, i);
    }
  }

  lemma {:induction false} TopOfBlockSize(cfg: BuildConfig, w: World, bundles: seq<RecoveredBundle>, n: nat)
    requires n <= |bundles|
    ensures |TopOfBlock(cfg, w, bundles, n)| == Simulating(cfg, w, bundles, n)
    decreases n
  {
    if n > 0 {
      TopOfBlockSize(cfg, w, bundles, n - 1);
    }
  }

  /** How many of the first `n` bundles simulate at the top of the block. */
  function Simulating(cfg: BuildConfig, w: World, bundles: seq<RecoveredBundle>, n: nat): nat
    requires n <= |bundles|
    decreases n
  {
    if n == 0 then 0
    else Simulating(cfg, w, bundles, n - 1) + (if Simulate(cfg, w, bundles[n - 1]).Success? then 1 else 0)
  }

  /** Exactly the bundles that simulate at the top of the block are processed, as often as they are
      there. */
  lemma ProcessedIff(cfg: BuildConfig, w: World, bundles: seq<RecoveredBundle>, sb: SimulatedBundle)
    ensures sb in Processed(cfg, w, bundles) <==>
            exists i :: 0 <= i < |bundles| && Simulate(cfg, w, bundles[i]) == Success(sb)
    ensures |Processed(cfg, w, bundles)| == Simulating(cfg, w, bundles, |bundles|)
  {
    var top := TopOfBlock(cfg, w, bundles, |bundles|);
    TopOfBlockSize(cfg, w, bundles, |bundles|);
    SortPermutes(top);
    assert sb in Processed(cfg, w, bundles) <==> sb in multiset(top);
    if sb in Processed(cfg, w, bundles) {
      ProcessedComeFromPool(cfg, w, bundles, sb);
      var i :| 0 <= i < |bundles| && bundles[i] == sb.bundle;
    }
    if i :| 0 <= i < |bundles| && Simulate(cfg, w, bundles[i]) == Success(sb) {
      InTopOfBlock(cfg, w, bundles, |bundles|, i);
    }
  }

  /** Behind the state the bundle's own transactions leave, its refund is not due or goes through. */
  predicate RefundSettles(cfg: BuildConfig, u: World, bundle: RecoveredBundle, refund: nat) {
    refund > 0 && bundle.RefundRecipient().Some? ==>
      var r := cfg.transact(u, cfg.TransferTx(u, bundle.RefundRecipient().value, refund));
      r.Success? && r.value.success
  }

  /** A bundle simulates exactly when the EVM takes each of its transactions behind the ones before,
      none touches a blacklisted account, and its refund settles. */
  lemma SimulatesIff(cfg: BuildConfig, w: World, bundle: RecoveredBundle)
    ensures var u, own := StateAfter(cfg, w, bundle.txs, |bundle.txs|), SimulateTo(cfg, w, bundle.txs, |bundle.txs|);
            && (own.Success? <==> u.Some?)
            && (Simulate(cfg, w, bundle).Success? <==>
                  u.Some? && RefundSettles(cfg, u.value, bundle, RefundOf(bundle, own.value, cfg.baseFee)))
  {
    SimulateToState(cfg, w, bundle.txs, |bundle.txs|);
  }

  /** What the state behind a bundle's transactions is, one by one. */
  lemma StateAfterStep(cfg: BuildConfig, w: World, txs: seq<Tx>, k: nat)
    requires k < |txs|
    ensures StateAfter(cfg, w, txs, 0) == Some(w)
    ensures var u, u' := StateAfter(cfg, w, txs, k), StateAfter(cfg, w, txs, k + 1);
            && (u'.Some? <==> u.Some? && var r := cfg.transact(u.value, txs[k]); r.Success? && r.value.state.Keys !! cfg.blacklist)
            && (u'.Some? ==> u'.value == u.value + cfg.transact(u.value, txs[k]).value.state)
  {
    if StateAfter(cfg, w, txs, k).Some? {
      var r := cfg.transact(StateAfter(cfg, w, txs, k).value, txs[k]);
      if r.Success? && cfg.Touches(r.value.state) {
        var a :| a in cfg.blacklist && a in r.value.state;
      }
    }
  }

  /** Every failed transaction is one that may fail. */
  predicate OnlyAllowedFailures(bundle: RecoveredBundle, sims: seq<SimTx>) {
    forall k :: 0 <= k < |sims| && !sims[k].success ==> sims[k].tx.hash in bundle.revertingTxHashes
  }

  lemma NoDisallowedFailure(cfg: BuildConfig, w: World, bundle: RecoveredBundle)
    requires Simulate(cfg, w, bundle).Success?
    ensures var sb := Simulate(cfg, w, bundle).value;
            && (sb.outcome.reverted.None? <==> OnlyAllowedFailures(bundle, sb.sims))
            && (sb.outcome.reverted.None? ==> sb.outcome.totals == Total(sb.sims))
  {
    var own, sb := SimulateTo(cfg, w, bundle.txs, |bundle.txs|).value, Simulate(cfg, w, bundle).value;
    SimulateIsFaithful(cfg, w, bundle);
    assert Summarizes(OutcomeOf(bundle, own), bundle, own);
    assert own <= sb.sims && |sb.sims| <= |own| + 1;
    assert forall k :: 0 <= k < |own| ==> sb.sims[k] == own[k];
    if |sb.sims| > |own| {
      assert sb.Refunds() != [];
      assert sb.sims[|own|].success;
    }
  }

  /** At its turn behind ledger `l`, bundle `sb` is in order: nobody in it is blacklisted, none of its
      transactions is in the block, it simulates with only the failures it allows, and it fits with
      32000 gas to spare and within the gas of six blobs. */
  ghost predicate InOrder(cfg: BuildConfig, w: World, l: seq<SimTx>, committed: set<Hash>, bundle: RecoveredBundle) {
    && AllClean(bundle.txs, cfg.blacklist)
    && (forall k :: 0 <= k < |bundle.txs| ==> bundle.txs[k].hash !in committed)
    && var r := Simulate(cfg, Replay(w, l), bundle);
       && r.Success? && OnlyAllowedFailures(bundle, r.value.sims)
       && Total(l).gas + Total(r.value.sims).gas + 32000 <= cfg.blockGasLimit
       && Total(l).blobGas + Total(r.value.sims).blobGas <= 6 * 131072
  }

  lemma JudgedInOrder(cfg: BuildConfig, w: World, l: seq<SimTx>, committed: set<Hash>, sb: SimulatedBundle)
    requires Judge(cfg, w, l, committed, sb).Success?
    ensures var v := Judge(cfg, w, l, committed, sb).value;
            && (v.Accepted? <==> InOrder(cfg, w, l, committed, sb.bundle))
            && (v.Blacklisted? <==> !AllClean(sb.bundle.txs, cfg.blacklist))
  {
    BundleIsClean(cfg, sb);
    if k :| 0 <= k < |sb.bundle.txs| && sb.bundle.txs[k].hash in committed {
      assert sb.bundle.txs[k] in sb.bundle.txs;
    }
    if Simulate(cfg, Replay(w, l), sb.bundle).Success? {
      NoDisallowedFailure(cfg, Replay(w, l), sb.bundle);
    }
  }

  /** In every run a processed bundle is accepted exactly if it is in order at its turn, and set aside
      as blacklisted exactly if one of its transactions has a blacklisted sender or recipient. */
  lemma AcceptedIff(cfg: BuildConfig, w: World, bundles: seq<RecoveredBundle>, pool: PoolIterator, run: Run, i: nat)
    requires BuiltBy(cfg, w, bundles, pool, run) && i < |run.verdicts|
    ensures run.verdicts[i].Accepted? <==>
            InOrder(cfg, w, Kept(run.verdicts, i), KeptHashes(run.processed, run.verdicts, i), run.processed[i].bundle)
    ensures run.verdicts[i].Blacklisted? <==> !AllClean(run.processed[i].bundle.txs, cfg.blacklist)
  {
    assert JudgedAt(cfg, w, [], run.processed, run.verdicts, i);
    assert [] + Kept(run.verdicts, i) == Kept(run.verdicts, i);
    JudgedInOrder(cfg, w, Kept(run.verdicts, i), KeptHashes(run.processed, run.verdicts, i), run.processed[i]);
  }

  // ---------- which mempool transactions ----------

  /** Whether an offer is included and what the pool is told, or that the attempt ends there. */
  datatype Fate = Enters(said: Feedback) | StaysOut(said: Feedback) | Ends

  /** The fate of a transaction offered on state `u`, behind transactions that add up to `t`. */
  function FateOf(cfg: BuildConfig, u: World, t: Totals, committed: set<Hash>, tx: Tx): Fate {
    if !Clean(tx, cfg.blacklist) then StaysOut(MarkInvalid)
    else if tx.hash in committed then StaysOut(Keep)
    else
      match cfg.transact(u, tx)
      case Failure(NonceTooLow) => StaysOut(Keep)
      case Failure(InvalidTransaction) => StaysOut(MarkInvalid)
      case Failure(Internal) => Ends
      case Success(r) =>
        if t.gas + r.gasUsed + 32000 > cfg.blockGasLimit then StaysOut(MarkInvalid)
        else if t.blobGas + tx.blobGas.GetOr(0) > 6 * 131072 then StaysOut(SkipBlobsAndMarkInvalid)
        else Enters(Keep)
  }

  lemma JudgedByFate(cfg: BuildConfig, w: World, l: seq<SimTx>, committed: set<Hash>, tx: Tx)
    ensures var fate, verdict := FateOf(cfg, Replay(w, l), Total(l), committed, tx), JudgeTx(cfg, w, l, committed, tx);
            && (verdict.Failure? <==> fate.Ends?)
            && (verdict.Success? ==>
                  (verdict.value.Included? <==> fate.Enters?) && FeedbackFor(verdict.value) == fate.said)
  {
  }

  /** In every run each offer meets its fate: it is in the block, or left out, and the pool has been
      told, as the EVM, the limits and the blacklist have it at that point. */
  lemma OffersMeetFate(cfg: BuildConfig, w: World, bundles: seq<RecoveredBundle>, pool: PoolIterator, run: Run, i: nat)
    requires BuiltBy(cfg, w, bundles, pool, run) && i < |run.offers|
    ensures var l, committed := run.FromBundles() + Taken(run.offers, i),
                                KeptHashes(run.processed, run.verdicts, |run.verdicts|) + TakenHashes(run.offers, i);
            var fate := FateOf(cfg, Replay(w, l), Total(l), committed, run.offers[i].tx);
            && !fate.Ends? && (run.offers[i].verdict.Included? <==> fate.Enters?)
            && Feedbacks(run.offers, |run.offers|)[i] == fate.said
  {
    var committed := KeptHashes(run.processed, run.verdicts, |run.verdicts|);
    assert OfferedAt(cfg, w, run.FromBundles(), committed, pool, run.offers, i);
    JudgedByFate(cfg, w, run.FromBundles() + Taken(run.offers, i), committed + TakenHashes(run.offers, i), run.offers[i].tx);
  }

  /** An attempt that does not fail ends when the pool is exhausted, at a cancellation, or at an offer
      on which the EVM itself breaks down; it reports an improvement exactly in the first case and if
      the block value, as a word, is strictly more than the best so far. */
  lemma AttemptEnds(cfg: BuildConfig, w: World, bundles: seq<RecoveredBundle>, pool: PoolIterator, cancelled: nat -> bool,
                    best: U256, run: Run, end: MempoolEnd, report: Report)
    requires Attempted(cfg, w, bundles, pool, cancelled, best, run, end, report)
    ensures var next, n := pool(Feedbacks(run.offers, |run.offers|)), |run.offers|;
            && (end.Exhausted? <==> next.None?)
            && (end.JobCancelled? <==> next.Some? && cancelled(n))
            && (end.ExecFailed? ==> next.Some? && FateOf(cfg, Replay(w, run.Ledger()), Total(run.Ledger()), run.Committed(), next.value).Ends?)
    ensures var value := BlockValue(run.Ledger()) % U256_SIZE;
            && (report == Improved(value) <==> end.Exhausted? && value > best)
            && (report == NotImproved(value) <==> end.ExecFailed? || (end.Exhausted? && value <= best))
            && (report == WasCancelled <==> end.JobCancelled?)
  {
    var next := pool(Feedbacks(run.offers, |run.offers|));
    if next.Some? {
      JudgedByFate(cfg, w, run.Ledger(), run.Committed(), next.value);
    }
  }

  // ---------- sums over the block ----------

  function BlobGasOf(txs: seq<Tx>, n: nat): nat
    requires n <= |txs|
  {
    if n == 0 then 0 else BlobGasOf(txs, n - 1) + txs[n - 1].blobGas.GetOr(0)
  }

  /** What a transaction pays per gas above the base fee: the lesser of its priority fee and what its
      fee cap leaves. */
  function TipOf(tx: Tx, baseFee: nat): nat {
    if tx.maxFeePerGas < baseFee then 0
    else if tx.maxPriorityFeePerGas.None? || tx.maxPriorityFeePerGas.value + baseFee > tx.maxFeePerGas
    then tx.maxFeePerGas - baseFee
    else tx.maxPriorityFeePerGas.value
  }

  lemma {:induction false} BlobGasAddsUp(cfg: BuildConfig, w: World, l: seq<SimTx>, n: nat)
    requires Genuine(cfg, w, l) && n <= |l|
    ensures TotalTo(l, n).blobGas == BlobGasOf(Txs(l), n)
  {
    if n > 0 {
      BlobGasAddsUp(cfg, w, l, n - 1);
      assert ProducedAt(cfg, w, l, n - 1);
    }
  }

  /** In every run the blob gas of the block's transactions adds up to what is recorded and to at
      most that of six blobs, and each transaction is recorded with the tip of its gas. */
  lemma RecordedAsPaid(cfg: BuildConfig, w: World, bundles: seq<RecoveredBundle>, pool: PoolIterator, run: Run, i: nat)
    requires BuiltBy(cfg, w, bundles, pool, run) && i < |run.Ledger()|
    ensures var l := run.Ledger();
            && Total(l).blobGas == BlobGasOf(Txs(l), |l|) <= 6 * 131072
            && l[i].fees == TipOf(l[i].tx, cfg.baseFee) * l[i].gasUsed
  {
    RunIsSound(cfg, w, bundles, pool, run);
    BlobGasAddsUp(cfg, w, run.Ledger(), |run.Ledger()|);
    assert ProducedAt(cfg, w, run.Ledger(), i);
  }

  /** A bundle's value is what it brings less its refund, as long as neither exceeds its word. */
  lemma ValueIsNet(o: BundleOutcome)
    ensures o.refund <= o.totals.fees + o.totals.coinbase < U256_SIZE ==>
            o.TotalValue() == o.totals.fees + o.totals.coinbase - o.refund
  {
  }
}
