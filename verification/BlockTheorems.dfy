/** What holds of every block a build attempt produces, whatever the bundles, the pool and
    the EVM do. */
module BlockTheorems {
  import opened Wrappers
  import opened Evm
  import opened Bundles
  import opened Ledger
  import opened Simulation
  import opened BundleOrder
  import opened BuildStates
  import opened BundlesStrat
  import opened BlockValues

  // ---------- genuine and within limits ----------

  lemma AcceptedIsExecuted(cfg: BuildConfig, w: World, l: seq<SimTx>, committed: set<Hash>, sb: SimulatedBundle, v: Verdict)
    returns (x: SimulatedBundle)
    requires v.Accepted? && Judge(cfg, w, l, committed, sb) == Success(v)
    ensures ExecBundle(cfg, Replay(w, l), Total(l), sb.bundle) == Success(x) && x.sims == v.sims
  {
    x := ExecBundle(cfg, Replay(w, l), Total(l), sb.bundle).value;
  }

  lemma AcceptedExtends(cfg: BuildConfig, w: World, l: seq<SimTx>, committed: set<Hash>, sb: SimulatedBundle, v: Verdict)
    requires Genuine(cfg, w, l) && v.Accepted? && Judge(cfg, w, l, committed, sb) == Success(v)
    ensures Genuine(cfg, w, l + v.sims) && Fits(cfg, l + v.sims)
    ensures Txs(v.sims) == sb.bundle.txs + RefundsBehind(sb, v) && |RefundsBehind(sb, v)| <= 1
  {
    var x := AcceptedIsExecuted(cfg, w, l, committed, sb, v);
    ExecBundleExtends(cfg, w, l, sb.bundle);
    assert RefundsBehind(sb, v) == x.Refunds();
  }

  lemma KeptStep(base: seq<SimTx>, v: seq<Verdict>, n: nat)
    requires n < |v|
    ensures base + Kept(v, n + 1) ==
            if v[n].Accepted? then base + Kept(v, n) + v[n].sims else base + Kept(v, n)
  {
  }

  /** A ledger the build may go on from. */
  ghost predicate Sound(cfg: BuildConfig, w: World, l: seq<SimTx>) {
    Genuine(cfg, w, l) && Fits(cfg, l)
  }

  lemma SoundStep(cfg: BuildConfig, w: World, base: seq<SimTx>, processed: seq<SimulatedBundle>, v: seq<Verdict>, n: nat)
    requires Selected(cfg, w, base, processed, v) && n < |v|
    requires Sound(cfg, w, base + Kept(v, n))
    ensures Sound(cfg, w, base + Kept(v, n + 1))
    ensures v[n].Accepted? ==>
      Txs(v[n].sims) == processed[n].bundle.txs + RefundsBehind(processed[n], v[n])
    ensures |RefundsBehind(processed[n], v[n])| <= 1
  {
    assert JudgedAt(cfg, w, base, processed, v, n);
    KeptStep(base, v, n);
    if v[n].Accepted? {
      AcceptedExtends(cfg, w, base + Kept(v, n), KeptHashes(processed, v, n), processed[n], v[n]);
    }
  }

  lemma {:induction false} KeptIsSound(cfg: BuildConfig, w: World, base: seq<SimTx>, processed: seq<SimulatedBundle>, v: seq<Verdict>, n: nat)
    requires Selected(cfg, w, base, processed, v) && n <= |v|
    requires Sound(cfg, w, base)
    ensures Sound(cfg, w, base + Kept(v, n))
    decreases n
  {
    if n == 0 {
      assert base + Kept(v, n) == base;
    } else {
      KeptIsSound(cfg, w, base, processed, v, n - 1);
      SoundStep(cfg, w, base, processed, v, n - 1);
    }
  }

  lemma {:induction false} TakenIsSound(cfg: BuildConfig, w: World, base: seq<SimTx>, committed: set<Hash>, pool: PoolIterator, h: seq<Offer>, n: nat)
    requires Offered(cfg, w, base, committed, pool, h) && n <= |h|
    requires Sound(cfg, w, base)
    ensures Sound(cfg, w, base + Taken(h, n))
    decreases n
  {
    if n == 0 {
      assert base + Taken(h, n) == base;
    } else {
      TakenIsSound(cfg, w, base, committed, pool, h, n - 1);
      var l := base + Taken(h, n - 1);
      assert OfferedAt(cfg, w, base, committed, pool, h, n - 1);
      if h[n - 1].verdict.Included? {
        ExecTxExtends(cfg, w, l, h[n - 1].tx, false);
        assert base + Taken(h, n) == l + [h[n - 1].verdict.sim];
      }
    }
  }

  /** In every run, bundles and mempool transactions alike are genuine, and what is committed
      leaves room for the builder's transfer and respects the blob limit. */
  lemma RunIsSound(cfg: BuildConfig, w: World, bundles: seq<RecoveredBundle>, pool: PoolIterator, run: Run)
    requires BuiltBy(cfg, w, bundles, pool, run)
    ensures Sound(cfg, w, run.Ledger())
  {
    KeptIsSound(cfg, w, [], run.processed, run.verdicts, |run.verdicts|);
    assert [] + run.FromBundles() == run.FromBundles();
    TakenIsSound(cfg, w, run.FromBundles(), KeptHashes(run.processed, run.verdicts, |run.verdicts|), pool, run.offers, |run.offers|);
  }

  /** The finished block, with the builder's transfer of any amount to any recipient at its
      end: it stays within the gas and blob limits, provided the gas limit admits the transfer
      alone. A node that executes its body in order on the parent state, with no simulation and
      no overlay, accepts it exactly when the gas limit of each committed transaction fits into
      the gas left at its place, which the build never checks; and then finds the receipts and
      the gas the header claims. The transfer itself always fits. */
  lemma FinishedBlockIsValidIff(cfg: BuildConfig, w: World, bundles: seq<RecoveredBundle>, pool: PoolIterator, run: Run,
                                recipient: Address, amount: nat)
    requires cfg.GasBounded() && MAX_BUILDER_TRANSFER_GAS_LIMIT <= cfg.blockGasLimit
    requires BuiltBy(cfg, w, bundles, pool, run)
    requires var w' := Replay(w, run.Ledger());
             ExecTx(cfg, w', Total(run.Ledger()), cfg.TransferTx(w', recipient, amount), true).Success?
    ensures var w' := Replay(w, run.Ledger());
            var s := ExecTx(cfg, w', Total(run.Ledger()), cfg.TransferTx(w', recipient, amount), true).value;
            var full := run.Ledger() + [s];
            && Total(full).gas <= cfg.blockGasLimit
            && Total(full).blobGas <= MAX_DATA_GAS_PER_BLOCK
            && ExecuteBlock(cfg, w, Txs(full), |full|) ==
               if LimitsFit(cfg, run.Ledger(), |run.Ledger()|)
               then Some(Executed(Replay(w, full), Total(full).gas, Receipts(full)))
               else None
  {
    var l := run.Ledger();
    RunIsSound(cfg, w, bundles, pool, run);
    var tx := cfg.TransferTx(Replay(w, l), recipient, amount);
    TransferFits(cfg, w, l, recipient, amount);
    ExecTxExtends(cfg, w, l, tx, true);
    var s := ExecTx(cfg, Replay(w, l), Total(l), tx, true).value;
    BlockReplaysIff(cfg, w, l + [s], |l| + 1);
    LimitsOfPrefix(cfg, l, s);
    assert Receipts(l + [s])[..|l| + 1] == Receipts(l + [s]);
  }

  lemma LimitsOfPrefix(cfg: BuildConfig, l: seq<SimTx>, s: SimTx)
    requires Total(l).gas + s.tx.gasLimit <= cfg.blockGasLimit
    ensures LimitsFit(cfg, l + [s], |l| + 1) <==> LimitsFit(cfg, l, |l|)
  {
    forall i: nat | i < |l|
      ensures LimitFits(cfg, l + [s], i) <==> LimitFits(cfg, l, i)
    {
      PrefixTo(map[], l, l + [s], i);
    }
    PrefixTo(map[], l, l + [s], |l|);
  }

  // ---------- value and gain ----------

  /** For each committed bundle transaction, whether it was simulated behind another one of its
      bundle. */
  function CarriedTo(processed: seq<SimulatedBundle>, v: seq<Verdict>, n: nat): seq<bool>
    requires n <= |v| && n <= |processed|
    decreases n
  {
    if n == 0 then []
    else if v[n - 1].Accepted? then
      CarriedTo(processed, v, n - 1) + CarriedIn(|processed[n - 1].bundle.txs|, |v[n - 1].sims|)
    else CarriedTo(processed, v, n - 1)
  }

  /** No mempool transaction is simulated behind another. */
  function Carried(run: Run): seq<bool>
    requires |run.verdicts| <= |run.processed|
  {
    CarriedTo(run.processed, run.verdicts, |run.verdicts|) + CarriedIn(0, |run.FromMempool()|)
  }

  lemma {:induction false} KeptRecorded(cfg: BuildConfig, w: World, processed: seq<SimulatedBundle>, v: seq<Verdict>, n: nat)
    requires Selected(cfg, w, [], processed, v) && n <= |v|
    ensures Recorded(cfg, w, Kept(v, n), CarriedTo(processed, v, n))
    decreases n
  {
    if n > 0 {
      KeptRecorded(cfg, w, processed, v, n - 1);
      assert JudgedAt(cfg, w, [], processed, v, n - 1);
      assert [] + Kept(v, n - 1) == Kept(v, n - 1);
      if v[n - 1].Accepted? {
        var before, bundle := Kept(v, n - 1), processed[n - 1].bundle;
        BundleRecorded(cfg, Replay(w, before), bundle);
        RecordedConcat(cfg, w, before, v[n - 1].sims, CarriedTo(processed, v, n - 1), CarriedIn(|bundle.txs|, |v[n - 1].sims|));
      }
    }
  }

  lemma {:induction false} TakenRecorded(cfg: BuildConfig, w: World, base: seq<SimTx>, carried: seq<bool>, committed: set<Hash>,
                                         pool: PoolIterator, h: seq<Offer>, n: nat)
    requires Offered(cfg, w, base, committed, pool, h) && n <= |h|
    requires Recorded(cfg, w, base, carried)
    ensures Recorded(cfg, w, base + Taken(h, n), carried + CarriedIn(0, |Taken(h, n)|))
    decreases n
  {
    if n == 0 {
      assert base + Taken(h, n) == base && carried + CarriedIn(0, 0) == carried;
    } else {
      TakenRecorded(cfg, w, base, carried, committed, pool, h, n - 1);
      assert OfferedAt(cfg, w, base, committed, pool, h, n - 1);
      if h[n - 1].verdict.Included? {
        var l, k := base + Taken(h, n - 1), |Taken(h, n - 1)|;
        var s := h[n - 1].verdict.sim;
        RecordedAlone(cfg, w, l, carried + CarriedIn(0, k), s);
        assert base + Taken(h, n) == l + [s];
        assert carried + CarriedIn(0, k) + [false] == carried + CarriedIn(0, k + 1);
      }
    }
  }

  /** Over every run the recorded block value is at least what the builder's account gained, and
      states the gain exactly when each transaction, be it of a bundle, a refund or from the
      mempool, brings the account at least its fees, and none that touches the account comes
      directly behind one of its bundle that does not, unless the account is empty there. */
  lemma BlockValueIsGainIff(cfg: BuildConfig, w: World, bundles: seq<RecoveredBundle>, pool: PoolIterator, run: Run)
    requires BuiltBy(cfg, w, bundles, pool, run)
    ensures var l := run.Ledger();
            var gain := Balance(Replay(w, l), cfg.coinbase) - Balance(w, cfg.coinbase);
            && |Carried(run)| == |l|
            && BlockValue(l) >= gain
            && (BlockValue(l) == gain <==>
                  forall i: nat {:trigger ExactAt(cfg, w, l, Carried(run), i)} ::
                    i < |l| ==> ExactAt(cfg, w, l, Carried(run), i))
  {
    var processed, v := run.processed, run.verdicts;
    RunIsSound(cfg, w, bundles, pool, run);
    KeptRecorded(cfg, w, processed, v, |v|);
    TakenRecorded(cfg, w, run.FromBundles(), CarriedTo(processed, v, |v|), KeptHashes(processed, v, |v|),
                  pool, run.offers, |run.offers|);
    ValueIsGainIff(cfg, w, run.Ledger(), Carried(run));
  }

  lemma RefundIsLast(cfg: BuildConfig, w: World, processed: seq<SimulatedBundle>, v: seq<Verdict>, n: nat)
    requires Selected(cfg, w, [], processed, v) && n < |v|
    requires |RefundsBehind(processed[n], v[n])| == 1
    ensures |Kept(v, n + 1)| > 0 && |v[n].sims| > 0
    ensures Kept(v, n + 1)[|Kept(v, n + 1)| - 1].tx == RefundsBehind(processed[n], v[n])[0]
  {
    KeptIsSound(cfg, w, [], processed, v, n);
    SoundStep(cfg, w, [], processed, v, n);
    LastOfTwo(Kept(v, n), v[n].sims);
    assert RefundsBehind(processed[n], v[n])[0] == Txs(v[n].sims)[|v[n].sims| - 1];
  }

  lemma LastOfTwo(a: seq<SimTx>, b: seq<SimTx>)
    requires |b| > 0
    ensures (a + b)[|a + b| - 1] == b[|b| - 1]
  {
  }

  /** Where the refund of bundle `n` stands in the block. */
  lemma RefundPosition(cfg: BuildConfig, w: World, bundles: seq<RecoveredBundle>, pool: PoolIterator, run: Run, n: nat)
    returns (i: nat)
    requires BuiltBy(cfg, w, bundles, pool, run)
    requires n < |run.verdicts| && |RefundsBehind(run.processed[n], run.verdicts[n])| == 1
    ensures i < |run.Ledger()| && i + 1 == |Kept(run.verdicts, n + 1)|
    ensures run.Ledger()[i].tx == RefundsBehind(run.processed[n], run.verdicts[n])[0]
  {
    RefundIsLast(cfg, w, run.processed, run.verdicts, n);
    i := |Kept(run.verdicts, n + 1)| - 1;
    KeptExtends(run.verdicts, n + 1, |run.verdicts|);
    assert run.Ledger()[i] == Kept(run.verdicts, n + 1)[i];
  }

  /** A committed refund is not subtracted from block value: block value exceeds the builder's
      gain by at least what the refund takes from the builder's account. */
  lemma RefundIsNotSubtracted(cfg: BuildConfig, w: World, bundles: seq<RecoveredBundle>, pool: PoolIterator, run: Run, n: nat)
    returns (i: nat)
    requires BuiltBy(cfg, w, bundles, pool, run)
    requires n < |run.verdicts| && |RefundsBehind(run.processed[n], run.verdicts[n])| == 1
    ensures i < |run.Ledger()| && run.Ledger()[i].tx == RefundsBehind(run.processed[n], run.verdicts[n])[0]
    ensures var l := run.Ledger();
            var gain := Balance(Replay(w, l), cfg.coinbase) - Balance(w, cfg.coinbase);
            var taken := Balance(ReplayTo(w, l, i), cfg.coinbase) - Balance(ReplayTo(w, l, i + 1), cfg.coinbase);
            BlockValue(l) >= gain + taken && (taken > 0 ==> BlockValue(l) > gain)
  {
    RunIsSound(cfg, w, bundles, pool, run);
    i := RefundPosition(cfg, w, bundles, pool, run, n);
    LossIsNotSubtracted(cfg, w, run.Ledger(), i);
  }

  lemma {:induction false} KeptExtends(v: seq<Verdict>, m: nat, n: nat)
    requires m <= n <= |v|
    ensures Kept(v, m) <= Kept(v, n)
    decreases n
  {
    if m < n {
      KeptExtends(v, m, n - 1);
    }
  }

  // ---------- layout ----------

  /** The builder's transfers behind an accepted bundle's own transactions. */
  function RefundsBehind(sb: SimulatedBundle, v: Verdict): seq<Tx> {
    if v.Accepted? && |sb.bundle.txs| <= |v.sims| then Txs(v.sims)[|sb.bundle.txs|..] else []
  }

  /** Accepted bundles in order, each whole and followed by its refund. */
  function BundleTxs(processed: seq<SimulatedBundle>, v: seq<Verdict>, n: nat): seq<Tx>
    requires n <= |v| && n <= |processed|
    decreases n
  {
    if n == 0 then []
    else if v[n - 1].Accepted? then
      BundleTxs(processed, v, n - 1) + (processed[n - 1].bundle.txs + RefundsBehind(processed[n - 1], v[n - 1]))
    else BundleTxs(processed, v, n - 1)
  }

  /** Accepted bundles in order, without the refunds. */
  function UserTxs(processed: seq<SimulatedBundle>, v: seq<Verdict>, n: nat): seq<Tx>
    requires n <= |v| && n <= |processed|
    decreases n
  {
    if n == 0 then []
    else if v[n - 1].Accepted? then UserTxs(processed, v, n - 1) + processed[n - 1].bundle.txs
    else UserTxs(processed, v, n - 1)
  }

  function MempoolTxs(h: seq<Offer>, n: nat): seq<Tx>
    requires n <= |h|
  {
    if n == 0 then []
    else if h[n - 1].verdict.Included? then MempoolTxs(h, n - 1) + [h[n - 1].tx]
    else MempoolTxs(h, n - 1)
  }

  lemma TxsConcat(a: seq<SimTx>, b: seq<SimTx>)
    ensures Txs(a + b) == Txs(a) + Txs(b)
  {
  }

  lemma {:induction false} KeptLayout(cfg: BuildConfig, w: World, base: seq<SimTx>, processed: seq<SimulatedBundle>, v: seq<Verdict>, n: nat)
    requires Selected(cfg, w, base, processed, v) && n <= |v|
    requires Sound(cfg, w, base)
    ensures Txs(Kept(v, n)) == BundleTxs(processed, v, n)
    decreases n
  {
    if n > 0 {
      KeptLayout(cfg, w, base, processed, v, n - 1);
      KeptIsSound(cfg, w, base, processed, v, n - 1);
      SoundStep(cfg, w, base, processed, v, n - 1);
      LayoutStep(processed, v, n - 1);
    }
  }

  lemma LayoutStep(processed: seq<SimulatedBundle>, v: seq<Verdict>, n: nat)
    requires n < |v| <= |processed|
    requires Txs(Kept(v, n)) == BundleTxs(processed, v, n)
    requires v[n].Accepted? ==> Txs(v[n].sims) == processed[n].bundle.txs + RefundsBehind(processed[n], v[n])
    ensures Txs(Kept(v, n + 1)) == BundleTxs(processed, v, n + 1)
  {
    if v[n].Accepted? {
      TxsConcat(Kept(v, n), v[n].sims);
    }
  }

  lemma {:induction false} TakenLayout(cfg: BuildConfig, w: World, base: seq<SimTx>, committed: set<Hash>, pool: PoolIterator, h: seq<Offer>, n: nat)
    requires Offered(cfg, w, base, committed, pool, h) && n <= |h|
    ensures Txs(Taken(h, n)) == MempoolTxs(h, n)
    decreases n
  {
    if n > 0 {
      TakenLayout(cfg, w, base, committed, pool, h, n - 1);
      assert OfferedAt(cfg, w, base, committed, pool, h, n - 1);
      if h[n - 1].verdict.Included? {
        TxsConcat(Taken(h, n - 1), [h[n - 1].verdict.sim]);
      }
    }
  }

  /** The executed transactions of a run are the accepted bundles in sorted order, each with
      its whole transaction list and at most one refund behind it, followed by the included
      mempool transactions in the order the pool offered them. */
  lemma BlockLayout(cfg: BuildConfig, w: World, bundles: seq<RecoveredBundle>, pool: PoolIterator, run: Run)
    requires BuiltBy(cfg, w, bundles, pool, run)
    ensures Txs(run.Ledger()) ==
            BundleTxs(run.processed, run.verdicts, |run.verdicts|) + MempoolTxs(run.offers, |run.offers|)
    ensures forall i :: 0 <= i < |run.verdicts| ==> |RefundsBehind(run.processed[i], run.verdicts[i])| <= 1
  {
    KeptLayout(cfg, w, [], run.processed, run.verdicts, |run.verdicts|);
    forall i | 0 <= i < |run.verdicts|
      ensures |RefundsBehind(run.processed[i], run.verdicts[i])| <= 1
    {
      KeptIsSound(cfg, w, [], run.processed, run.verdicts, i);
      SoundStep(cfg, w, [], run.processed, run.verdicts, i);
    }
    TakenLayout(cfg, w, run.FromBundles(), KeptHashes(run.processed, run.verdicts, |run.verdicts|), pool, run.offers, |run.offers|);
    TxsConcat(run.FromBundles(), run.FromMempool());
  }

  // ---------- no transaction twice ----------

  predicate DistinctHashes(txs: seq<Tx>) {
    forall i, j :: 0 <= i < j < |txs| ==> txs[i].hash != txs[j].hash
  }

  function HashSet(txs: seq<Tx>): set<Hash> {
    set tx | tx in txs :: tx.hash
  }

  lemma HashSetConcat(a: seq<Tx>, b: seq<Tx>)
    ensures HashSet(a + b) == HashSet(a) + HashSet(b)
  {
  }

  lemma DistinctConcat(a: seq<Tx>, b: seq<Tx>)
    requires DistinctHashes(a) && DistinctHashes(b) && HashSet(a) !! HashSet(b)
    ensures DistinctHashes(a + b)
  {
    forall i, j | 0 <= i < j < |a + b|
      ensures (a + b)[i].hash != (a + b)[j].hash
    {
      if i < |a| <= j {
        assert a[i].hash in HashSet(a) && b[j - |a|].hash in HashSet(b);
      }
    }
  }

  lemma NotCommittedDisjoint(sb: SimulatedBundle, committed: set<Hash>)
    requires !ContainsCommitted(sb, committed)
    ensures sb.bundle.Hashes() !! committed
  {
    forall h | h in sb.bundle.Hashes() ensures h !in committed {
      var tx :| tx in sb.bundle.txs && tx.hash == h;
    }
  }

  lemma {:induction false} UserTxsDistinct(cfg: BuildConfig, w: World, base: seq<SimTx>, processed: seq<SimulatedBundle>, v: seq<Verdict>, n: nat)
    requires Selected(cfg, w, base, processed, v) && n <= |v|
    ensures KeptHashes(processed, v, n) == HashSet(UserTxs(processed, v, n))
    ensures (forall sb :: sb in processed ==> DistinctHashes(sb.bundle.txs)) ==> DistinctHashes(UserTxs(processed, v, n))
    decreases n
  {
    if n > 0 {
      UserTxsDistinct(cfg, w, base, processed, v, n - 1);
      assert JudgedAt(cfg, w, base, processed, v, n - 1);
      if v[n - 1].Accepted? {
        var before, sb := UserTxs(processed, v, n - 1), processed[n - 1];
        HashSetConcat(before, sb.bundle.txs);
        assert sb.bundle.Hashes() == HashSet(sb.bundle.txs);
        NotCommittedDisjoint(sb, KeptHashes(processed, v, n - 1));
        if forall sb :: sb in processed ==> DistinctHashes(sb.bundle.txs) {
          DistinctConcat(before, sb.bundle.txs);
        }
      }
    }
  }

  lemma {:induction false} MempoolTxsDistinct(cfg: BuildConfig, w: World, base: seq<SimTx>, user: seq<Tx>, pool: PoolIterator, h: seq<Offer>, n: nat)
    requires Offered(cfg, w, base, HashSet(user), pool, h) && n <= |h|
    ensures HashSet(user) + TakenHashes(h, n) == HashSet(user + MempoolTxs(h, n))
    ensures DistinctHashes(user) ==> DistinctHashes(user + MempoolTxs(h, n))
    decreases n
  {
    if n == 0 {
      assert user + MempoolTxs(h, n) == user;
    } else {
      MempoolTxsDistinct(cfg, w, base, user, pool, h, n - 1);
      assert OfferedAt(cfg, w, base, HashSet(user), pool, h, n - 1);
      if h[n - 1].verdict.Included? {
        var before := user + MempoolTxs(h, n - 1);
        assert user + MempoolTxs(h, n) == before + [h[n - 1].tx];
        HashSetConcat(before, [h[n - 1].tx]);
        assert HashSet([h[n - 1].tx]) == {h[n - 1].tx.hash};
        if DistinctHashes(user) {
          DistinctConcat(before, [h[n - 1].tx]);
        }
      }
    }
  }

  /** The committed hashes are exactly those of the bundle and mempool transactions in the
      block (refunds are not among them), and if no bundle repeats a transaction then none of
      these occurs twice. */
  lemma NothingIncludedTwice(cfg: BuildConfig, w: World, bundles: seq<RecoveredBundle>, pool: PoolIterator, run: Run)
    requires BuiltBy(cfg, w, bundles, pool, run)
    ensures var all := UserTxs(run.processed, run.verdicts, |run.verdicts|) + MempoolTxs(run.offers, |run.offers|);
            && run.Committed() == HashSet(all)
            && ((forall b :: b in bundles ==> DistinctHashes(b.txs)) ==> DistinctHashes(all))
  {
    var user := UserTxs(run.processed, run.verdicts, |run.verdicts|);
    UserTxsDistinct(cfg, w, [], run.processed, run.verdicts, |run.verdicts|);
    MempoolTxsDistinct(cfg, w, run.FromBundles(), user, pool, run.offers, |run.offers|);
    forall sb | sb in run.processed
      ensures sb.bundle in bundles
    {
      ProcessedComeFromPool(cfg, w, bundles, sb);
    }
  }

  lemma {:induction false} TopOfBlockComesFromPool(cfg: BuildConfig, w: World, bundles: seq<RecoveredBundle>, n: nat, sb: SimulatedBundle)
    requires n <= |bundles| && sb in TopOfBlock(cfg, w, bundles, n)
    ensures sb.bundle in bundles && Simulate(cfg, w, sb.bundle) == Success(sb)
    decreases n
  {
    var sim := Simulate(cfg, w, bundles[n - 1]);
    if sim.Success? && sb == sim.value {
      SimulateIsFaithful(cfg, w, bundles[n - 1]);
    } else {
      TopOfBlockComesFromPool(cfg, w, bundles, n - 1, sb);
    }
  }

  lemma ProcessedComeFromPool(cfg: BuildConfig, w: World, bundles: seq<RecoveredBundle>, sb: SimulatedBundle)
    requires sb in Processed(cfg, w, bundles)
    ensures sb.bundle in bundles && Simulate(cfg, w, sb.bundle) == Success(sb)
  {
    SortPermutes(TopOfBlock(cfg, w, bundles, |bundles|));
    assert sb in multiset(Processed(cfg, w, bundles));
    TopOfBlockComesFromPool(cfg, w, bundles, |bundles|, sb);
  }

  // ---------- why a bundle was left out ----------

  predicate SharesTx(a: SimulatedBundle, b: SimulatedBundle) {
    exists tx | tx in a.bundle.txs :: tx.hash in b.bundle.Hashes()
  }

  lemma {:induction false} CommittedByEarlier(processed: seq<SimulatedBundle>, v: seq<Verdict>, n: nat, h: Hash) returns (j: nat)
    requires n <= |v| <= |processed| && h in KeptHashes(processed, v, n)
    ensures j < n && v[j].Accepted? && h in processed[j].bundle.Hashes()
    decreases n
  {
    if v[n - 1].Accepted? && h in processed[n - 1].bundle.Hashes() {
      j := n - 1;
    } else {
      j := CommittedByEarlier(processed, v, n - 1, h);
    }
  }

  /** Bundle i was passed over for a reason one can point to. */
  ghost predicate LeftOutFor(cfg: BuildConfig, w: World, processed: seq<SimulatedBundle>, v: seq<Verdict>, i: nat)
    requires i < |v| <= |processed|
  {
    match v[i]
    case Accepted(_) => false
    case Blacklisted => ContainsOfac(cfg, processed[i])
    case Conflicting => exists j :: 0 <= j < i && v[j].Accepted? && SharesTx(processed[i], processed[j])
                                    && processed[j].Value() >= processed[i].Value()
    case Rejected(e) =>
      !e.PayloadBuilder? && ExecBundle(cfg, Replay(w, Kept(v, i)), Total(Kept(v, i)), processed[i].bundle) == Failure(e)
  }

  lemma LeftOutAt(cfg: BuildConfig, w: World, processed: seq<SimulatedBundle>, v: seq<Verdict>, i: nat)
    requires i < |v| <= |processed| && !v[i].Accepted? && Descending(processed)
    requires Judge(cfg, w, Kept(v, i), KeptHashes(processed, v, i), processed[i]) == Success(v[i])
    ensures LeftOutFor(cfg, w, processed, v, i)
  {
    if v[i].Conflicting? {
      var tx :| tx in processed[i].bundle.txs && tx.hash in KeptHashes(processed, v, i);
      var j := CommittedByEarlier(processed, v, i, tx.hash);
      assert SharesTx(processed[i], processed[j]);
    }
  }

  /** Every processed bundle that is not in the block had a blacklisted party, shared a
      transaction with an accepted bundle of at least its value, or failed again at its turn;
      and the values of the accepted bundles never increase. */
  lemma LeftOutExplained(cfg: BuildConfig, w: World, bundles: seq<RecoveredBundle>, pool: PoolIterator, run: Run, i: nat)
    requires BuiltBy(cfg, w, bundles, pool, run) && i < |run.verdicts|
    ensures !run.verdicts[i].Accepted? ==> LeftOutFor(cfg, w, run.processed, run.verdicts, i)
    ensures forall j :: 0 <= j < i ==> run.processed[j].Value() >= run.processed[i].Value()
  {
    var processed, v := run.processed, run.verdicts;
    SortDescends(TopOfBlock(cfg, w, bundles, |bundles|));
    assert JudgedAt(cfg, w, [], processed, v, i);
    assert [] + Kept(v, i) == Kept(v, i);
    if !v[i].Accepted? {
      LeftOutAt(cfg, w, processed, v, i);
    }
  }
}
