/** A build that a single stale nonce fails. */
module FailingBuild {
  import opened Wrappers
  import opened Evm
  import opened Bundles
  import opened Ledger
  import opened Simulation
  import opened BundleOrder
  import opened BuildStates
  import opened BundlesStrat

  /** Every transaction uses 21000 gas, raises its signer's nonce and pays nothing; a nonce below
      the signer's and a gas limit below 21000 are refused. */
  function PlainEvm(w: World, tx: Tx): Result<EvmResult, EvmError> {
    if tx.nonce < Nonce(w, tx.signer) then Failure(NonceTooLow)
    else if tx.gasLimit < 21000 then Failure(InvalidTransaction)
    else Success(EvmResult(true, 21000, map[tx.signer := Account(tx.nonce + 1, 0, 0, map[])]))
  }

  function PlainConfig(blockGasLimit: nat): BuildConfig {
    BuildConfig(1, 1, blockGasLimit, 0, 0, 0, {}, PlainEvm, (nonce, recipient, amount) => 0)
  }

  /** All transactions are by the same signer. */
  function PlainTx(hash: Hash, nonce: nat, gasLimit: nat): Tx {
    Tx(hash, 7, None, nonce, 0, gasLimit, 0, None, None)
  }

  function SignerAt(nonce: nat): World {
    map[7 := Account(nonce, 0, 0, map[])]
  }

  function PlainSim(tx: Tx): SimTx {
    SimTx(tx, true, SignerAt(tx.nonce + 1), 21000, 0, 0, 0)
  }

  lemma PlainSimulates(limit: nat, w: World, seen: nat, hash: Hash, gasLimit: nat)
    requires gasLimit >= 21000
    ensures var tx := PlainTx(hash, Nonce(w, 7), gasLimit);
            SimulateTx(PlainConfig(limit), w, seen, tx) == Success(PlainSim(tx))
  {
  }

  lemma AppendOne(w: World, s: SimTx)
    ensures Replay(w, [s]) == w + s.state && Total([s]) == Totals(s.gasUsed, s.blobGasUsed, s.fees, s.coinbaseTransfer)
  {
    assert ReplayTo(w, [s], 0) == w && TotalTo([s], 0) == Totals(0, 0, 0, 0);
  }

  function PlainBundle(hash: Hash): RecoveredBundle {
    RecoveredBundle([PlainTx(hash, 0, 21000)], [], None)
  }

  function PlainSimulated(hash: Hash): SimulatedBundle {
    SimulatedBundle(PlainBundle(hash), [PlainSim(PlainTx(hash, 0, 21000))], BundleOutcome(None, Totals(21000, 0, 0, 0), 0))
  }

  lemma PlainTxsSimulate(limit: nat, w: World, hash: Hash)
    requires Nonce(w, 7) == 0
    ensures SimulateTo(PlainConfig(limit), w, PlainBundle(hash).txs, 1) == Success(PlainSimulated(hash).sims)
  {
    var cfg, txs := PlainConfig(limit), PlainBundle(hash).txs;
    var l := SimulateTo(cfg, w, txs, 0).value;
    assert SimulateTo(cfg, w, txs, 1) == Continue(cfg, w, l, txs[0]);
    assert Replay(w, l) == w;
    PlainSimulates(limit, w, Seen(cfg, w, l), hash, 21000);
    assert l + [PlainSim(txs[0])] == PlainSimulated(hash).sims;
  }

  lemma PlainBundleSimulates(limit: nat, w: World, hash: Hash)
    requires Nonce(w, 7) == 0
    ensures Simulate(PlainConfig(limit), w, PlainBundle(hash)) == Success(PlainSimulated(hash))
  {
    PlainTxsSimulate(limit, w, hash);
    AppendOne(w, PlainSimulated(hash).sims[0]);
  }

  lemma PlainValue(hash: Hash)
    ensures PlainSimulated(hash).Value() == 0
  {
  }

  lemma TopOfTwo(cfg: BuildConfig, w: World, bundles: seq<RecoveredBundle>, a: SimulatedBundle, b: SimulatedBundle)
    requires |bundles| == 2
    requires Simulate(cfg, w, bundles[0]) == Success(a) && Simulate(cfg, w, bundles[1]) == Success(b)
    ensures TopOfBlock(cfg, w, bundles, 2) == [a, b]
  {
    var none := TopOfBlock(cfg, w, bundles, 0);
    assert |none| == 0;
    assert TopOfBlock(cfg, w, bundles, 1) == none + [a];
  }

  lemma SortOfTwo(a: SimulatedBundle, b: SimulatedBundle)
    requires a.Value() == b.Value()
    ensures SortByMaxValue([a, b]) == [a, b]
  {
    assert [a, b][..1] == [a] && |[a][..0]| == 0;
    assert SortByMaxValue([a]) == [a];
  }

  lemma ProcessedOfTwo(cfg: BuildConfig, w: World, bundles: seq<RecoveredBundle>, top: seq<SimulatedBundle>)
    requires |bundles| == 2 && TopOfBlock(cfg, w, bundles, 2) == top
    ensures Processed(cfg, w, bundles) == SortByMaxValue(top)
  {
  }

  /** Two bundles of one sender with the same nonce: each simulates well at the top of the block,
      and the second one's stale nonce fails the whole attempt. */
  lemma StaleNonceFailsBuild()
    ensures Simulate(PlainConfig(30_000_000), map[], PlainBundle(1)).Success?
    ensures Simulate(PlainConfig(30_000_000), map[], PlainBundle(2)).Success?
    ensures BundlePhaseErrs(PlainConfig(30_000_000), map[], [PlainBundle(1), PlainBundle(2)])
  {
    var bundles := [PlainBundle(1), PlainBundle(2)];
    PlainBundleSimulates(30_000_000, map[], 1);
    PlainBundleSimulates(30_000_000, map[], 2);
    PlainValue(1);
    PlainValue(2);
    TopOfTwo(PlainConfig(30_000_000), map[], bundles, PlainSimulated(1), PlainSimulated(2));
    SortOfTwo(PlainSimulated(1), PlainSimulated(2));
    ProcessedOfTwo(PlainConfig(30_000_000), map[], bundles, [PlainSimulated(1), PlainSimulated(2)]);
    SecondErrs();
  }

  lemma VerdictsOfOne(cfg: BuildConfig, w: World, p: seq<SimulatedBundle>, x: Verdict)
    requires |p| > 0 && Judge(cfg, w, Kept([], 0), {}, p[0]) == Success(x)
    ensures Verdicts(cfg, w, p, 1) == Success([x])
  {
    var v := Verdicts(cfg, w, p, 0).value;
    assert v == [] && v + [x] == [x];
    assert KeptHashes(p, v, 0) == {};
  }

  lemma FirstAccepted(p: seq<SimulatedBundle>)
    requires p == [PlainSimulated(1), PlainSimulated(2)]
    ensures Verdicts(PlainConfig(30_000_000), map[], p, 1) == Success([Accepted(PlainSimulated(1).sims)])
  {
    var cfg, w: World, none := PlainConfig(30_000_000), map[], Kept([], 0);
    assert Replay(w, none) == w;
    PlainBundleSimulates(30_000_000, w, 1);
    VerdictsOfOne(cfg, w, p, Accepted(PlainSimulated(1).sims));
  }

  lemma SecondErrs()
    ensures BundleErrs(PlainConfig(30_000_000), map[], [PlainSimulated(1), PlainSimulated(2)], 1)
  {
    var cfg, w: World, p := PlainConfig(30_000_000), map[], [PlainSimulated(1), PlainSimulated(2)];
    FirstAccepted(p);
    var v := [Accepted(PlainSimulated(1).sims)];
    assert Kept(v, 1) == PlainSimulated(1).sims;
    AppendOne(w, PlainSimulated(1).sims[0]);
    var u := Replay(w, Kept(v, 1));
    assert Nonce(u, 7) == 1;
    assert StateAfter(cfg, u, p[1].bundle.txs, 0) == Some(u);
    assert ErrsAt(cfg, u, p[1].bundle.txs, 0);
    assert KeptHashes(p, v, 1) == {1};
  }
}
