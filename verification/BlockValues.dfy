/** What block value says about the builder's gain, and when it says exactly that. */
module BlockValues {
  import opened Wrappers
  import opened Evm
  import opened Bundles
  import opened Ledger
  import opened Simulation

  // ---------- recorded transactions ----------

  /** Balance the coinbase account's balance after transaction i was compared with. It is the
      real one, except behind a transaction of the same bundle that did not touch the account:
      then it is 0. `carried[i]` is whether i was simulated behind i - 1 in one bundle. */
  function SeenAt(cfg: BuildConfig, w: World, l: seq<SimTx>, carried: seq<bool>, i: nat): nat
    requires i < |l| == |carried|
  {
    if i > 0 && carried[i] && cfg.coinbase !in l[i - 1].state then 0
    else Balance(ReplayTo(w, l, i), cfg.coinbase)
  }

  ghost predicate RecordedAt(cfg: BuildConfig, w: World, l: seq<SimTx>, carried: seq<bool>, i: nat)
    requires i < |l| == |carried|
  {
    l[i] == Record(cfg, l[i].tx, SeenAt(cfg, w, l, carried, i), EvmResult(l[i].success, l[i].gasUsed, l[i].state))
  }

  ghost predicate Recorded(cfg: BuildConfig, w: World, l: seq<SimTx>, carried: seq<bool>) {
    && |carried| == |l|
    && forall i: nat {:trigger RecordedAt(cfg, w, l, carried, i)} :: i < |l| ==> RecordedAt(cfg, w, l, carried, i)
  }

  lemma RecordedConcat(cfg: BuildConfig, w: World, a: seq<SimTx>, b: seq<SimTx>, inA: seq<bool>, inB: seq<bool>)
    requires Recorded(cfg, w, a, inA) && Recorded(cfg, Replay(w, a), b, inB)
    requires |inB| > 0 ==> !inB[0]
    ensures Recorded(cfg, w, a + b, inA + inB)
  {
    var l, carried := a + b, inA + inB;
    forall i: nat | i < |l|
      ensures RecordedAt(cfg, w, l, carried, i)
    {
      if i < |a| {
        PrefixTo(w, a, l, i);
        assert RecordedAt(cfg, w, a, inA, i);
      } else {
        var k := i - |a|;
        ReplayConcatTo(w, a, b, k);
        assert RecordedAt(cfg, Replay(w, a), b, inB, k);
        assert l[i] == b[k] && carried[i] == inB[k];
        assert k > 0 ==> l[i - 1] == b[k - 1];
      }
    }
  }

  /** A transaction simulated on its own, not behind others of a bundle. */
  lemma RecordedAlone(cfg: BuildConfig, w: World, a: seq<SimTx>, inA: seq<bool>, s: SimTx)
    requires Recorded(cfg, w, a, inA)
    requires SimulateTx(cfg, Replay(w, a), Balance(Replay(w, a), cfg.coinbase), s.tx) == Success(s)
    ensures Recorded(cfg, w, a + [s], inA + [false])
  {
    assert RecordedAt(cfg, Replay(w, a), [s], [false], 0);
    RecordedConcat(cfg, w, a, [s], inA, [false]);
  }

  /** Among `n` transactions the first `own` are a bundle's own: all but the first of these were
      simulated behind another one of the bundle. */
  function CarriedIn(own: nat, n: nat): (r: seq<bool>)
    ensures |r| == n && forall k :: 0 <= k < n ==> r[k] == (0 < k < own)
  {
    seq(n, k => 0 < k < own)
  }

  lemma TxsRecorded(cfg: BuildConfig, w: World, txs: seq<Tx>)
    requires SimulateTo(cfg, w, txs, |txs|).Success?
    ensures Recorded(cfg, w, SimulateTo(cfg, w, txs, |txs|).value, CarriedIn(|txs|, |txs|))
  {
    var l := SimulateTo(cfg, w, txs, |txs|).value;
    forall i: nat | i < |l|
      ensures RecordedAt(cfg, w, l, CarriedIn(|txs|, |txs|), i)
    {
      SimulatedAt(cfg, w, txs, i);
    }
  }

  lemma BundleRecorded(cfg: BuildConfig, w: World, bundle: RecoveredBundle)
    requires Simulate(cfg, w, bundle).Success?
    ensures var sims := Simulate(cfg, w, bundle).value.sims;
            Recorded(cfg, w, sims, CarriedIn(|bundle.txs|, |sims|))
  {
    var n := |bundle.txs|;
    var l, sims := SimulateTo(cfg, w, bundle.txs, n).value, Simulate(cfg, w, bundle).value.sims;
    TxsRecorded(cfg, w, bundle.txs);
    if sims != l {
      RecordedAlone(cfg, w, l, CarriedIn(n, n), sims[n]);
      assert CarriedIn(n, n) + [false] == CarriedIn(n, n + 1);
      assert sims == l + [sims[n]];
    }
  }

  // ---------- exactness ----------

  ghost predicate GainsItsFees(cfg: BuildConfig, w: World, l: seq<SimTx>, i: nat)
    requires i < |l|
  {
    Balance(ReplayTo(w, l, i + 1), cfg.coinbase) - Balance(ReplayTo(w, l, i), cfg.coinbase) >= l[i].fees
  }

  /** The coinbase account gains at least the fees of transaction i; and if i touches it behind a
      transaction of the same bundle that did not, its balance before is 0. */
  ghost predicate ExactAt(cfg: BuildConfig, w: World, l: seq<SimTx>, carried: seq<bool>, i: nat)
    requires i < |l| == |carried|
  {
    && GainsItsFees(cfg, w, l, i)
    && (i > 0 && carried[i] && cfg.coinbase !in l[i - 1].state && cfg.coinbase in l[i].state ==>
          Balance(ReplayTo(w, l, i), cfg.coinbase) == 0)
  }

  lemma ExactIff(cfg: BuildConfig, w: World, l: seq<SimTx>, carried: seq<bool>, i: nat)
    requires i < |l| == |carried| && RecordedAt(cfg, w, l, carried, i)
    ensures OvercountAt(cfg, w, l, i) == 0 <==> ExactAt(cfg, w, l, carried, i)
  {
    assert ReplayTo(w, l, i + 1) == ReplayTo(w, l, i) + l[i].state;
  }

  /** Recorded value is never below the coinbase account's gain, and states it exactly when every
      transaction brings the account at least its fees and is compared with its real balance. */
  lemma ValueIsGainIff(cfg: BuildConfig, w: World, l: seq<SimTx>, carried: seq<bool>)
    requires Genuine(cfg, w, l) && Recorded(cfg, w, l, carried)
    ensures var gain := Balance(Replay(w, l), cfg.coinbase) - Balance(w, cfg.coinbase);
            && BlockValue(l) >= gain
            && (BlockValue(l) == gain <==>
                  forall i: nat {:trigger ExactAt(cfg, w, l, carried, i)} :: i < |l| ==> ExactAt(cfg, w, l, carried, i))
  {
    RecordedValueCoversGain(cfg, w, l);
    forall i: nat | i < |l|
      ensures OvercountAt(cfg, w, l, i) == 0 <==> ExactAt(cfg, w, l, carried, i)
    {
      assert RecordedAt(cfg, w, l, carried, i);
      ExactIff(cfg, w, l, carried, i);
    }
  }

  /** For a bundle of any length and any coinbase balances, fees and coinbase transfers recorded
      in its simulation add up to at least the account's gain; and to exactly that when each
      transaction raises the balance by at least its fees, and none that touches the account comes
      directly behind one that does not, unless the balance is 0 there. */
  lemma BundleValueIsGainIff(cfg: BuildConfig, w: World, txs: seq<Tx>)
    requires SimulateTo(cfg, w, txs, |txs|).Success?
    ensures var l := SimulateTo(cfg, w, txs, |txs|).value;
            var gain, carried := Balance(Replay(w, l), cfg.coinbase) - Balance(w, cfg.coinbase), CarriedIn(|l|, |l|);
            && BlockValue(l) >= gain
            && (BlockValue(l) == gain <==>
                  forall i: nat {:trigger ExactAt(cfg, w, l, carried, i)} :: i < |l| ==> ExactAt(cfg, w, l, carried, i))
  {
    SimulateToGenuine(cfg, w, txs, |txs|);
    TxsRecorded(cfg, w, txs);
    ValueIsGainIff(cfg, w, SimulateTo(cfg, w, txs, |txs|).value, CarriedIn(|txs|, |txs|));
  }

  lemma {:induction false} OvercountAtLeast(cfg: BuildConfig, w: World, l: seq<SimTx>, i: nat, n: nat)
    requires Genuine(cfg, w, l) && i < n <= |l|
    ensures OvercountTo(cfg, w, l, n) >= OvercountAt(cfg, w, l, i)
    decreases n
  {
    assert ProducedAt(cfg, w, l, n - 1);
    if i < n - 1 {
      OvercountAtLeast(cfg, w, l, i, n - 1);
    } else {
      OvercountZeroIffAllExact(cfg, w, l, n - 1);
    }
  }

  /** A transaction that lowers the coinbase balance is not subtracted: block value exceeds the
      gain by at least what it takes. */
  lemma LossIsNotSubtracted(cfg: BuildConfig, w: World, l: seq<SimTx>, i: nat)
    requires Genuine(cfg, w, l) && i < |l|
    ensures BlockValue(l) >= Balance(Replay(w, l), cfg.coinbase) - Balance(w, cfg.coinbase)
                             + Balance(ReplayTo(w, l, i), cfg.coinbase) - Balance(ReplayTo(w, l, i + 1), cfg.coinbase)
  {
    ValueIsGainPlusOvercount(cfg, w, l, |l|);
    OvercountAtLeast(cfg, w, l, i, |l|);
  }
}
