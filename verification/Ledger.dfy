/** The transactions a build has committed, what they add up to and what state they lead to. */
module Ledger {
  import opened Wrappers
  import opened Evm

  /** A transaction with the outcome of its simulation. */
  datatype SimTx = SimTx(
    tx: Tx,
    success: bool,
    state: World,
    gasUsed: nat,
    blobGasUsed: nat,
    fees: nat,
    coinbaseTransfer: nat)

  datatype Totals = Totals(gas: nat, blobGas: nat, fees: nat, coinbase: nat) {
    function Plus(s: SimTx): Totals {
      Totals(gas + s.gasUsed, blobGas + s.blobGasUsed, fees + s.fees, coinbase + s.coinbaseTransfer)
    }

    predicate IsSumOf(a: Totals, b: Totals) {
      && gas == a.gas + b.gas && blobGas == a.blobGas + b.blobGas
      && fees == a.fees + b.fees && coinbase == a.coinbase + b.coinbase
    }
  }

  /** Sums over the first `n` transactions. */
  function TotalTo(l: seq<SimTx>, n: nat): Totals
    requires n <= |l|
  {
    if n == 0 then Totals(0, 0, 0, 0) else TotalTo(l, n - 1).Plus(l[n - 1])
  }

  /** The state after writing the touched accounts of the first `n` transactions in order. */
  function ReplayTo(w: World, l: seq<SimTx>, n: nat): World
    requires n <= |l|
  {
    if n == 0 then w else ReplayTo(w, l, n - 1) + l[n - 1].state
  }

  function Total(l: seq<SimTx>): Totals {
    TotalTo(l, |l|)
  }

  function Replay(w: World, l: seq<SimTx>): World {
    ReplayTo(w, l, |l|)
  }

  /** Block value: priority fees plus coinbase transfers, added up without bounds. */
  function BlockValue(l: seq<SimTx>): nat {
    Total(l).fees + Total(l).coinbase
  }

  function Txs(l: seq<SimTx>): (txs: seq<Tx>)
    ensures |txs| == |l| && forall i :: 0 <= i < |l| ==> txs[i] == l[i].tx
  {
    seq(|l|, i requires 0 <= i < |l| => l[i].tx)
  }

  datatype Receipt = Receipt(success: bool, cumulativeGasUsed: nat)

  function Receipts(l: seq<SimTx>): (r: seq<Receipt>)
    ensures |r| == |l|
    ensures forall i {:trigger r[i]} :: 0 <= i < |l| ==> r[i] == Receipt(l[i].success, TotalTo(l, i + 1).gas)
  {
    seq(|l|, i requires 0 <= i < |l| => Receipt(l[i].success, TotalTo(l, i + 1).gas))
  }

  datatype ExecutionDetails = ExecutionDetails(
    executedTxs: seq<Tx>,
    receipts: seq<Receipt>,
    cumulativeGasUsed: nat,
    cumulativeBlobGasUsed: nat,
    sumFees: nat,
    sumCoinbaseTransfers: nat,
    builderPayment: Option<nat>)

  /** The execution details that committing exactly `l` must leave behind: receipt i carries the
      gas of transactions 0 to i, and each sum is the sum over all of `l`. */
  function DetailsOf(l: seq<SimTx>, payment: Option<nat>): ExecutionDetails {
    var t := Total(l);
    ExecutionDetails(Txs(l), Receipts(l), t.gas, t.blobGas, t.fees, t.coinbase, payment)
  }

  /** `s` is what the EVM makes of its transaction in state `w`, and the value recorded for it
      is no less than what the coinbase account gained. */
  ghost predicate Produced(cfg: BuildConfig, w: World, s: SimTx) {
    && cfg.transact(w, s.tx) == Success(EvmResult(s.success, s.gasUsed, s.state))
    && s.blobGasUsed == s.tx.blobGas.GetOr(0)
    && s.fees == s.tx.EffectiveTip(cfg.baseFee).GetOr(0) * s.gasUsed
    && Overcount(cfg, w, s) >= 0
  }

  /** Recorded value of a transaction minus the coinbase account's gain from it. */
  function Overcount(cfg: BuildConfig, w: World, s: SimTx): int {
    s.fees + s.coinbaseTransfer - (Balance(w + s.state, cfg.coinbase) - Balance(w, cfg.coinbase))
  }

  /** Every transaction of `l` was produced in the state left by the ones before it. */
  ghost predicate Genuine(cfg: BuildConfig, w: World, l: seq<SimTx>) {
    forall i {:trigger ProducedAt(cfg, w, l, i)} :: 0 <= i < |l| ==> ProducedAt(cfg, w, l, i)
  }

  ghost predicate ProducedAt(cfg: BuildConfig, w: World, l: seq<SimTx>, i: nat)
    requires i < |l|
  {
    Produced(cfg, ReplayTo(w, l, i), l[i])
  }

  // ---------- appending ----------

  lemma {:induction false} PrefixTo(w: World, a: seq<SimTx>, b: seq<SimTx>, n: nat)
    requires n <= |a| && n <= |b| && a[..n] == b[..n]
    ensures TotalTo(a, n) == TotalTo(b, n)
    ensures ReplayTo(w, a, n) == ReplayTo(w, b, n)
  {
    if n > 0 {
      assert a[n - 1] == a[..n][n - 1] == b[n - 1];
      assert a[..n - 1] == a[..n][..n - 1] == b[..n - 1];
      PrefixTo(w, a, b, n - 1);
    }
  }

  lemma {:induction false} ReplayConcatTo(w: World, a: seq<SimTx>, b: seq<SimTx>, n: nat)
    requires n <= |b|
    ensures ReplayTo(w, a + b, |a| + n) == ReplayTo(Replay(w, a), b, n)
  {
    if n == 0 {
      PrefixTo(w, a, a + b, |a|);
    } else {
      ReplayConcatTo(w, a, b, n - 1);
      assert (a + b)[|a| + n - 1] == b[n - 1];
    }
  }

  lemma {:induction false} TotalConcatTo(a: seq<SimTx>, b: seq<SimTx>, n: nat)
    requires n <= |b|
    ensures TotalTo(a + b, |a| + n).IsSumOf(Total(a), TotalTo(b, n))
  {
    if n == 0 {
      PrefixTo(map[], a, a + b, |a|);
    } else {
      TotalConcatTo(a, b, n - 1);
      assert (a + b)[|a| + n - 1] == b[n - 1];
    }
  }

  lemma Concat(w: World, a: seq<SimTx>, b: seq<SimTx>)
    ensures Total(a + b).IsSumOf(Total(a), Total(b))
    ensures Replay(w, a + b) == Replay(Replay(w, a), b)
  {
    TotalConcatTo(a, b, |b|);
    ReplayConcatTo(w, a, b, |b|);
  }

  lemma Append(w: World, l: seq<SimTx>, s: SimTx)
    ensures Total(l + [s]) == Total(l).Plus(s)
    ensures Replay(w, l + [s]) == Replay(w, l) + s.state
    ensures Txs(l + [s]) == Txs(l) + [s.tx]
    ensures Receipts(l + [s]) == Receipts(l) + [Receipt(s.success, Total(l).gas + s.gasUsed)]
  {
    forall i | 0 <= i <= |l|
      ensures TotalTo(l + [s], i) == TotalTo(l, i) && ReplayTo(w, l + [s], i) == ReplayTo(w, l, i)
    {
      PrefixTo(w, l, l + [s], i);
    }
  }

  lemma GenuineConcat(cfg: BuildConfig, w: World, a: seq<SimTx>, b: seq<SimTx>)
    requires Genuine(cfg, w, a) && Genuine(cfg, Replay(w, a), b)
    ensures Genuine(cfg, w, a + b)
  {
    var l := a + b;
    forall i | 0 <= i < |l|
      ensures ProducedAt(cfg, w, l, i)
    {
      if i < |a| {
        PrefixTo(w, a, l, i);
        assert ProducedAt(cfg, w, a, i);
      } else {
        ReplayConcatTo(w, a, b, i - |a|);
        assert ProducedAt(cfg, Replay(w, a), b, i - |a|);
        assert l[i] == b[i - |a|];
      }
    }
  }

  // ---------- a block, executed by somebody else ----------

  datatype Executed = Executed(world: World, gas: nat, receipts: seq<Receipt>)

  /** A transaction whose gas limit exceeds the gas left in the block makes the block invalid,
      however little gas it would use. */
  function ExecuteTx(cfg: BuildConfig, e: Executed, tx: Tx): Option<Executed> {
    if e.gas + tx.gasLimit > cfg.blockGasLimit then None
    else
      match cfg.transact(e.world, tx)
      case Failure(_) => None
      case Success(r) =>
        var gas := e.gas + r.gasUsed;
        Some(Executed(e.world + r.state, gas, e.receipts + [Receipt(r.success, gas)]))
  }

  /** What a node does with the first `n` transactions of a block body: check each gas limit
      against the gas left, run the transaction on the state left by the one before, write its
      touched accounts, accumulate gas into the receipts. */
  function ExecuteBlock(cfg: BuildConfig, w: World, txs: seq<Tx>, n: nat): Option<Executed>
    requires n <= |txs|
    decreases n
  {
    if n == 0 then Some(Executed(w, 0, []))
    else
      var before := ExecuteBlock(cfg, w, txs, n - 1);
      if before.None? then None else ExecuteTx(cfg, before.value, txs[n - 1])
  }

  /** The block state after the first `n` transactions of a ledger. */
  function Reached(w: World, l: seq<SimTx>, n: nat): Executed
    requires n <= |l|
  {
    Executed(ReplayTo(w, l, n), TotalTo(l, n).gas, Receipts(l)[..n])
  }

  /** The gas limit of transaction i, not only the gas it uses, fits into what is left of the block. */
  ghost predicate LimitFits(cfg: BuildConfig, l: seq<SimTx>, i: nat)
    requires i < |l|
  {
    TotalTo(l, i).gas + l[i].tx.gasLimit <= cfg.blockGasLimit
  }

  ghost predicate LimitsFit(cfg: BuildConfig, l: seq<SimTx>, n: nat)
    requires n <= |l|
  {
    forall i: nat {:trigger LimitFits(cfg, l, i)} :: i < n ==> LimitFits(cfg, l, i)
  }

  lemma ReachedStep(cfg: BuildConfig, w: World, l: seq<SimTx>, n: nat)
    requires n < |l| && ProducedAt(cfg, w, l, n)
    ensures ExecuteTx(cfg, Reached(w, l, n), l[n].tx) ==
            if LimitFits(cfg, l, n) then Some(Reached(w, l, n + 1)) else None
  {
    assert Receipts(l)[..n + 1] == Receipts(l)[..n] + [Receipts(l)[n]];
  }

  /** The transactions of a genuine ledger, executed one after another on the state it started
      from and with no overlay in between, succeed exactly when each gas limit fits into what the
      ones before left; and then with the same state, gas and receipts after every prefix. */
  lemma {:induction false} BlockReplaysIff(cfg: BuildConfig, w: World, l: seq<SimTx>, n: nat)
    requires Genuine(cfg, w, l) && n <= |l|
    ensures ExecuteBlock(cfg, w, Txs(l), n) == if LimitsFit(cfg, l, n) then Some(Reached(w, l, n)) else None
  {
    if n > 0 {
      BlockReplaysIff(cfg, w, l, n - 1);
      ReachedStep(cfg, w, l, n - 1);
    }
  }

  // ---------- recorded value against the coinbase account ----------

  function OvercountAt(cfg: BuildConfig, w: World, l: seq<SimTx>, i: nat): int
    requires i < |l|
  {
    Overcount(cfg, ReplayTo(w, l, i), l[i])
  }

  function OvercountTo(cfg: BuildConfig, w: World, l: seq<SimTx>, n: nat): int
    requires n <= |l|
    decreases n
  {
    if n == 0 then 0 else OvercountTo(cfg, w, l, n - 1) + OvercountAt(cfg, w, l, n - 1)
  }

  lemma {:induction false} ValueIsGainPlusOvercount(cfg: BuildConfig, w: World, l: seq<SimTx>, n: nat)
    requires n <= |l|
    ensures TotalTo(l, n).fees + TotalTo(l, n).coinbase ==
            Balance(ReplayTo(w, l, n), cfg.coinbase) - Balance(w, cfg.coinbase) + OvercountTo(cfg, w, l, n)
  {
    if n > 0 {
      ValueIsGainPlusOvercount(cfg, w, l, n - 1);
    }
  }

  ghost predicate AllExact(cfg: BuildConfig, w: World, l: seq<SimTx>, n: nat)
    requires n <= |l|
  {
    forall i {:trigger OvercountAt(cfg, w, l, i)} :: 0 <= i < n ==> OvercountAt(cfg, w, l, i) == 0
  }

  lemma {:induction false} OvercountZeroIffAllExact(cfg: BuildConfig, w: World, l: seq<SimTx>, n: nat)
    requires Genuine(cfg, w, l) && n <= |l|
    ensures OvercountTo(cfg, w, l, n) >= 0
    ensures OvercountTo(cfg, w, l, n) == 0 <==> AllExact(cfg, w, l, n)
  {
    if n > 0 {
      OvercountZeroIffAllExact(cfg, w, l, n - 1);
      assert ProducedAt(cfg, w, l, n - 1);
    }
  }

  /** The recorded value is never below what the coinbase account gained, and is more as soon as
      one transaction was recorded above its own gain. */
  lemma RecordedValueCoversGain(cfg: BuildConfig, w: World, l: seq<SimTx>)
    requires Genuine(cfg, w, l)
    ensures BlockValue(l) >= Balance(Replay(w, l), cfg.coinbase) - Balance(w, cfg.coinbase)
    ensures BlockValue(l) == Balance(Replay(w, l), cfg.coinbase) - Balance(w, cfg.coinbase)
       <==> AllExact(cfg, w, l, |l|)
  {
    ValueIsGainPlusOvercount(cfg, w, l, |l|);
    OvercountZeroIffAllExact(cfg, w, l, |l|);
  }
}
