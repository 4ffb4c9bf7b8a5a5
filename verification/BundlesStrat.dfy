/** Choosing bundles greedily, filling up from the mempool, and deciding whether the build is
    better than the best one so far. */
module BundlesStrat {
  import opened Wrappers
  import opened Words
  import opened Evm
  import opened Bundles
  import opened Ledger
  import opened Simulation
  import opened BundleOrder
  import opened BuildStates

  // ---------- bundles ----------

  /** What became of a processed bundle at its turn. */
  datatype Verdict =
    | Accepted(sims: seq<SimTx>)
    | Blacklisted
    | Conflicting
    | Rejected(error: ExecError)

  predicate ContainsOfac(cfg: BuildConfig, sb: SimulatedBundle) {
    exists tx | tx in sb.bundle.txs :: cfg.Blacklisted(tx)
  }

  predicate ContainsCommitted(sb: SimulatedBundle, committed: set<Hash>) {
    exists tx | tx in sb.bundle.txs :: tx.hash in committed
  }

  /** The turn of a bundle behind ledger `l`. An EVM error ends the whole build. */
  function Judge(cfg: BuildConfig, w: World, l: seq<SimTx>, committed: set<Hash>, sb: SimulatedBundle)
    : Result<Verdict, EvmError>
  {
    if ContainsOfac(cfg, sb) then Success(Blacklisted)
    else if ContainsCommitted(sb, committed) then Success(Conflicting)
    else
      match ExecBundle(cfg, Replay(w, l), Total(l), sb.bundle)
      case Success(x) => Success(Accepted(x.sims))
      case Failure(PayloadBuilder(e)) => Failure(e)
      case Failure(e) => Success(Rejected(e))
  }

  /** A bundle that is neither blacklisted nor conflicting has its turn, and the EVM rejects one
      of its transactions on the state the ones before left. */
  ghost predicate ErrsAtTurn(cfg: BuildConfig, w: World, l: seq<SimTx>, committed: set<Hash>, sb: SimulatedBundle) {
    && !ContainsOfac(cfg, sb) && !ContainsCommitted(sb, committed)
    && exists k: nat :: ErrsAt(cfg, Replay(w, l), sb.bundle.txs, k)
  }

  lemma JudgeErrsIff(cfg: BuildConfig, w: World, l: seq<SimTx>, committed: set<Hash>, sb: SimulatedBundle)
    ensures Judge(cfg, w, l, committed, sb).Failure? <==> ErrsAtTurn(cfg, w, l, committed, sb)
  {
    SimulateErrsIff(cfg, Replay(w, l), sb.bundle);
  }

  /** Everything the first `n` bundles committed, and the hashes of their own transactions. */
  function Kept(v: seq<Verdict>, n: nat): seq<SimTx>
    requires n <= |v|
  {
    if n == 0 then []
    else if v[n - 1].Accepted? then Kept(v, n - 1) + v[n - 1].sims
    else Kept(v, n - 1)
  }

  function KeptHashes(processed: seq<SimulatedBundle>, v: seq<Verdict>, n: nat): set<Hash>
    requires n <= |v| && n <= |processed|
    decreases n
  {
    if n == 0 then {}
    else if v[n - 1].Accepted? then KeptHashes(processed, v, n - 1) + processed[n - 1].bundle.Hashes()
    else KeptHashes(processed, v, n - 1)
  }

  ghost predicate JudgedAt(cfg: BuildConfig, w: World, base: seq<SimTx>, processed: seq<SimulatedBundle>, v: seq<Verdict>, i: nat)
    requires i < |v| <= |processed|
  {
    Judge(cfg, w, base + Kept(v, i), KeptHashes(processed, v, i), processed[i]) == Success(v[i])
  }

  /** `v` holds the verdicts on the first |v| processed bundles, each passed on the state left
      by the bundles accepted before it. */
  ghost predicate Selected(cfg: BuildConfig, w: World, base: seq<SimTx>, processed: seq<SimulatedBundle>, v: seq<Verdict>) {
    && |v| <= |processed|
    && forall i {:trigger JudgedAt(cfg, w, base, processed, v, i)} :: 0 <= i < |v| ==> JudgedAt(cfg, w, base, processed, v, i)
  }

  lemma {:induction false} KeptPrefix(processed: seq<SimulatedBundle>, v: seq<Verdict>, x: Verdict, n: nat)
    requires n <= |v| <= |processed|
    ensures Kept(v + [x], n) == Kept(v, n)
    ensures KeptHashes(processed, v + [x], n) == KeptHashes(processed, v, n)
  {
    if n > 0 {
      KeptPrefix(processed, v, x, n - 1);
      assert (v + [x])[n - 1] == v[n - 1];
    }
  }

  lemma SelectedAppend(cfg: BuildConfig, w: World, base: seq<SimTx>, processed: seq<SimulatedBundle>, v: seq<Verdict>, x: Verdict)
    requires Selected(cfg, w, base, processed, v) && |v| < |processed|
    requires Judge(cfg, w, base + Kept(v, |v|), KeptHashes(processed, v, |v|), processed[|v|]) == Success(x)
    ensures Selected(cfg, w, base, processed, v + [x])
  {
    forall i | 0 <= i < |v + [x]|
      ensures JudgedAt(cfg, w, base, processed, v + [x], i)
    {
      KeptPrefix(processed, v, x, i);
      if i < |v| {
        assert JudgedAt(cfg, w, base, processed, v, i);
      }
    }
  }

  lemma KeptAppend(base: seq<SimTx>, processed: seq<SimulatedBundle>, v: seq<Verdict>, x: Verdict)
    requires |v| < |processed|
    ensures base + Kept(v + [x], |v| + 1) ==
            if x.Accepted? then base + Kept(v, |v|) + x.sims else base + Kept(v, |v|)
    ensures KeptHashes(processed, v + [x], |v| + 1) ==
            KeptHashes(processed, v, |v|) + (if x.Accepted? then processed[|v|].bundle.Hashes() else {})
  {
    KeptPrefix(processed, v, x, |v|);
  }

  /** Ledger `l` and hashes `committed` are where the verdicts `v` have led from `base`. */
  ghost predicate Progress(cfg: BuildConfig, w: World, base: seq<SimTx>, processed: seq<SimulatedBundle>, v: seq<Verdict>,
                           l: seq<SimTx>, committed: set<Hash>)
  {
    && Selected(cfg, w, base, processed, v)
    && l == base + Kept(v, |v|) && committed == KeptHashes(processed, v, |v|)
  }

  lemma NextVerdict(cfg: BuildConfig, w: World, base: seq<SimTx>, processed: seq<SimulatedBundle>, v: seq<Verdict>,
                    l: seq<SimTx>, committed: set<Hash>, x: Verdict)
    requires Progress(cfg, w, base, processed, v, l, committed) && |v| < |processed|
    requires Judge(cfg, w, l, committed, processed[|v|]) == Success(x)
    ensures Progress(cfg, w, base, processed, v + [x],
                     if x.Accepted? then l + x.sims else l,
                     if x.Accepted? then committed + processed[|v|].bundle.Hashes() else committed)
  {
    SelectedAppend(cfg, w, base, processed, v, x);
    KeptAppend(base, processed, v, x);
  }

  /** The verdicts on the first `n` bundles on an empty block, one after another; an EVM error
      ends them. */
  function Verdicts(cfg: BuildConfig, w: World, processed: seq<SimulatedBundle>, n: nat): (r: Result<seq<Verdict>, EvmError>)
    requires n <= |processed|
    ensures r.Success? ==> |r.value| == n
    decreases n
  {
    if n == 0 then Success([])
    else
      var v :- Verdicts(cfg, w, processed, n - 1);
      var x :- Judge(cfg, w, Kept(v, n - 1), KeptHashes(processed, v, n - 1), processed[n - 1]);
      Success(v + [x])
  }

  lemma VerdictsNext(cfg: BuildConfig, w: World, processed: seq<SimulatedBundle>, v: seq<Verdict>, x: Verdict)
    requires |v| < |processed| && Verdicts(cfg, w, processed, |v|) == Success(v)
    requires Judge(cfg, w, Kept(v, |v|), KeptHashes(processed, v, |v|), processed[|v|]) == Success(x)
    ensures Verdicts(cfg, w, processed, |v| + 1) == Success(v + [x])
  {
  }

  lemma SelectedJudges(cfg: BuildConfig, w: World, processed: seq<SimulatedBundle>, v: seq<Verdict>, i: nat)
    requires Selected(cfg, w, [], processed, v) && i < |v|
    ensures Judge(cfg, w, Kept(v[..i], i), KeptHashes(processed, v[..i], i), processed[i]) == Success(v[i])
  {
    assert JudgedAt(cfg, w, [], processed, v, i);
    KeptOfPrefix(processed, v, i, i);
    assert [] + Kept(v, i) == Kept(v, i);
  }

  lemma SelectedNext(cfg: BuildConfig, w: World, processed: seq<SimulatedBundle>, v: seq<Verdict>, i: nat)
    requires Selected(cfg, w, [], processed, v) && i < |v|
    requires Verdicts(cfg, w, processed, i) == Success(v[..i])
    ensures Verdicts(cfg, w, processed, i + 1) == Success(v[..i + 1])
  {
    SelectedJudges(cfg, w, processed, v, i);
    VerdictsNext(cfg, w, processed, v[..i], v[i]);
    assert v[..i + 1] == v[..i] + [v[i]];
  }

  lemma {:induction false} SelectedIsVerdicts(cfg: BuildConfig, w: World, processed: seq<SimulatedBundle>, v: seq<Verdict>, n: nat)
    requires Selected(cfg, w, [], processed, v) && n <= |v|
    ensures Verdicts(cfg, w, processed, n) == Success(v[..n])
    decreases n
  {
    if n > 0 {
      SelectedIsVerdicts(cfg, w, processed, v, n - 1);
      SelectedNext(cfg, w, processed, v, n - 1);
    }
  }

  lemma {:induction false} KeptOfPrefix(processed: seq<SimulatedBundle>, v: seq<Verdict>, m: nat, n: nat)
    requires n <= m <= |v| <= |processed|
    ensures Kept(v[..m], n) == Kept(v, n) && KeptHashes(processed, v[..m], n) == KeptHashes(processed, v, n)
    decreases n
  {
    if n > 0 {
      KeptOfPrefix(processed, v, m, n - 1);
    }
  }

  /** The turn of bundle i comes and the EVM rejects one of its transactions. */
  ghost predicate BundleErrs(cfg: BuildConfig, w: World, processed: seq<SimulatedBundle>, i: nat) {
    && i < |processed| && Verdicts(cfg, w, processed, i).Success?
    && var v := Verdicts(cfg, w, processed, i).value;
       ErrsAtTurn(cfg, w, Kept(v, i), KeptHashes(processed, v, i), processed[i])
  }

  lemma VerdictsStep(cfg: BuildConfig, w: World, processed: seq<SimulatedBundle>, i: nat)
    requires i < |processed| && Verdicts(cfg, w, processed, i).Success?
    ensures Verdicts(cfg, w, processed, i + 1).Failure? <==> BundleErrs(cfg, w, processed, i)
  {
    var v := Verdicts(cfg, w, processed, i).value;
    JudgeErrsIff(cfg, w, Kept(v, i), KeptHashes(processed, v, i), processed[i]);
  }

  lemma {:induction false} VerdictsBefore(cfg: BuildConfig, w: World, processed: seq<SimulatedBundle>, i: nat, n: nat)
    requires i <= n <= |processed| && Verdicts(cfg, w, processed, n).Success?
    ensures Verdicts(cfg, w, processed, i).Success?
    decreases n
  {
    if i < n {
      VerdictsBefore(cfg, w, processed, i, n - 1);
    }
  }

  lemma {:induction false} FirstErr(cfg: BuildConfig, w: World, processed: seq<SimulatedBundle>, n: nat) returns (i: nat)
    requires n <= |processed| && Verdicts(cfg, w, processed, n).Failure?
    ensures i < n && BundleErrs(cfg, w, processed, i)
    decreases n
  {
    if Verdicts(cfg, w, processed, n - 1).Failure? {
      i := FirstErr(cfg, w, processed, n - 1);
    } else {
      i := n - 1;
      VerdictsStep(cfg, w, processed, i);
    }
  }

  lemma ErrEndsPhase(cfg: BuildConfig, w: World, processed: seq<SimulatedBundle>, i: nat)
    requires BundleErrs(cfg, w, processed, i)
    ensures Verdicts(cfg, w, processed, |processed|).Failure?
  {
    VerdictsStep(cfg, w, processed, i);
    if Verdicts(cfg, w, processed, |processed|).Success? {
      VerdictsBefore(cfg, w, processed, i + 1, |processed|);
    }
  }

  /** The bundles of a build attempt, taken in order, end in an EVM error exactly when some bundle
      that is neither blacklisted nor conflicting at its turn has a transaction that the EVM rejects
      there. Such a bundle is not skipped: with it the attempt fails. */
  lemma BundlePhaseErrsIff(cfg: BuildConfig, w: World, processed: seq<SimulatedBundle>)
    ensures Verdicts(cfg, w, processed, |processed|).Failure? <==>
            exists i: nat :: BundleErrs(cfg, w, processed, i)
  {
    if Verdicts(cfg, w, processed, |processed|).Failure? {
      var i := FirstErr(cfg, w, processed, |processed|);
    }
    forall i: nat | BundleErrs(cfg, w, processed, i)
      ensures Verdicts(cfg, w, processed, |processed|).Failure?
    {
      ErrEndsPhase(cfg, w, processed, i);
    }
  }

  /** The bundles that simulate at the top of the block, in pool order. */
  function TopOfBlock(cfg: BuildConfig, w: World, bundles: seq<RecoveredBundle>, n: nat): seq<SimulatedBundle>
    requires n <= |bundles|
    decreases n
  {
    if n == 0 then []
    else
      var sims := TopOfBlock(cfg, w, bundles, n - 1);
      match Simulate(cfg, w, bundles[n - 1])
      case Success(sb) => sims + [sb]
      case Failure(_) => sims
  }

  function Processed(cfg: BuildConfig, w: World, bundles: seq<RecoveredBundle>): seq<SimulatedBundle> {
    SortByMaxValue(TopOfBlock(cfg, w, bundles, |bundles|))
  }

  method Sorted(sims: seq<SimulatedBundle>) returns (sorted: seq<SimulatedBundle>)
    ensures sorted == SortByMaxValue(sims)
  {
    var a := new SimulatedBundle[|sims|](k requires 0 <= k < |sims| => sims[k]);
    assert a[..] == sims;
    SortInPlace(a);
    sorted := a[..];
  }

  method DecodeAndFilterBundles(db: ExecutionDB, state: BuildState, bundles: seq<RecoveredBundle>)
    returns (processed: seq<SimulatedBundle>)
    ensures processed == Processed(state.cfg, db.accounts, bundles)
  {
    var sims: seq<SimulatedBundle> := [];
    var i := 0;
    while i < |bundles|
      invariant 0 <= i <= |bundles|
      invariant sims == TopOfBlock(state.cfg, db.accounts, bundles, i)
    {
      var sim := state.SimulateBundle(db, bundles[i]);
      if sim.Success? {
        sims := sims + [sim.value];
      }
      i := i + 1;
    }
    processed := Sorted(sims);
  }

  /** Skips a bundle that is blacklisted or already has a committed transaction, and executes
      any other. */
  method TryBundle(db: ExecutionDB, state: BuildState, sb: SimulatedBundle, committed: set<Hash>)
    returns (accepted: Result<bool, EvmError>, ghost verdict: Verdict)
    requires state.Valid(db)
    modifies state, db
    ensures state.Valid(db) && state.details.builderPayment == old(state.details.builderPayment)
    ensures Judge(state.cfg, state.genesis, old(state.ledger), committed, sb) ==
            if accepted.Failure? then Failure(accepted.error) else Success(verdict)
    ensures accepted.Success? ==> accepted.value == verdict.Accepted?
    ensures accepted == Success(true) ==> state.ledger == old(state.ledger) + verdict.sims
    ensures accepted != Success(true) ==> state.ledger == old(state.ledger)
  {
    verdict := Blacklisted;
    if ContainsOfac(state.cfg, sb) {
      return Success(false), verdict;
    }
    if ContainsCommitted(sb, committed) {
      return Success(false), Conflicting;
    }
    ghost var l := state.ledger;
    var executed := state.ExecuteBundle(db, sb.bundle);
    match executed {
      case Success(_) =>
        verdict := Accepted(ExecBundle(state.cfg, Replay(state.genesis, l), Total(l), sb.bundle).value.sims);
        accepted := Success(true);
      case Failure(PayloadBuilder(e)) =>
        accepted := Failure(e);
      case Failure(e) =>
        verdict := Rejected(e);
        accepted := Success(false);
    }
  }

  /** On an EVM error, `verdicts` stops before the bundle that raised it. */
  method CommitSelectedBundles(db: ExecutionDB, state: BuildState, processed: seq<SimulatedBundle>)
    returns (r: Result<set<Hash>, EvmError>, ghost verdicts: seq<Verdict>)
    requires state.Valid(db)
    modifies state, db
    ensures state.Valid(db) && state.details.builderPayment == old(state.details.builderPayment)
    ensures |verdicts| <= |processed|
    ensures Progress(state.cfg, state.genesis, old(state.ledger), processed, verdicts, state.ledger,
                     KeptHashes(processed, verdicts, |verdicts|))
    ensures r.Success? ==> |verdicts| == |processed| && r.value == KeptHashes(processed, verdicts, |verdicts|)
    ensures r.Failure? ==>
      && |verdicts| < |processed|
      && Judge(state.cfg, state.genesis, state.ledger, KeptHashes(processed, verdicts, |verdicts|), processed[|verdicts|])
         == Failure(r.error)
  {
    ghost var base := state.ledger;
    var committed: set<Hash> := {};
    verdicts := [];
    var i := 0;
    while i < |processed|
      invariant 0 <= i <= |processed| && |verdicts| == i
      invariant state.Valid(db) && state.details.builderPayment == old(state.details.builderPayment)
      invariant Progress(state.cfg, state.genesis, base, processed, verdicts, state.ledger, committed)
    {
      ghost var l, before := state.ledger, committed;
      var accepted, verdict := TryBundle(db, state, processed[i], committed);
      if accepted.Failure? {
        return Failure(accepted.error), verdicts;
      }
      NextVerdict(state.cfg, state.genesis, base, processed, verdicts, l, before, verdict);
      if accepted.value {
        committed := committed + processed[i].bundle.Hashes();
      }
      verdicts := verdicts + [verdict];
      i := i + 1;
    }
    r := Success(committed);
  }

  // ---------- mempool ----------

  /** What became of a transaction the pool offered. */
  datatype TxVerdict =
    | OfacParty
    | AlreadyCommitted
    | Included(sim: SimTx)
    | Dropped(error: ExecError)

  datatype Offer = Offer(tx: Tx, verdict: TxVerdict)

  /** What the pool's iterator is told about the transaction it just offered. */
  datatype Feedback = Keep | MarkInvalid | SkipBlobsAndMarkInvalid

  function FeedbackFor(v: TxVerdict): Feedback {
    match v
    case OfacParty => MarkInvalid
    case AlreadyCommitted => Keep
    case Included(_) => Keep
    case Dropped(MaxBlobGasExceeded) => SkipBlobsAndMarkInvalid
    case Dropped(PayloadBuilder(NonceTooLow)) => Keep
    case Dropped(_) => MarkInvalid
  }

  /** The iterator over the pool: the next transaction, given all feedback so far. */
  type PoolIterator = seq<Feedback> -> Option<Tx>

  function Feedbacks(h: seq<Offer>, n: nat): seq<Feedback>
    requires n <= |h|
  {
    seq(n, i requires 0 <= i < n => FeedbackFor(h[i].verdict))
  }

  function JudgeTx(cfg: BuildConfig, w: World, l: seq<SimTx>, committed: set<Hash>, tx: Tx): Result<TxVerdict, EvmError> {
    if cfg.Blacklisted(tx) then Success(OfacParty)
    else if tx.hash in committed then Success(AlreadyCommitted)
    else
      match ExecTx(cfg, Replay(w, l), Total(l), tx, false)
      case Success(s) => Success(Included(s))
      case Failure(PayloadBuilder(Internal)) => Failure(Internal)
      case Failure(e) => Success(Dropped(e))
  }

  function Taken(h: seq<Offer>, n: nat): seq<SimTx>
    requires n <= |h|
  {
    if n == 0 then []
    else if h[n - 1].verdict.Included? then Taken(h, n - 1) + [h[n - 1].verdict.sim]
    else Taken(h, n - 1)
  }

  function TakenHashes(h: seq<Offer>, n: nat): set<Hash>
    requires n <= |h|
  {
    if n == 0 then {}
    else if h[n - 1].verdict.Included? then TakenHashes(h, n - 1) + {h[n - 1].tx.hash}
    else TakenHashes(h, n - 1)
  }

  ghost predicate OfferedAt(cfg: BuildConfig, w: World, base: seq<SimTx>, committed: set<Hash>, pool: PoolIterator, h: seq<Offer>, i: nat)
    requires i < |h|
  {
    && pool(Feedbacks(h, i)) == Some(h[i].tx)
    && JudgeTx(cfg, w, base + Taken(h, i), committed + TakenHashes(h, i), h[i].tx) == Success(h[i].verdict)
  }

  /** `h` is what the pool offers, in order, and what becomes of it. */
  ghost predicate Offered(cfg: BuildConfig, w: World, base: seq<SimTx>, committed: set<Hash>, pool: PoolIterator, h: seq<Offer>) {
    forall i {:trigger OfferedAt(cfg, w, base, committed, pool, h, i)} ::
      0 <= i < |h| ==> OfferedAt(cfg, w, base, committed, pool, h, i)
  }

  lemma {:induction false} TakenPrefix(h: seq<Offer>, x: Offer, n: nat)
    requires n <= |h|
    ensures Taken(h + [x], n) == Taken(h, n) && TakenHashes(h + [x], n) == TakenHashes(h, n)
    ensures Feedbacks(h + [x], n) == Feedbacks(h, n)
  {
    if n > 0 {
      TakenPrefix(h, x, n - 1);
      assert (h + [x])[n - 1] == h[n - 1];
    }
  }

  lemma OfferedAppend(cfg: BuildConfig, w: World, base: seq<SimTx>, committed: set<Hash>, pool: PoolIterator, h: seq<Offer>, x: Offer)
    requires Offered(cfg, w, base, committed, pool, h)
    requires pool(Feedbacks(h, |h|)) == Some(x.tx)
    requires JudgeTx(cfg, w, base + Taken(h, |h|), committed + TakenHashes(h, |h|), x.tx) == Success(x.verdict)
    ensures Offered(cfg, w, base, committed, pool, h + [x])
  {
    forall i | 0 <= i < |h + [x]|
      ensures OfferedAt(cfg, w, base, committed, pool, h + [x], i)
    {
      TakenPrefix(h, x, i);
      if i < |h| {
        assert OfferedAt(cfg, w, base, committed, pool, h, i);
      }
    }
  }

  lemma TakenAppend(base: seq<SimTx>, h: seq<Offer>, x: Offer)
    ensures base + Taken(h + [x], |h| + 1) ==
            if x.verdict.Included? then base + Taken(h, |h|) + [x.verdict.sim] else base + Taken(h, |h|)
  {
    TakenPrefix(h, x, |h|);
  }

  lemma TakenHashesAppend(h: seq<Offer>, x: Offer)
    ensures TakenHashes(h + [x], |h| + 1) ==
            TakenHashes(h, |h|) + (if x.verdict.Included? then {x.tx.hash} else {})
    ensures Feedbacks(h + [x], |h| + 1) == Feedbacks(h, |h|) + [FeedbackFor(x.verdict)]
  {
    TakenPrefix(h, x, |h|);
  }

  datatype MempoolEnd = Exhausted | JobCancelled | ExecFailed

  /** The job was not cancelled when the pool offered its first `n` transactions. */
  predicate Uncancelled(cancelled: nat -> bool, n: nat) {
    n == 0 || (!cancelled(n - 1) && Uncancelled(cancelled, n - 1))
  }

  ghost predicate EndsWith(cfg: BuildConfig, w: World, l: seq<SimTx>, committed: set<Hash>, pool: PoolIterator,
                           cancelled: nat -> bool, h: seq<Offer>, end: MempoolEnd)
  {
    var next := pool(Feedbacks(h, |h|));
    && Uncancelled(cancelled, |h|)
    && match end
       case Exhausted => next.None?
       case JobCancelled => next.Some? && cancelled(|h|)
       case ExecFailed => next.Some? && !cancelled(|h|) && JudgeTx(cfg, w, l, committed, next.value).Failure?
  }

  /** A pool that offers at most `bound` transactions. */
  ghost predicate Bounded(pool: PoolIterator, bound: nat) {
    forall f {:trigger pool(f)} :: |f| >= bound ==> pool(f).None?
  }

  /** Tries one transaction of the pool; the result says whether it was committed and what
      the pool is told. */
  method TryOffer(state: BuildState, db: ExecutionDB, tx: Tx, committed: set<Hash>)
    returns (said: Result<(bool, Feedback), EvmError>, ghost verdict: TxVerdict)
    requires state.Valid(db)
    modifies state, db
    ensures state.Valid(db) && state.details.builderPayment == old(state.details.builderPayment)
    ensures JudgeTx(state.cfg, state.genesis, old(state.ledger), committed, tx) ==
            if said.Failure? then Failure(said.error) else Success(verdict)
    ensures said.Success? ==> said.value == (verdict.Included?, FeedbackFor(verdict))
    ensures state.ledger == if said.Success? && said.value.0 then old(state.ledger) + [verdict.sim] else old(state.ledger)
  {
    verdict := AlreadyCommitted;
    if state.cfg.Blacklisted(tx) {
      return Success((false, MarkInvalid)), OfacParty;
    }
    if tx.hash in committed {
      return Success((false, Keep)), verdict;
    }
    ghost var l := state.ledger;
    var executed := state.ExecuteTransactionSkipVerify(db, tx, false);
    match executed {
      case Success(_) =>
        verdict := Included(ExecTx(state.cfg, Replay(state.genesis, l), Total(l), tx, false).value);
        said := Success((true, Keep));
      case Failure(PayloadBuilder(Internal)) =>
        said := Failure(Internal);
      case Failure(e) =>
        verdict := Dropped(e);
        said := Success((false, if e == PayloadBuilder(NonceTooLow) then Keep
                                else if e == MaxBlobGasExceeded then SkipBlobsAndMarkInvalid
                                else MarkInvalid));
    }
  }

  /** Ledger `l` and hashes `committed` are where the offers `h` have led from `base`, with no
      cancellation until then. */
  ghost predicate Underway(cfg: BuildConfig, w: World, base: seq<SimTx>, before: set<Hash>, pool: PoolIterator,
                           cancelled: nat -> bool, h: seq<Offer>, l: seq<SimTx>, committed: set<Hash>)
  {
    && Offered(cfg, w, base, before, pool, h)
    && l == base + Taken(h, |h|) && committed == before + TakenHashes(h, |h|)
    && Uncancelled(cancelled, |h|)
  }

  lemma NextOffer(cfg: BuildConfig, w: World, base: seq<SimTx>, before: set<Hash>, pool: PoolIterator,
                  cancelled: nat -> bool, h: seq<Offer>, l: seq<SimTx>, committed: set<Hash>, x: Offer)
    requires Underway(cfg, w, base, before, pool, cancelled, h, l, committed) && !cancelled(|h|)
    requires pool(Feedbacks(h, |h|)) == Some(x.tx) && JudgeTx(cfg, w, l, committed, x.tx) == Success(x.verdict)
    ensures Underway(cfg, w, base, before, pool, cancelled, h + [x],
                     if x.verdict.Included? then l + [x.verdict.sim] else l,
                     if x.verdict.Included? then committed + {x.tx.hash} else committed)
    ensures Feedbacks(h + [x], |h| + 1) == Feedbacks(h, |h|) + [FeedbackFor(x.verdict)]
  {
    OfferedAppend(cfg, w, base, before, pool, h, x);
    TakenAppend(base, h, x);
    TakenHashesAppend(h, x);
  }

  method ExecuteMempoolTxs(pool: PoolIterator, ghost bound: nat, state: BuildState, db: ExecutionDB,
                           committedBefore: set<Hash>, cancelled: nat -> bool)
    returns (end: MempoolEnd, committed: set<Hash>, ghost offers: seq<Offer>)
    requires state.Valid(db) && Bounded(pool, bound)
    modifies state, db
    ensures state.Valid(db) && state.details.builderPayment == old(state.details.builderPayment)
    ensures Offered(state.cfg, state.genesis, old(state.ledger), committedBefore, pool, offers)
    ensures state.ledger == old(state.ledger) + Taken(offers, |offers|)
    ensures committed == committedBefore + TakenHashes(offers, |offers|)
    ensures EndsWith(state.cfg, state.genesis, state.ledger, committed, pool, cancelled, offers, end)
  {
    ghost var base := state.ledger;
    committed := committedBefore;
    offers := [];
    var feedback: seq<Feedback> := [];
    var next := pool(feedback);
    while next.Some?
      invariant |feedback| == |offers| && feedback == Feedbacks(offers, |offers|) && next == pool(feedback)
      invariant state.Valid(db) && state.details.builderPayment == old(state.details.builderPayment)
      invariant Underway(state.cfg, state.genesis, base, committedBefore, pool, cancelled, offers, state.ledger, committed)
      decreases bound - |offers|
    {
      if cancelled(|feedback|) {
        return JobCancelled, committed, offers;
      }
      ghost var l, before := state.ledger, committed;
      var said, verdict := TryOffer(state, db, next.value, committed);
      if said.Failure? {
        return ExecFailed, committed, offers;
      }
      ghost var offer := Offer(next.value, verdict);
      NextOffer(state.cfg, state.genesis, base, committedBefore, pool, cancelled, offers, l, before, offer);
      if said.value.0 {
        committed := committed + {next.value.hash};
      }
      offers := offers + [offer];
      feedback := feedback + [said.value.1];
      next := pool(feedback);
    }
    end := Exhausted;
  }

  // ---------- one build attempt ----------

  datatype BuildOutcome = Better(state: BuildState) | Aborted(blockValue: U256) | Cancelled

  /** The course of a build attempt that got through its bundles. */
  datatype Run = Run(processed: seq<SimulatedBundle>, verdicts: seq<Verdict>, offers: seq<Offer>) {
    function FromBundles(): seq<SimTx> {
      Kept(verdicts, |verdicts|)
    }

    function FromMempool(): seq<SimTx> {
      Taken(offers, |offers|)
    }

    function Ledger(): seq<SimTx> {
      FromBundles() + FromMempool()
    }

    function Committed(): set<Hash>
      requires |verdicts| <= |processed|
    {
      KeptHashes(processed, verdicts, |verdicts|) + TakenHashes(offers, |offers|)
    }
  }

  /** A run over these bundles and this pool: the bundles are processed in sorted order on an
      empty block, then the pool's offers are taken. */
  ghost predicate BuiltBy(cfg: BuildConfig, w: World, bundles: seq<RecoveredBundle>, pool: PoolIterator, run: Run) {
    && run.processed == Processed(cfg, w, bundles)
    && |run.verdicts| == |run.processed|
    && Selected(cfg, w, [], run.processed, run.verdicts)
    && Offered(cfg, w, run.FromBundles(), KeptHashes(run.processed, run.verdicts, |run.verdicts|), pool, run.offers)
  }

  /** Some bundle's EVM error ends the attempt. */
  ghost predicate BundlePhaseErrs(cfg: BuildConfig, w: World, bundles: seq<RecoveredBundle>) {
    exists i: nat :: BundleErrs(cfg, w, Processed(cfg, w, bundles), i)
  }

  lemma AbortedRunErrs(cfg: BuildConfig, w: World, bundles: seq<RecoveredBundle>, v: seq<Verdict>)
    requires Selected(cfg, w, [], Processed(cfg, w, bundles), v) && |v| < |Processed(cfg, w, bundles)|
    requires var p := Processed(cfg, w, bundles); Judge(cfg, w, Kept(v, |v|), KeptHashes(p, v, |v|), p[|v|]).Failure?
    ensures BundlePhaseErrs(cfg, w, bundles)
  {
    var p := Processed(cfg, w, bundles);
    SelectedIsVerdicts(cfg, w, p, v, |v|);
    assert v[..|v|] == v;
    JudgeErrsIff(cfg, w, Kept(v, |v|), KeptHashes(p, v, |v|), p[|v|]);
    assert BundleErrs(cfg, w, p, |v|);
  }

  lemma FinishedRunDoesNotErr(cfg: BuildConfig, w: World, bundles: seq<RecoveredBundle>, v: seq<Verdict>)
    requires Selected(cfg, w, [], Processed(cfg, w, bundles), v) && |v| == |Processed(cfg, w, bundles)|
    ensures !BundlePhaseErrs(cfg, w, bundles)
  {
    var p := Processed(cfg, w, bundles);
    SelectedIsVerdicts(cfg, w, p, v, |v|);
    BundlePhaseErrsIff(cfg, w, p);
  }

  /** What an attempt that did not fail reports of the block it built. */
  datatype Report = Improved(value: U256) | NotImproved(value: U256) | WasCancelled

  /** Only a block whose value, as a word, strictly exceeds the best so far is an improvement. */
  function ReportOf(end: MempoolEnd, value: U256, bestValue: U256): Report {
    match end
    case JobCancelled => WasCancelled
    case ExecFailed => NotImproved(value)
    case Exhausted => if value <= bestValue then NotImproved(value) else Improved(value)
  }

  /** What a build attempt that does not fail can come to: a run over its bundles and its pool,
      ended in one of the three ways, and the report on it. */
  ghost predicate Attempted(cfg: BuildConfig, w: World, bundles: seq<RecoveredBundle>, pool: PoolIterator,
                            cancelled: nat -> bool, bestValue: U256, run: Run, end: MempoolEnd, report: Report)
  {
    && BuiltBy(cfg, w, bundles, pool, run)
    && EndsWith(cfg, w, run.Ledger(), run.Committed(), pool, cancelled, run.offers, end)
    && report == ReportOf(end, Wrapped(BlockValue(run.Ledger())), bestValue)
  }

  /** Builds on state `w`, and reports against the block value of the best build (0 without one).
      The attempt fails exactly when the EVM rejects a bundle's transaction at the bundle's turn. */
  method TryBuild(cfg: BuildConfig, w: World, bundles: seq<RecoveredBundle>, pool: PoolIterator, ghost bound: nat,
                  cancelled: nat -> bool, best: BuildState?)
    returns (r: Result<BuildOutcome, EvmError>, ghost run: Run, ghost end: MempoolEnd)
    requires Bounded(pool, bound)
    ensures r.Failure? <==> BundlePhaseErrs(cfg, w, bundles)
    ensures r.Success? ==>
      var bestValue: U256 := if best == null then 0 else best.BlockValue();
      var report := match r.value
                    case Better(state) => Improved(state.BlockValue())
                    case Aborted(value) => NotImproved(value)
                    case Cancelled => WasCancelled;
      Attempted(cfg, w, bundles, pool, cancelled, bestValue, run, end, report)
    ensures r.Success? && r.value.Better? ==>
      var state := r.value.state;
      && fresh(state) && state.cfg == cfg && state.genesis == w && state.ledger == run.Ledger()
      && state.details == DetailsOf(run.Ledger(), None)
  {
    var db := new ExecutionDB(w);
    var state := new BuildState(cfg, w);
    end := Exhausted;
    var processed := DecodeAndFilterBundles(db, state, bundles);
    var selected, verdicts := CommitSelectedBundles(db, state, processed);
    run := Run(processed, verdicts, []);
    assert [] + Kept(verdicts, |verdicts|) == Kept(verdicts, |verdicts|);
    if selected.Failure? {
      AbortedRunErrs(cfg, w, bundles, verdicts);
      return Failure(selected.error), run, end;
    }
    FinishedRunDoesNotErr(cfg, w, bundles, verdicts);
    var ended, committed, offers := ExecuteMempoolTxs(pool, bound, state, db, selected.value, cancelled);
    run, end := Run(processed, verdicts, offers), ended;
    assert BuiltBy(cfg, w, bundles, pool, run);
    assert EndsWith(cfg, w, run.Ledger(), run.Committed(), pool, cancelled, run.offers, end);
    assert state.BlockValue() == Wrapped(BlockValue(run.Ledger()));
    match ended {
      case JobCancelled =>
        r := Success(Cancelled);
      case ExecFailed =>
        r := Success(Aborted(state.BlockValue()));
      case Exhausted =>
        var value := state.BlockValue();
        var bestValue := if best == null then 0 else best.BlockValue();
        r := Success(if value <= bestValue then Aborted(value) else Better(state));
    }
  }
}
