/** What every reachable state of the bundle pool satisfies. */
module BundlePoolTheorems {
  import opened Wrappers
  import opened Evm
  import opened Bundles
  import opened BundlePool

  datatype Op = AddOp(bundle: Bundle) | CancelOp(hash: Hash) | PruneOp(block: nat, timestamp: nat)

  function Apply(s: PoolState, op: Op): PoolState {
    match op
    case AddOp(b) => Add(s, b)
    case CancelOp(h) => Cancel(s, h)
    case PruneOp(block, timestamp) => Prune(s, block, timestamp)
  }

  /** The state after the first `n` operations on an empty pool. */
  function After(ops: seq<Op>, n: nat): PoolState
    requires n <= |ops|
  {
    if n == 0 then EMPTY else Apply(After(ops, n - 1), ops[n - 1])
  }

  /** The bundles added by the first `n` operations, in order. */
  function Arrivals(ops: seq<Op>, n: nat): seq<Bundle>
    requires n <= |ops|
  {
    if n == 0 then []
    else Arrivals(ops, n - 1) + (if ops[n - 1].AddOp? then [ops[n - 1].bundle] else [])
  }

  // ---------- the block index misses nothing ----------

  /** Every live bundle is indexed under its block, and no uuid has more than one hash. */
  ghost predicate Indexed(s: PoolState) {
    && (forall h {:trigger s.bundles[h]} :: h in s.bundles ==>
          s.bundles[h].hash == h && h in Lookup(s.byBlock, s.bundles[h].blockNumber))
    && (forall u: nat {:trigger Lookup(s.byUuid, u)} :: |Lookup(s.byUuid, u)| <= 1)
  }

  lemma CancelKeepsIndexed(s: PoolState, hash: Hash)
    requires Indexed(s)
    ensures Indexed(Cancel(s, hash))
  {
    var s' := Cancel(s, hash);
    forall h | h in s'.bundles
      ensures h in Lookup(s'.byBlock, s'.bundles[h].blockNumber)
    {
      WithoutMembers(Lookup(s.byBlock, s.bundles[h].blockNumber), {hash}, h);
    }
    assert s'.byUuid == s.byUuid;
  }

  lemma ReplaceKeepsIndexed(s: PoolState, uuid: Uuid, hash: Hash)
    requires Indexed(s)
    ensures Indexed(Replace(s, uuid, hash))
  {
    if |Lookup(s.byUuid, uuid)| > 0 {
      CancelKeepsIndexed(s, Lookup(s.byUuid, uuid)[0]);
    } else {
      forall u: nat ensures |Lookup(Replace(s, uuid, hash).byUuid, u)| <= 1 {
        assert |Lookup(s.byUuid, u)| <= 1;
      }
    }
  }

  lemma AddKeepsIndexed(s: PoolState, b: Bundle)
    requires Indexed(s)
    ensures Indexed(Add(s, b))
  {
    if b.replacementUuid.Some? {
      ReplaceKeepsIndexed(s, b.replacementUuid.value, b.hash);
    }
  }

  lemma PruneKeepsIndexed(s: PoolState, block: nat, timestamp: nat)
    requires Indexed(s)
    ensures Indexed(Prune(s, block, timestamp))
  {
    var s', removed := Prune(s, block, timestamp), Prunable(s, block, timestamp);
    forall h | h in s'.bundles
      ensures h in Lookup(s'.byBlock, s'.bundles[h].blockNumber)
    {
      RetainedUnder(s.byBlock, removed, s.bundles[h].blockNumber);
      WithoutMembers(Lookup(s.byBlock, s.bundles[h].blockNumber), removed, h);
    }
    forall u: nat ensures |Lookup(s'.byUuid, u)| <= 1 {
      RetainedUnder(s.byUuid, removed, u);
      assert |Lookup(s.byUuid, u)| <= 1;
    }
  }

  lemma {:induction false} ReachableIsIndexed(ops: seq<Op>, n: nat)
    requires n <= |ops|
    ensures Indexed(After(ops, n))
  {
    if n > 0 {
      ReachableIsIndexed(ops, n - 1);
      var s := After(ops, n - 1);
      match ops[n - 1]
      case AddOp(b) => AddKeepsIndexed(s, b);
      case CancelOp(h) => CancelKeepsIndexed(s, h);
      case PruneOp(block, timestamp) => PruneKeepsIndexed(s, block, timestamp);
    }
  }

  lemma {:induction false} ResolveFinds(bundles: map<Hash, Bundle>, hashes: seq<Hash>, block: nat, timestamp: nat, b: Bundle)
    ensures b in Resolve(bundles, hashes, block, timestamp) <==>
            exists h :: h in hashes && h in bundles && bundles[h] == b && Matches(b, block, timestamp)
    decreases |hashes|
  {
    if |hashes| > 0 {
      var p, last := hashes[..|hashes| - 1], hashes[|hashes| - 1];
      assert hashes == p + [last];
      ResolveFinds(bundles, p, block, timestamp, b);
    }
  }

  /** In every state reached by adding, re-adding, replacing, cancelling and pruning, the query
      through the block index finds exactly the bundles a linear scan of the live ones finds. */
  lemma QueryIsLinearScan(ops: seq<Op>, block: nat, timestamp: nat, b: Bundle)
    ensures var s := After(ops, |ops|);
            b in Query(s, block, timestamp) <==>
            b.hash in s.bundles && s.bundles[b.hash] == b && Matches(b, block, timestamp)
  {
    var s := After(ops, |ops|);
    ReachableIsIndexed(ops, |ops|);
    ResolveFinds(s.bundles, Lookup(s.byBlock, block), block, timestamp, b);
    if b.hash in s.bundles && s.bundles[b.hash] == b && Matches(b, block, timestamp) {
      assert b.hash in Lookup(s.byBlock, block);
    }
  }

  /** In every reachable state, a query for a block and a time returns exactly the live bundles of
      that block whose minimum timestamp, if any, is not after the time and whose maximum timestamp,
      if any, is not before it; both bounds included. */
  lemma QueryHonoursBounds(ops: seq<Op>, block: nat, timestamp: nat, b: Bundle)
    ensures var s := After(ops, |ops|);
            b in Query(s, block, timestamp) <==>
            && b.hash in s.bundles && s.bundles[b.hash] == b && b.blockNumber == block
            && (b.minTimestamp.Some? ==> b.minTimestamp.value <= timestamp)
            && (b.maxTimestamp.Some? ==> timestamp <= b.maxTimestamp.value)
  {
    QueryIsLinearScan(ops, block, timestamp, b);
  }

  // ---------- what is live ----------

  /** The hash a uuid stands for: that of the first bundle added with it, until this one is pruned
      while live. */
  function Standing(ops: seq<Op>, n: nat, uuid: Uuid): Option<Hash>
    requires n <= |ops|
  {
    if n == 0 then None
    else
      var before := Standing(ops, n - 1, uuid);
      match ops[n - 1]
      case AddOp(b) => if before.None? && b.replacementUuid == Some(uuid) then Some(b.hash) else before
      case CancelOp(_) => before
      case PruneOp(block, timestamp) =>
        if before.Some? && IsPruned(After(ops, n - 1), before.value, block, timestamp) then None else before
  }

  /** A live bundle of a lower block, not yet active or expired. */
  predicate IsPruned(s: PoolState, h: Hash, block: nat, timestamp: nat) {
    && h in s.bundles
    && var b := s.bundles[h];
       || b.blockNumber < block
       || (b.minTimestamp.Some? && timestamp < b.minTimestamp.value)
       || (b.maxTimestamp.Some? && b.maxTimestamp.value < timestamp)
  }

  function AsList(h: Option<Hash>): seq<Hash> {
    if h.None? then [] else [h.value]
  }

  lemma CancelKeepsUuids(s: PoolState, hash: Hash)
    ensures Cancel(s, hash).byUuid == s.byUuid
  {
  }

  lemma AddIndexesUuid(s: PoolState, b: Bundle, uuid: Uuid)
    ensures Lookup(Add(s, b).byUuid, uuid) ==
            if |Lookup(s.byUuid, uuid)| == 0 && b.replacementUuid == Some(uuid) then [b.hash] else Lookup(s.byUuid, uuid)
  {
    if b.replacementUuid.Some? {
      var known := Lookup(s.byUuid, b.replacementUuid.value);
      if |known| > 0 {
        CancelKeepsUuids(s, known[0]);
      }
    }
  }

  lemma PruneDropsUuid(s: PoolState, block: nat, timestamp: nat, uuid: Uuid, h: Option<Hash>)
    requires Lookup(s.byUuid, uuid) == AsList(h)
    ensures Lookup(Prune(s, block, timestamp).byUuid, uuid) ==
            if h.Some? && IsPruned(s, h.value, block, timestamp) then [] else AsList(h)
  {
    RetainedUnder(s.byUuid, Prunable(s, block, timestamp), uuid);
    if h.Some? {
      assert |[h.value][..0]| == 0;
    }
  }

  lemma StandingStep(s: PoolState, op: Op, uuid: Uuid, h: Option<Hash>)
    requires Lookup(s.byUuid, uuid) == AsList(h)
    ensures Lookup(Apply(s, op).byUuid, uuid) == AsList(
              match op
              case AddOp(b) => if h.None? && b.replacementUuid == Some(uuid) then Some(b.hash) else h
              case CancelOp(_) => h
              case PruneOp(block, timestamp) => if h.Some? && IsPruned(s, h.value, block, timestamp) then None else h)
  {
    match op
    case AddOp(b) => AddIndexesUuid(s, b, uuid);
    case CancelOp(c) => CancelKeepsUuids(s, c);
    case PruneOp(block, timestamp) => PruneDropsUuid(s, block, timestamp, uuid, h);
  }

  /** In every reachable state the uuid index holds just the hash each uuid stands for. */
  lemma {:induction false} UuidIndexIsStanding(ops: seq<Op>, n: nat, uuid: Uuid)
    requires n <= |ops|
    ensures Lookup(After(ops, n).byUuid, uuid) == AsList(Standing(ops, n, uuid))
  {
    if n > 0 {
      UuidIndexIsStanding(ops, n - 1, uuid);
      StandingStep(After(ops, n - 1), ops[n - 1], uuid, Standing(ops, n - 1, uuid));
    }
  }

  /** What an operation makes of the bundle live under a hash: adding puts the bundle under its hash
      and takes out the one its uuid stands for, cancelling and pruning take out theirs, and nothing
      else changes. */
  function LiveStep(ops: seq<Op>, n: nat, h: Hash, live: Option<Bundle>): Option<Bundle>
    requires n < |ops|
  {
    match ops[n]
    case AddOp(b) =>
      if b.hash == h then Some(b)
      else if b.replacementUuid.Some? && Standing(ops, n, b.replacementUuid.value) == Some(h) then None
      else live
    case CancelOp(c) => if c == h then None else live
    case PruneOp(block, timestamp) => if IsPruned(After(ops, n), h, block, timestamp) then None else live
  }

  function Live(s: PoolState, h: Hash): Option<Bundle> {
    if h in s.bundles then Some(s.bundles[h]) else None
  }

  lemma ReplaceTakesOut(s: PoolState, uuid: Uuid, hash: Hash, h: Hash)
    ensures Live(Replace(s, uuid, hash), h) ==
            if |Lookup(s.byUuid, uuid)| > 0 && Lookup(s.byUuid, uuid)[0] == h then None else Live(s, h)
  {
  }

  /** What is live after every operation of every sequence. */
  lemma LiveFollows(ops: seq<Op>, n: nat, h: Hash)
    requires n < |ops|
    ensures Live(After(ops, n + 1), h) == LiveStep(ops, n, h, Live(After(ops, n), h))
  {
    var s := After(ops, n);
    match ops[n]
    case AddOp(b) =>
      if b.replacementUuid.Some? {
        UuidIndexIsStanding(ops, n, b.replacementUuid.value);
        ReplaceTakesOut(s, b.replacementUuid.value, b.hash, h);
      }
    case CancelOp(c) =>
    case PruneOp(block, timestamp) =>
  }

  // ---------- distinct arrivals: order and multiplicity ----------

  predicate Distinct(arrivals: seq<Bundle>) {
    forall i, j :: 0 <= i < j < |arrivals| ==> arrivals[i].hash != arrivals[j].hash
  }

  /** Hashes of the live arrivals for a block, oldest first. */
  function LiveHashes(arrivals: seq<Bundle>, live: set<Hash>, block: nat): seq<Hash> {
    if |arrivals| == 0 then []
    else
      var b := arrivals[|arrivals| - 1];
      LiveHashes(arrivals[..|arrivals| - 1], live, block) +
      (if b.blockNumber == block && b.hash in live then [b.hash] else [])
  }

  /** Live and matching arrivals, oldest first: a scan of the arrivals. */
  function LiveMatches(arrivals: seq<Bundle>, live: set<Hash>, block: nat, timestamp: nat): seq<Bundle> {
    if |arrivals| == 0 then arrivals
    else
      var b := arrivals[|arrivals| - 1];
      LiveMatches(arrivals[..|arrivals| - 1], live, block, timestamp) +
      (if b.hash in live && Matches(b, block, timestamp) then [b] else [])
  }

  /** The block index lists exactly the live arrivals in order, and a live hash stands for its
      one arrival. */
  ghost predicate Ordered(s: PoolState, arrivals: seq<Bundle>) {
    && (forall i {:trigger arrivals[i]} :: 0 <= i < |arrivals| && arrivals[i].hash in s.bundles ==>
          s.bundles[arrivals[i].hash] == arrivals[i])
    && (forall h {:trigger h in s.bundles} :: h in s.bundles ==> Arrived(arrivals, h))
    && (forall block: nat {:trigger Lookup(s.byBlock, block)} ::
          Lookup(s.byBlock, block) == LiveHashes(arrivals, s.bundles.Keys, block))
  }

  predicate Arrived(arrivals: seq<Bundle>, h: Hash) {
    exists i :: 0 <= i < |arrivals| && arrivals[i].hash == h
  }

  lemma WithoutAppend(a: seq<Hash>, b: seq<Hash>, removed: set<Hash>)
    requires |b| <= 1
    ensures Without(a + b, removed) ==
            Without(a, removed) + (if |b| == 1 && b[0] !in removed then b else [])
  {
    if |b| == 1 {
      assert (a + b)[..|a + b| - 1] == a;
    } else {
      assert a + b == a;
    }
  }

  lemma {:induction false} LiveHashesWithout(arrivals: seq<Bundle>, live: set<Hash>, removed: set<Hash>, block: nat)
    ensures Without(LiveHashes(arrivals, live, block), removed) == LiveHashes(arrivals, live - removed, block)
    decreases |arrivals|
  {
    if |arrivals| > 0 {
      var p, b := arrivals[..|arrivals| - 1], arrivals[|arrivals| - 1];
      LiveHashesWithout(p, live, removed, block);
      WithoutAppend(LiveHashes(p, live, block), if b.blockNumber == block && b.hash in live then [b.hash] else [], removed);
    }
  }

  /** Only the hashes that arrived for the block matter. */
  lemma {:induction false} LiveHashesAgree(arrivals: seq<Bundle>, live: set<Hash>, live': set<Hash>, block: nat)
    requires forall i :: 0 <= i < |arrivals| && arrivals[i].blockNumber == block ==>
               (arrivals[i].hash in live <==> arrivals[i].hash in live')
    ensures LiveHashes(arrivals, live, block) == LiveHashes(arrivals, live', block)
    decreases |arrivals|
  {
    if |arrivals| > 0 {
      var p := arrivals[..|arrivals| - 1];
      assert forall i :: 0 <= i < |p| ==> p[i] == arrivals[i];
      LiveHashesAgree(p, live, live', block);
    }
  }

  lemma CancelKeepsOrdered(s: PoolState, arrivals: seq<Bundle>, hash: Hash)
    requires Ordered(s, arrivals)
    ensures Ordered(Cancel(s, hash), arrivals)
  {
    if hash in s.bundles {
      var s', b := Cancel(s, hash), s.bundles[hash];
      assert s'.bundles.Keys == s.bundles.Keys - {hash};
      forall block: nat
        ensures Lookup(s'.byBlock, block) == LiveHashes(arrivals, s'.bundles.Keys, block)
      {
        assert Lookup(s.byBlock, block) == LiveHashes(arrivals, s.bundles.Keys, block);
        if block == b.blockNumber {
          LiveHashesWithout(arrivals, s.bundles.Keys, {hash}, block);
        } else {
          LiveHashesAgree(arrivals, s.bundles.Keys, s'.bundles.Keys, block);
        }
      }
    }
  }

  lemma LiveHashesAppend(arrivals: seq<Bundle>, b: Bundle, live: set<Hash>, block: nat)
    ensures LiveHashes(arrivals + [b], live, block) == LiveHashes(arrivals, live, block) +
            (if b.blockNumber == block && b.hash in live then [b.hash] else [])
  {
    assert (arrivals + [b])[..|arrivals + [b]| - 1] == arrivals;
  }

  lemma ArrivedAppend(arrivals: seq<Bundle>, b: Bundle, h: Hash)
    requires Arrived(arrivals, h) || b.hash == h
    ensures Arrived(arrivals + [b], h)
  {
    var all := arrivals + [b];
    if b.hash == h {
      assert all[|arrivals|].hash == h;
    } else {
      var i :| 0 <= i < |arrivals| && arrivals[i].hash == h;
      assert all[i].hash == h;
    }
  }

  lemma InsertKeepsOrdered(s: PoolState, s': PoolState, arrivals: seq<Bundle>, b: Bundle)
    requires Ordered(s, arrivals) && !Arrived(arrivals, b.hash)
    requires s'.bundles == s.bundles[b.hash := b] && s'.byBlock == Push(s.byBlock, b.blockNumber, b.hash)
    ensures Ordered(s', arrivals + [b])
  {
    var all := arrivals + [b];
    forall block: nat
      ensures Lookup(s'.byBlock, block) == LiveHashes(all, s'.bundles.Keys, block)
    {
      assert Lookup(s.byBlock, block) == LiveHashes(arrivals, s.bundles.Keys, block);
      LiveHashesAgree(arrivals, s.bundles.Keys, s'.bundles.Keys, block);
      LiveHashesAppend(arrivals, b, s'.bundles.Keys, block);
    }
    forall h | h in s'.bundles ensures Arrived(all, h) {
      ArrivedAppend(arrivals, b, h);
    }
    forall i | 0 <= i < |all| && all[i].hash in s'.bundles
      ensures s'.bundles[all[i].hash] == all[i]
    {
      if i < |arrivals| {
        assert all[i] == arrivals[i] && arrivals[i].hash != b.hash;
      }
    }
  }

  lemma AddKeepsOrdered(s: PoolState, arrivals: seq<Bundle>, b: Bundle)
    requires Ordered(s, arrivals) && !Arrived(arrivals, b.hash)
    ensures Ordered(Add(s, b), arrivals + [b])
  {
    if b.replacementUuid.Some? {
      var known := Lookup(s.byUuid, b.replacementUuid.value);
      if |known| > 0 {
        CancelKeepsOrdered(s, arrivals, known[0]);
      }
      InsertKeepsOrdered(Replace(s, b.replacementUuid.value, b.hash), Add(s, b), arrivals, b);
    } else {
      InsertKeepsOrdered(s, Add(s, b), arrivals, b);
    }
  }

  lemma PruneKeepsOrdered(s: PoolState, arrivals: seq<Bundle>, block: nat, timestamp: nat)
    requires Ordered(s, arrivals)
    ensures Ordered(Prune(s, block, timestamp), arrivals)
  {
    var s', removed := Prune(s, block, timestamp), Prunable(s, block, timestamp);
    assert s'.bundles.Keys == s.bundles.Keys - removed;
    forall n: nat
      ensures Lookup(s'.byBlock, n) == LiveHashes(arrivals, s'.bundles.Keys, n)
    {
      assert Lookup(s.byBlock, n) == LiveHashes(arrivals, s.bundles.Keys, n);
      RetainedUnder(s.byBlock, removed, n);
      LiveHashesWithout(arrivals, s.bundles.Keys, removed, n);
    }
  }

  lemma ApplyKeepsOrdered(s: PoolState, arrivals: seq<Bundle>, op: Op)
    requires Ordered(s, arrivals)
    requires op.AddOp? ==> !Arrived(arrivals, op.bundle.hash)
    ensures Ordered(Apply(s, op), if op.AddOp? then arrivals + [op.bundle] else arrivals)
  {
    match op
    case AddOp(b) => AddKeepsOrdered(s, arrivals, b);
    case CancelOp(h) => CancelKeepsOrdered(s, arrivals, h);
    case PruneOp(block, timestamp) => PruneKeepsOrdered(s, arrivals, block, timestamp);
  }

  lemma DistinctPrefix(arrivals: seq<Bundle>, b: Bundle)
    requires Distinct(arrivals + [b])
    ensures Distinct(arrivals) && !Arrived(arrivals, b.hash)
  {
    var all := arrivals + [b];
    assert forall i :: 0 <= i < |arrivals| ==> all[i] == arrivals[i];
    assert all[|arrivals|] == b;
  }

  lemma EmptyIsOrdered(arrivals: seq<Bundle>)
    requires |arrivals| == 0
    ensures Ordered(EMPTY, arrivals)
  {
  }

  lemma StartIsOrdered(ops: seq<Op>)
    ensures OrderedAfter(ops, 0)
  {
    EmptyIsOrdered(Arrivals(ops, 0));
  }

  ghost predicate OrderedAfter(ops: seq<Op>, n: nat)
    requires n <= |ops|
  {
    Ordered(After(ops, n), Arrivals(ops, n))
  }

  lemma OrderedStep(ops: seq<Op>, n: nat)
    requires 0 < n <= |ops| && OrderedAfter(ops, n - 1)
    requires ops[n - 1].AddOp? ==> !Arrived(Arrivals(ops, n - 1), ops[n - 1].bundle.hash)
    ensures OrderedAfter(ops, n)
  {
    var before, op := Arrivals(ops, n - 1), ops[n - 1];
    if !op.AddOp? {
      assert Arrivals(ops, n) == before;
    }
    ApplyKeepsOrdered(After(ops, n - 1), before, op);
  }

  lemma DistinctBefore(ops: seq<Op>, n: nat)
    requires 0 < n <= |ops| && Distinct(Arrivals(ops, n))
    ensures Distinct(Arrivals(ops, n - 1))
    ensures ops[n - 1].AddOp? ==> !Arrived(Arrivals(ops, n - 1), ops[n - 1].bundle.hash)
  {
    if ops[n - 1].AddOp? {
      DistinctPrefix(Arrivals(ops, n - 1), ops[n - 1].bundle);
    } else {
      assert Arrivals(ops, n) == Arrivals(ops, n - 1);
    }
  }

  lemma {:induction false} ReachableIsOrdered(ops: seq<Op>, n: nat)
    requires n <= |ops| && Distinct(Arrivals(ops, n))
    ensures OrderedAfter(ops, n)
  {
    if n == 0 {
      StartIsOrdered(ops);
    } else {
      DistinctBefore(ops, n);
      ReachableIsOrdered(ops, n - 1);
      OrderedStep(ops, n);
    }
  }

  lemma ResolveAppend(bundles: map<Hash, Bundle>, hashes: seq<Hash>, h: Hash, block: nat, timestamp: nat)
    ensures Resolve(bundles, hashes + [h], block, timestamp) == Resolve(bundles, hashes, block, timestamp) +
            (if h in bundles && Matches(bundles[h], block, timestamp) then [bundles[h]] else [])
  {
    assert (hashes + [h])[..|hashes + [h]| - 1] == hashes;
  }

  lemma {:induction false} ResolveLive(bundles: map<Hash, Bundle>, arrivals: seq<Bundle>, block: nat, timestamp: nat)
    requires forall i :: 0 <= i < |arrivals| && arrivals[i].hash in bundles ==> bundles[arrivals[i].hash] == arrivals[i]
    ensures Resolve(bundles, LiveHashes(arrivals, bundles.Keys, block), block, timestamp)
         == LiveMatches(arrivals, bundles.Keys, block, timestamp)
    decreases |arrivals|
  {
    if |arrivals| > 0 {
      var p, b := arrivals[..|arrivals| - 1], arrivals[|arrivals| - 1];
      assert forall i :: 0 <= i < |p| ==> p[i] == arrivals[i];
      ResolveLive(bundles, p, block, timestamp);
      if b.blockNumber == block && b.hash in bundles {
        ResolveAppend(bundles, LiveHashes(p, bundles.Keys, block), b.hash, block, timestamp);
      } else {
        assert LiveHashes(arrivals, bundles.Keys, block) == LiveHashes(p, bundles.Keys, block);
        assert !(b.hash in bundles.Keys && Matches(b, block, timestamp));
      }
    }
  }

  /** When no hash was added twice, the query returns the live matching bundles in the order in
      which they arrived, each once. */
  lemma QueryInArrivalOrder(ops: seq<Op>, block: nat, timestamp: nat)
    requires Distinct(Arrivals(ops, |ops|))
    ensures var s, r := After(ops, |ops|), Query(After(ops, |ops|), block, timestamp);
            r == LiveMatches(Arrivals(ops, |ops|), s.bundles.Keys, block, timestamp) && Distinct(r)
  {
    var s, arrivals := After(ops, |ops|), Arrivals(ops, |ops|);
    ReachableIsOrdered(ops, |ops|);
    assert Lookup(s.byBlock, block) == LiveHashes(arrivals, s.bundles.Keys, block);
    ResolveLive(s.bundles, arrivals, block, timestamp);
    LiveMatchesDistinct(arrivals, s.bundles.Keys, block, timestamp);
  }

  lemma {:induction false} LiveMatchesDistinct(arrivals: seq<Bundle>, live: set<Hash>, block: nat, timestamp: nat)
    requires Distinct(arrivals)
    ensures Distinct(LiveMatches(arrivals, live, block, timestamp))
    ensures forall b :: b in LiveMatches(arrivals, live, block, timestamp) ==> b in arrivals
    decreases |arrivals|
  {
    if |arrivals| > 0 {
      var p, b := arrivals[..|arrivals| - 1], arrivals[|arrivals| - 1];
      assert forall i :: 0 <= i < |p| ==> p[i] == arrivals[i];
      LiveMatchesDistinct(p, live, block, timestamp);
      forall x | x in LiveMatches(p, live, block, timestamp)
        ensures x in arrivals && x.hash != b.hash
      {
        var i :| 0 <= i < |p| && p[i] == x;
        assert arrivals[i].hash != arrivals[|arrivals| - 1].hash;
      }
    }
  }

  // ---------- any arrivals: multiplicity ----------

  /** How often a hash is listed. */
  function Listed(hashes: seq<Hash>, h: Hash): nat {
    multiset(hashes)[h]
  }

  lemma ListedAppend(a: seq<Hash>, b: seq<Hash>, h: Hash)
    ensures Listed(a + b, h) == Listed(a, h) + Listed(b, h)
  {
  }

  lemma {:induction false} ListedWithout(hashes: seq<Hash>, removed: set<Hash>, h: Hash)
    ensures Listed(Without(hashes, removed), h) == if h in removed then 0 else Listed(hashes, h)
    decreases |hashes|
  {
    if |hashes| > 0 {
      var p, last := hashes[..|hashes| - 1], hashes[|hashes| - 1];
      assert hashes == p + [last];
      ListedWithout(p, removed, h);
      ListedAppend(p, [last], h);
      ListedAppend(Without(p, removed), if last in removed then [] else [last], h);
    }
  }

  /** A query returns a live matching bundle as often as its hash is listed under its block. */
  lemma {:induction false} ResolvedAsOftenAsListed(bundles: map<Hash, Bundle>, hashes: seq<Hash>, block: nat, timestamp: nat, h: Hash)
    requires forall k :: k in bundles ==> bundles[k].hash == k
    requires h in bundles && Matches(bundles[h], block, timestamp)
    ensures multiset(Resolve(bundles, hashes, block, timestamp))[bundles[h]] == Listed(hashes, h)
    decreases |hashes|
  {
    if |hashes| > 0 {
      var p, last := hashes[..|hashes| - 1], hashes[|hashes| - 1];
      assert hashes == p + [last];
      ResolvedAsOftenAsListed(bundles, p, block, timestamp, h);
    }
  }

  /** No live matching bundle is listed twice under its block. */
  ghost predicate ListedOnce(s: PoolState, block: nat, timestamp: nat) {
    forall h {:trigger h in s.bundles} :: h in s.bundles && Matches(s.bundles[h], block, timestamp) ==>
      Listed(Lookup(s.byBlock, block), h) == 1
  }

  lemma RepeatedCountsTwice(bundles: seq<Bundle>, i: nat, j: nat)
    requires i < j < |bundles| && bundles[i] == bundles[j]
    ensures multiset(bundles)[bundles[i]] >= 2
  {
    assert bundles == bundles[..j] + bundles[j..];
    assert bundles[i] in bundles[..j] && bundles[i] in bundles[j..];
  }

  lemma UnrepeatedCountsOnce(bundles: seq<Bundle>, i: nat)
    requires i < |bundles| && forall j :: 0 <= j < |bundles| && j != i ==> bundles[j] != bundles[i]
    ensures multiset(bundles)[bundles[i]] == 1
  {
    assert bundles == bundles[..i] + [bundles[i]] + bundles[i + 1..];
    assert bundles[i] !in bundles[..i] && bundles[i] !in bundles[i + 1..];
  }

  predicate Unrepeated(bundles: seq<Bundle>) {
    forall i, j :: 0 <= i < j < |bundles| ==> bundles[i] != bundles[j]
  }

  lemma UnrepeatedIffOneEach(bundles: seq<Bundle>)
    ensures Unrepeated(bundles) <==> forall i :: 0 <= i < |bundles| ==> multiset(bundles)[bundles[i]] == 1
  {
    if Unrepeated(bundles) {
      forall i | 0 <= i < |bundles| ensures multiset(bundles)[bundles[i]] == 1 {
        UnrepeatedCountsOnce(bundles, i);
      }
    } else {
      var i, j :| 0 <= i < j < |bundles| && bundles[i] == bundles[j];
      RepeatedCountsTwice(bundles, i, j);
    }
  }

  /** In every reachable state, re-adding included, a query returns no hash twice exactly when every
      live matching bundle is listed once under its block. */
  lemma QueryDistinctIffListedOnce(ops: seq<Op>, block: nat, timestamp: nat)
    ensures var s := After(ops, |ops|); Distinct(Query(s, block, timestamp)) <==> ListedOnce(s, block, timestamp)
  {
    var s, r := After(ops, |ops|), Query(After(ops, |ops|), block, timestamp);
    forall i | 0 <= i < |r|
      ensures r[i].hash in s.bundles && s.bundles[r[i].hash] == r[i] && Matches(r[i], block, timestamp)
      ensures multiset(r)[r[i]] == Listed(Lookup(s.byBlock, block), r[i].hash)
    {
      FoundAsOftenAsListed(ops, block, timestamp, r[i].hash, r[i]);
    }
    forall h | h in s.bundles && Matches(s.bundles[h], block, timestamp)
      ensures s.bundles[h].hash == h && s.bundles[h] in r
    {
      ReachableIsIndexed(ops, |ops|);
      QueryIsLinearScan(ops, block, timestamp, s.bundles[h]);
    }
    UnrepeatedIffOneEach(r);
    assert Unrepeated(r) <==> Distinct(r);
  }

  lemma FoundAsOftenAsListed(ops: seq<Op>, block: nat, timestamp: nat, h: Hash, b: Bundle)
    requires b in Query(After(ops, |ops|), block, timestamp) && h == b.hash
    ensures var s := After(ops, |ops|);
            && h in s.bundles && s.bundles[h] == b && Matches(b, block, timestamp)
            && multiset(Query(s, block, timestamp))[b] == Listed(Lookup(s.byBlock, block), h)
  {
    var s := After(ops, |ops|);
    ReachableIsIndexed(ops, |ops|);
    QueryIsLinearScan(ops, block, timestamp, b);
    ResolvedAsOftenAsListed(s.bundles, Lookup(s.byBlock, block), block, timestamp, h);
  }

  /** The operation takes `h` off the list of this block: it cancels or replaces `h` while `h` stands
      for a bundle of this block, or prunes it. */
  predicate Unlists(s: PoolState, op: Op, h: Hash, block: nat) {
    h in s.bundles &&
    match op
    case CancelOp(c) => c == h && s.bundles[h].blockNumber == block
    case PruneOp(b, timestamp) => s.bundles[h].IsPrunable(b, timestamp)
    case AddOp(b) =>
      && b.replacementUuid.Some? && s.bundles[h].blockNumber == block
      && var known := Lookup(s.byUuid, b.replacementUuid.value);
         |known| > 0 && known[0] == h
  }

  /** How often `h` was added for this block since the list of the block last lost it. */
  function AddedSince(ops: seq<Op>, n: nat, h: Hash, block: nat): nat
    requires n <= |ops|
    decreases n
  {
    if n == 0 then 0
    else
      var op := ops[n - 1];
      (if Unlists(After(ops, n - 1), op, h, block) then 0 else AddedSince(ops, n - 1, h, block))
      + (if op.AddOp? && op.bundle.hash == h && op.bundle.blockNumber == block then 1 else 0)
  }

  lemma CancelUnlists(s: PoolState, c: Hash, h: Hash, block: nat)
    ensures Listed(Lookup(Cancel(s, c).byBlock, block), h) ==
            if Unlists(s, CancelOp(c), h, block) then 0 else Listed(Lookup(s.byBlock, block), h)
  {
    if c in s.bundles && s.bundles[c].blockNumber == block {
      ListedWithout(Lookup(s.byBlock, block), {c}, h);
    }
  }

  lemma PushLists(index: Index, key: nat, hash: Hash, h: Hash, block: nat)
    ensures Listed(Lookup(Push(index, key, hash), block), h) ==
            Listed(Lookup(index, block), h) + (if hash == h && key == block then 1 else 0)
  {
    if key == block {
      ListedAppend(Lookup(index, key), [hash], h);
    }
  }

  lemma ReplaceUnlists(s: PoolState, uuid: Uuid, hash: Hash, h: Hash, block: nat)
    ensures var known := Lookup(s.byUuid, uuid);
            Listed(Lookup(Replace(s, uuid, hash).byBlock, block), h) ==
            if |known| > 0 && Unlists(s, CancelOp(known[0]), h, block) then 0 else Listed(Lookup(s.byBlock, block), h)
  {
    if |Lookup(s.byUuid, uuid)| > 0 {
      CancelUnlists(s, Lookup(s.byUuid, uuid)[0], h, block);
    }
  }

  lemma AddLists(s: PoolState, b: Bundle, h: Hash, block: nat)
    ensures Listed(Lookup(Add(s, b).byBlock, block), h) ==
            (if Unlists(s, AddOp(b), h, block) then 0 else Listed(Lookup(s.byBlock, block), h))
            + (if b.hash == h && b.blockNumber == block then 1 else 0)
  {
    if b.replacementUuid.Some? {
      ReplaceUnlists(s, b.replacementUuid.value, b.hash, h, block);
      PushLists(Replace(s, b.replacementUuid.value, b.hash).byBlock, b.blockNumber, b.hash, h, block);
    } else {
      PushLists(s.byBlock, b.blockNumber, b.hash, h, block);
    }
  }

  lemma PruneUnlists(s: PoolState, b: nat, timestamp: nat, h: Hash, block: nat)
    ensures Listed(Lookup(Prune(s, b, timestamp).byBlock, block), h) ==
            if Unlists(s, PruneOp(b, timestamp), h, block) then 0 else Listed(Lookup(s.byBlock, block), h)
  {
    RetainedUnder(s.byBlock, Prunable(s, b, timestamp), block);
    ListedWithout(Lookup(s.byBlock, block), Prunable(s, b, timestamp), h);
  }

  lemma ApplyLists(s: PoolState, op: Op, h: Hash, block: nat)
    ensures Listed(Lookup(Apply(s, op).byBlock, block), h) ==
            (if Unlists(s, op, h, block) then 0 else Listed(Lookup(s.byBlock, block), h))
            + (if op.AddOp? && op.bundle.hash == h && op.bundle.blockNumber == block then 1 else 0)
  {
    match op
    case AddOp(b) => AddLists(s, b, h, block);
    case CancelOp(c) => CancelUnlists(s, c, h, block);
    case PruneOp(b, timestamp) => PruneUnlists(s, b, timestamp, h, block);
  }

  lemma ListedStep(ops: seq<Op>, n: nat, h: Hash, block: nat)
    requires 0 < n <= |ops|
    requires Listed(Lookup(After(ops, n - 1).byBlock, block), h) == AddedSince(ops, n - 1, h, block)
    ensures Listed(Lookup(After(ops, n).byBlock, block), h) == AddedSince(ops, n, h, block)
  {
    ApplyLists(After(ops, n - 1), ops[n - 1], h, block);
  }

  lemma ListedAtFirst(ops: seq<Op>, h: Hash, block: nat)
    ensures Listed(Lookup(After(ops, 0).byBlock, block), h) == AddedSince(ops, 0, h, block)
  {
  }

  /** In every reachable state a hash is listed under a block as often as it was added for that block
      since the list last lost it. Cancelling a hash that by then stands for another block's bundle,
      or that is no longer live, does not take it off. */
  lemma {:induction false} ListedAsOftenAsAdded(ops: seq<Op>, n: nat, h: Hash, block: nat)
    requires n <= |ops|
    ensures Listed(Lookup(After(ops, n).byBlock, block), h) == AddedSince(ops, n, h, block)
    decreases n
  {
    if n > 0 {
      ListedAsOftenAsAdded(ops, n - 1, h, block);
      ListedStep(ops, n, h, block);
    } else {
      ListedAtFirst(ops, h, block);
    }
  }

  /** A query returns no hash twice exactly when each live matching bundle's hash was added just once
      for its block since the list of the block last lost it. */
  lemma QueryDistinctIffAddedOnce(ops: seq<Op>, block: nat, timestamp: nat)
    ensures var s := After(ops, |ops|);
            Distinct(Query(s, block, timestamp)) <==>
            forall h {:trigger h in s.bundles} :: h in s.bundles && Matches(s.bundles[h], block, timestamp) ==>
              AddedSince(ops, |ops|, h, block) == 1
  {
    var s := After(ops, |ops|);
    QueryDistinctIffListedOnce(ops, block, timestamp);
    forall h | h in s.bundles && Matches(s.bundles[h], block, timestamp)
      ensures Listed(Lookup(s.byBlock, block), h) == AddedSince(ops, |ops|, h, block)
    {
      ListedAsOftenAsAdded(ops, |ops|, h, block);
    }
  }

  /** A hash added for one block, then for another, cancelled, and added for the first block again is
      listed there twice, although it was not live when it was added last. */
  lemma CancelledHashIsListedTwice(a: Bundle, b: Bundle, timestamp: nat)
    requires a.hash == b.hash && a.blockNumber != b.blockNumber
    requires a.replacementUuid.None? && b.replacementUuid.None? && a.IsWithinTimestamp(timestamp)
    ensures var s := Cancel(Add(Add(EMPTY, a), b), a.hash);
            a.hash !in s.bundles && Query(Add(s, a), a.blockNumber, timestamp) == [a, a]
  {
    var s := Cancel(Add(Add(EMPTY, a), b), a.hash);
    assert Lookup(s.byBlock, a.blockNumber) == [a.hash];
    ListedTwiceIsFoundTwice(Add(s, a), a, timestamp);
  }

  lemma ListedTwiceIsFoundTwice(s: PoolState, a: Bundle, timestamp: nat)
    requires a.hash in s.bundles && s.bundles[a.hash] == a && a.IsWithinTimestamp(timestamp)
    requires Lookup(s.byBlock, a.blockNumber) == [a.hash, a.hash]
    ensures Query(s, a.blockNumber, timestamp) == [a, a]
  {
    var none: seq<Hash> := [a.hash][..0];
    assert none + [a.hash] == [a.hash] && [a.hash] + [a.hash] == [a.hash, a.hash];
    ResolveAppend(s.bundles, none, a.hash, a.blockNumber, timestamp);
    ResolveAppend(s.bundles, [a.hash], a.hash, a.blockNumber, timestamp);
  }

  // ---------- replacement by uuid ----------

  ghost predicate Carries(s: PoolState, h: Hash, uuid: Uuid) {
    h in s.bundles && s.bundles[h].replacementUuid == Some(uuid)
  }

  /** Adding a bundle leaves it the only live one with its uuid exactly when every other live
      one is the bundle the uuid was first indexed for. */
  lemma ReplacesAllIff(s: PoolState, b: Bundle)
    requires b.replacementUuid.Some? && Indexed(s)
    ensures var u := b.replacementUuid.value;
            (forall h: Hash {:trigger Carries(Add(s, b), h, u)} :: Carries(Add(s, b), h, u) ==> h == b.hash) <==>
            (forall h: Hash {:trigger Carries(s, h, u)} :: Carries(s, h, u) ==> h == b.hash || Lookup(s.byUuid, u) == [h])
  {
    var u := b.replacementUuid.value;
    var known := Lookup(s.byUuid, u);
    forall h: Hash
      ensures h != b.hash ==> (Carries(Add(s, b), h, u) <==> Carries(s, h, u) && known != [h])
    {
    }
  }

  /** A uuid's second replacement no longer replaces: three bundles of one uuid leave two live. */
  lemma ThirdBundleDoesNotReplace(a: Bundle, b: Bundle, c: Bundle)
    requires a.replacementUuid.Some? && a.replacementUuid == b.replacementUuid == c.replacementUuid
    requires a.hash != b.hash && b.hash != c.hash && a.hash != c.hash
    ensures Add(Add(Add(EMPTY, a), b), c).bundles == map[b.hash := b, c.hash := c]
  {
    var u := a.replacementUuid.value;
    var one := Add(EMPTY, a);
    assert Lookup(one.byUuid, u) == [a.hash];
    var two := Add(one, b);
    assert two.bundles == map[b.hash := b] && Lookup(two.byUuid, u) == [a.hash];
  }

  // ---------- pruning ----------

  /** Being out of bounds is the exact complement of being within the timestamps, so pruning
      removes exactly the bundles that no query at that time from that block on can return. */
  lemma PrunedIffNeverMatches(b: Bundle, block: nat, timestamp: nat)
    ensures b.IsPrunable(block, timestamp) <==>
            forall n: nat {:trigger Matches(b, n, timestamp)} :: n >= block ==> !Matches(b, n, timestamp)
  {
    if !b.IsPrunable(block, timestamp) {
      assert Matches(b, b.blockNumber, timestamp);
    }
  }

  /** No removed hash is left in any index. */
  lemma PruneCleansIndexes(s: PoolState, block: nat, timestamp: nat, h: Hash, key: nat)
    requires h in Prunable(s, block, timestamp)
    ensures var s' := Prune(s, block, timestamp);
            && h !in s'.bundles
            && h !in Lookup(s'.byBlock, key) && h !in Lookup(s'.byMin, key)
            && h !in Lookup(s'.byMax, key) && h !in Lookup(s'.byUuid, key)
  {
    var removed := Prunable(s, block, timestamp);
    RetainedUnder(s.byBlock, removed, key);
    WithoutMembers(Lookup(s.byBlock, key), removed, h);
    RetainedUnder(s.byMin, removed, key);
    WithoutMembers(Lookup(s.byMin, key), removed, h);
    RetainedUnder(s.byMax, removed, key);
    WithoutMembers(Lookup(s.byMax, key), removed, h);
    RetainedUnder(s.byUuid, removed, key);
    WithoutMembers(Lookup(s.byUuid, key), removed, h);
  }

  lemma {:induction false} WithoutNothing(hashes: seq<Hash>)
    ensures Without(hashes, {}) == hashes
    decreases |hashes|
  {
    if |hashes| > 0 {
      WithoutNothing(hashes[..|hashes| - 1]);
      assert hashes == hashes[..|hashes| - 1] + [hashes[|hashes| - 1]];
    }
  }

  lemma RetainingAllChangesNothing(index: Index)
    ensures RetainAll(index, {}) == index
  {
    forall k | k in index ensures RetainAll(index, {})[k] == index[k] {
      WithoutNothing(index[k]);
    }
  }

  lemma PruneIsIdempotent(s: PoolState, block: nat, timestamp: nat)
    ensures Prune(Prune(s, block, timestamp), block, timestamp) == Prune(s, block, timestamp)
  {
    var s' := Prune(s, block, timestamp);
    assert Prunable(s', block, timestamp) == {};
    RetainingAllChangesNothing(s'.byBlock);
    RetainingAllChangesNothing(s'.byMin);
    RetainingAllChangesNothing(s'.byMax);
    RetainingAllChangesNothing(s'.byUuid);
    assert s'.bundles - {} == s'.bundles;
  }

  /** The bundles of a query result that pruning keeps. */
  function Surviving(bundles: seq<Bundle>, block: nat, timestamp: nat): seq<Bundle> {
    if |bundles| == 0 then bundles
    else
      var b := bundles[|bundles| - 1];
      Surviving(bundles[..|bundles| - 1], block, timestamp) + (if b.IsPrunable(block, timestamp) then [] else [b])
  }

  lemma SurvivingAppend(a: seq<Bundle>, b: seq<Bundle>, block: nat, timestamp: nat)
    requires |b| <= 1
    ensures Surviving(a + b, block, timestamp) ==
            Surviving(a, block, timestamp) + (if |b| == 1 && !b[0].IsPrunable(block, timestamp) then b else [])
  {
    if |b| == 1 {
      assert (a + b)[..|a + b| - 1] == a;
    } else {
      assert a + b == a;
    }
  }

  lemma {:induction false} ResolveAfterPrune(s: PoolState, hashes: seq<Hash>, block: nat, timestamp: nat, n: nat, ts: nat)
    ensures Resolve(s.bundles - Prunable(s, block, timestamp), Without(hashes, Prunable(s, block, timestamp)), n, ts)
         == Surviving(Resolve(s.bundles, hashes, n, ts), block, timestamp)
    decreases |hashes|
  {
    if |hashes| > 0 {
      var p, h := hashes[..|hashes| - 1], hashes[|hashes| - 1];
      assert hashes == p + [h];
      ResolveAfterPrune(s, p, block, timestamp, n, ts);
      ResolveAfterPruneStep(s, p, h, block, timestamp, n, ts);
    }
  }

  lemma ResolveAfterPruneStep(s: PoolState, p: seq<Hash>, h: Hash, block: nat, timestamp: nat, n: nat, ts: nat)
    requires Resolve(s.bundles - Prunable(s, block, timestamp), Without(p, Prunable(s, block, timestamp)), n, ts)
          == Surviving(Resolve(s.bundles, p, n, ts), block, timestamp)
    ensures Resolve(s.bundles - Prunable(s, block, timestamp), Without(p + [h], Prunable(s, block, timestamp)), n, ts)
         == Surviving(Resolve(s.bundles, p + [h], n, ts), block, timestamp)
  {
    var removed := Prunable(s, block, timestamp);
    var found := if h in s.bundles && Matches(s.bundles[h], n, ts) then [s.bundles[h]] else [];
    ResolveAppend(s.bundles, p, h, n, ts);
    SurvivingAppend(Resolve(s.bundles, p, n, ts), found, block, timestamp);
    WithoutAppend(p, [h], removed);
    if h in removed {
      assert Without(p + [h], removed) == Without(p, removed);
    } else {
      ResolveAppend(s.bundles - removed, Without(p, removed), h, n, ts);
    }
  }

  /** After pruning, every query answers with what it answered before less the pruned bundles. */
  lemma QueryAfterPrune(s: PoolState, block: nat, timestamp: nat, n: nat, ts: nat)
    ensures Query(Prune(s, block, timestamp), n, ts) == Surviving(Query(s, n, ts), block, timestamp)
  {
    RetainedUnder(s.byBlock, Prunable(s, block, timestamp), n);
    ResolveAfterPrune(s, Lookup(s.byBlock, n), block, timestamp, n, ts);
  }

  lemma {:induction false} SurvivingAllIff(bundles: seq<Bundle>, block: nat, timestamp: nat)
    ensures |Surviving(bundles, block, timestamp)| <= |bundles|
    ensures Surviving(bundles, block, timestamp) == bundles <==>
            forall b :: b in bundles ==> !b.IsPrunable(block, timestamp)
    decreases |bundles|
  {
    if |bundles| > 0 {
      var p, b := bundles[..|bundles| - 1], bundles[|bundles| - 1];
      assert bundles == p + [b];
      SurvivingAllIff(p, block, timestamp);
      if !b.IsPrunable(block, timestamp) && Surviving(bundles, block, timestamp) == bundles {
        assert Surviving(p, block, timestamp) == Surviving(bundles, block, timestamp)[..|p|];
      }
    }
  }

  lemma {:induction false} ResolvedMatch(bundles: map<Hash, Bundle>, hashes: seq<Hash>, block: nat, timestamp: nat)
    ensures forall b :: b in Resolve(bundles, hashes, block, timestamp) ==> Matches(b, block, timestamp)
    decreases |hashes|
  {
    if |hashes| > 0 {
      ResolvedMatch(bundles, hashes[..|hashes| - 1], block, timestamp);
    }
  }

  /** Queries for the pruning time and the pruning block or later are unaffected. */
  lemma PruneIsInvisible(s: PoolState, block: nat, timestamp: nat, n: nat)
    requires n >= block
    ensures Query(Prune(s, block, timestamp), n, timestamp) == Query(s, n, timestamp)
  {
    QueryAfterPrune(s, block, timestamp, n, timestamp);
    ResolvedMatch(s.bundles, Lookup(s.byBlock, n), n, timestamp);
    SurvivingAllIff(Query(s, n, timestamp), block, timestamp);
  }

  /** The main service prunes one block and one slot behind the coming build. That keeps the
      build's query intact exactly when none of its bundles became active within that slot. */
  lemma ServicePruneKeepsQueryIff(s: PoolState, n: nat, ts: nat)
    requires n >= 1 && ts >= 12
    ensures Query(Prune(s, n - 1, ts - 12), n, ts) == Query(s, n, ts) <==>
            forall b :: b in Query(s, n, ts) ==> b.minTimestamp.None? || b.minTimestamp.value <= ts - 12
  {
    QueryAfterPrune(s, n - 1, ts - 12, n, ts);
    ResolvedMatch(s.bundles, Lookup(s.byBlock, n), n, ts);
    SurvivingAllIff(Query(s, n, ts), n - 1, ts - 12);
  }

  lemma OnlyBundleIsFound(b: Bundle, ts: nat)
    requires b.replacementUuid.None? && b.IsWithinTimestamp(ts)
    ensures Query(Add(EMPTY, b), b.blockNumber, ts) == [b]
  {
    var s := Add(EMPTY, b);
    var none: seq<Hash> := [b.hash][..0];
    assert none + [b.hash] == [b.hash] && Lookup(s.byBlock, b.blockNumber) == [b.hash];
    ResolveAppend(s.bundles, none, b.hash, b.blockNumber, ts);
  }

  lemma NothingSurvives(b: Bundle, block: nat, timestamp: nat)
    requires b.IsPrunable(block, timestamp)
    ensures Surviving([b], block, timestamp) == []
  {
    assert |[b][..0]| == 0;
  }

  /** A pool whose one bundle became active within the last slot: the service's prune drops it, and
      the coming build, which would have found it, finds nothing. */
  lemma ServicePruneDropsBundle(b: Bundle, ts: nat)
    requires ts >= 12 && b.blockNumber >= 1 && b.replacementUuid.None?
    requires b.minTimestamp.Some? && ts - 12 < b.minTimestamp.value && b.IsWithinTimestamp(ts)
    ensures var s := After([AddOp(b)], 1);
            && Query(s, b.blockNumber, ts) == [b]
            && Query(Prune(s, b.blockNumber - 1, ts - 12), b.blockNumber, ts) == []
  {
    assert After([AddOp(b)], 1) == Apply(After([AddOp(b)], 0), AddOp(b));
    OnlyBundleIsFound(b, ts);
    QueryAfterPrune(Add(EMPTY, b), b.blockNumber - 1, ts - 12, b.blockNumber, ts);
    NothingSurvives(b, b.blockNumber - 1, ts - 12);
  }
}
