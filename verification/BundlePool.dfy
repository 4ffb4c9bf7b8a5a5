/** The bundle pool and its four indexes, against a linear scan of what is live. */
module BundlePool {
  import opened Wrappers
  import opened Evm
  import opened Bundles

  /** From a key to the hashes indexed under it, oldest first. */
  type Index = map<nat, seq<Hash>>

  function Lookup(index: Index, key: nat): seq<Hash> {
    if key in index then index[key] else []
  }

  function Push(index: Index, key: nat, hash: Hash): Index {
    index[key := Lookup(index, key) + [hash]]
  }

  /** The hashes that are not in `removed`, in their order. */
  function Without(hashes: seq<Hash>, removed: set<Hash>): (r: seq<Hash>)
    ensures |r| <= |hashes|
  {
    if |hashes| == 0 then hashes
    else
      var last := hashes[|hashes| - 1];
      Without(hashes[..|hashes| - 1], removed) + (if last in removed then [] else [last])
  }

  lemma {:induction false} WithoutMembers(hashes: seq<Hash>, removed: set<Hash>, h: Hash)
    ensures h in Without(hashes, removed) <==> h in hashes && h !in removed
    decreases |hashes|
  {
    if |hashes| > 0 {
      var p, last := hashes[..|hashes| - 1], hashes[|hashes| - 1];
      assert hashes == p + [last];
      WithoutMembers(p, removed, h);
    }
  }

  function RetainAt(index: Index, key: nat, hash: Hash): Index {
    if key in index then index[key := Without(index[key], {hash})] else index
  }

  function RetainAll(index: Index, removed: set<Hash>): Index {
    map k | k in index :: Without(index[k], removed)
  }

  lemma RetainedUnder(index: Index, removed: set<Hash>, key: nat)
    ensures Lookup(RetainAll(index, removed), key) == Without(Lookup(index, key), removed)
  {
  }

  datatype PoolState = PoolState(
    bundles: map<Hash, Bundle>,
    byBlock: Index,
    byMin: Index,
    byMax: Index,
    byUuid: Index)

  const EMPTY: PoolState := PoolState(map[], map[], map[], map[], map[])

  // ---------- what the operations do ----------

  /** Removes the bundle and its entries in the block and minimum timestamp indexes only. */
  function Cancel(s: PoolState, hash: Hash): PoolState {
    if hash !in s.bundles then s
    else
      var b := s.bundles[hash];
      s.(bundles := s.bundles - {hash},
         byMin := if b.minTimestamp.Some? then RetainAt(s.byMin, b.minTimestamp.value, hash) else s.byMin,
         byBlock := RetainAt(s.byBlock, b.blockNumber, hash))
  }

  /** The first hash indexed under the uuid is cancelled again and again, until pruning takes it
      out of the index; an entry is only made when there is none. */
  function Replace(s: PoolState, uuid: Uuid, hash: Hash): PoolState {
    var known := Lookup(s.byUuid, uuid);
    if |known| > 0 then Cancel(s, known[0]) else s.(byUuid := Push(s.byUuid, uuid, hash))
  }

  function Add(s: PoolState, b: Bundle): PoolState {
    var s' := if b.replacementUuid.Some? then Replace(s, b.replacementUuid.value, b.hash) else s;
    PoolState(
      s'.bundles[b.hash := b],
      Push(s'.byBlock, b.blockNumber, b.hash),
      if b.minTimestamp.Some? then Push(s'.byMin, b.minTimestamp.value, b.hash) else s'.byMin,
      if b.maxTimestamp.Some? then Push(s'.byMax, b.maxTimestamp.value, b.hash) else s'.byMax,
      s'.byUuid)
  }

  function Prunable(s: PoolState, block: nat, timestamp: nat): set<Hash> {
    set h | h in s.bundles && s.bundles[h].IsPrunable(block, timestamp)
  }

  function Prune(s: PoolState, block: nat, timestamp: nat): PoolState {
    var removed := Prunable(s, block, timestamp);
    PoolState(s.bundles - removed, RetainAll(s.byBlock, removed), RetainAll(s.byMin, removed),
              RetainAll(s.byMax, removed), RetainAll(s.byUuid, removed))
  }

  function Matches(b: Bundle, block: nat, timestamp: nat): bool {
    b.IsWithinTimestamp(timestamp) && b.IsWithinBlockNumber(block)
  }

  /** The live and matching bundles among these hashes, in their order. */
  function Resolve(bundles: map<Hash, Bundle>, hashes: seq<Hash>, block: nat, timestamp: nat): seq<Bundle> {
    if |hashes| == 0 then []
    else
      var h := hashes[|hashes| - 1];
      Resolve(bundles, hashes[..|hashes| - 1], block, timestamp) +
      (if h in bundles && Matches(bundles[h], block, timestamp) then [bundles[h]] else [])
  }

  /** The pool's answer, read through the block index. */
  function Query(s: PoolState, block: nat, timestamp: nat): seq<Bundle> {
    Resolve(s.bundles, Lookup(s.byBlock, block), block, timestamp)
  }

  // ---------- the pool itself ----------

  class Pool {
    var bundles: map<Hash, Bundle>
    var byBlock: Index
    var byMin: Index
    var byMax: Index
    var byUuid: Index

    constructor ()
      ensures View() == EMPTY
    {
      bundles, byBlock, byMin, byMax, byUuid := map[], map[], map[], map[], map[];
    }

    function View(): PoolState
      reads this
    {
      PoolState(bundles, byBlock, byMin, byMax, byUuid)
    }

    method CancelBundle(hash: Hash) returns (found: bool)
      modifies this
      ensures View() == Cancel(old(View()), hash) && found == (hash in old(bundles))
    {
      if hash !in bundles {
        return false;
      }
      var b := bundles[hash];
      bundles := bundles - {hash};
      if b.minTimestamp.Some? && b.minTimestamp.value in byMin {
        byMin := byMin[b.minTimestamp.value := Without(byMin[b.minTimestamp.value], {hash})];
      }
      if b.blockNumber in byBlock {
        byBlock := byBlock[b.blockNumber := Without(byBlock[b.blockNumber], {hash})];
      }
      found := true;
    }

    method HandleReplacementUuid(uuid: Uuid, hash: Hash) returns (ok: bool)
      modifies this
      ensures View() == Replace(old(View()), uuid, hash)
      ensures !ok <==> |Lookup(old(byUuid), uuid)| > 0 && Lookup(old(byUuid), uuid)[0] !in old(bundles)
    {
      var known := Lookup(byUuid, uuid);
      if |known| > 0 {
        ok := CancelBundle(known[0]);
      } else {
        byUuid := Push(byUuid, uuid, hash);
        ok := true;
      }
    }

    method AddBundle(b: Bundle) returns (hash: Hash)
      modifies this
      ensures View() == Add(old(View()), b) && hash == b.hash
    {
      hash := b.hash;
      if b.replacementUuid.Some? {
        var _ := HandleReplacementUuid(b.replacementUuid.value, hash);
      }
      bundles := bundles[hash := b];
      byBlock := Push(byBlock, b.blockNumber, hash);
      if b.minTimestamp.Some? {
        byMin := Push(byMin, b.minTimestamp.value, hash);
      }
      if b.maxTimestamp.Some? {
        byMax := Push(byMax, b.maxTimestamp.value, hash);
      }
    }

    method RemovePrunable(block: nat, timestamp: nat) returns (removed: set<Hash>)
      modifies this`bundles
      ensures removed == Prunable(old(View()), block, timestamp)
      ensures bundles == old(bundles) - removed
    {
      ghost var live := bundles;
      removed := {};
      var todo := bundles.Keys;
      while todo != {}
        invariant todo <= live.Keys && bundles == live - removed
        invariant forall h :: h in removed <==> h in live && h !in todo && live[h].IsPrunable(block, timestamp)
        decreases todo
      {
        var h :| h in todo;
        if bundles[h].IsPrunable(block, timestamp) {
          bundles := bundles - {h};
          removed := removed + {h};
        }
        todo := todo - {h};
      }
    }

    /** Removes the prunable bundles one by one, then their hashes from every index. The
        counts returned are the bundles removed and the bundles left. */
    method PruneBundles(block: nat, timestamp: nat) returns (removed: nat, size: nat)
      modifies this
      ensures View() == Prune(old(View()), block, timestamp)
      ensures removed == |Prunable(old(View()), block, timestamp)| && size == |bundles|
      ensures removed + size == |old(bundles)|
    {
      var hashes := RemovePrunable(block, timestamp);
      byBlock := RetainNot(byBlock, hashes);
      byMin := RetainNot(byMin, hashes);
      byMax := RetainNot(byMax, hashes);
      byUuid := RetainNot(byUuid, hashes);
      removed, size := |hashes|, |bundles|;
      assert old(bundles).Keys == bundles.Keys + hashes;
      assert |bundles.Keys + hashes| == |bundles.Keys| + |hashes|;
    }
  }

  /** Goes over the lists of an index and drops the removed hashes. */
  method RetainNot(index: Index, removed: set<Hash>) returns (r: Index)
    ensures r == RetainAll(index, removed)
  {
    r := index;
    var todo := index.Keys;
    while todo != {}
      invariant todo <= index.Keys && r.Keys == index.Keys
      invariant forall k :: k in index ==> r[k] == if k in todo then index[k] else Without(index[k], removed)
      decreases todo
    {
      var k :| k in todo;
      r := r[k := Without(r[k], removed)];
      todo := todo - {k};
    }
  }
}
