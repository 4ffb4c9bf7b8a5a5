/** The internal relay's cache of the builder's own bids, against the history of all of them. */
module RelayBidCache {
  import opened Wrappers
  import opened Words

  /** Number of blocks kept behind the highest block seen. */
  const MAX_CACHE_BLOCK_SIZE: nat := 4

  datatype Bid = Bid(id: nat, block: nat, value: U256)

  /** A bid and the time its trace was taken. */
  datatype Entry = Entry(bid: Bid, timestampMs: nat)

  // ---------- the history ----------

  /** All bids ever inserted for block `n`, in order. */
  function BidsFor(history: seq<Entry>, n: nat): seq<Entry> {
    if |history| == 0 then []
    else
      var last := history[|history| - 1];
      BidsFor(history[..|history| - 1], n) + (if last.bid.block == n then [last] else [])
  }

  /** Highest block ever inserted, 0 before the first. */
  function Highest(history: seq<Entry>): nat {
    if |history| == 0 then 0
    else Max(Highest(history[..|history| - 1]), history[|history| - 1].bid.block)
  }

  /** Block `n` was inserted at some time and is less than 4 behind the highest. */
  predicate Visible(history: seq<Entry>, n: nat) {
    |BidsFor(history, n)| > 0 && n + MAX_CACHE_BLOCK_SIZE > Highest(history)
  }

  lemma HistoryAppend(history: seq<Entry>, e: Entry, n: nat)
    ensures BidsFor(history + [e], n) == BidsFor(history, n) + (if e.bid.block == n then [e] else [])
    ensures Highest(history + [e]) == Max(Highest(history), e.bid.block)
  {
    assert (history + [e])[..|history + [e]| - 1] == history;
  }

  lemma VisibleAppend(history: seq<Entry>, e: Entry, n: nat)
    ensures Visible(history + [e], n) <==>
            (Visible(history, n) || e.bid.block == n) && n + MAX_CACHE_BLOCK_SIZE > Max(Highest(history), e.bid.block)
    ensures Visible(history + [e], n) ==>
      BidsFor(history + [e], n) ==
      (if Visible(history, n) then BidsFor(history, n) else []) + (if e.bid.block == n then [e] else [])
  {
    HistoryAppend(history, e, n);
  }

  // ---------- the best bid ----------

  /** The last entry of maximal value among those traced before `timestamp`. */
  ghost predicate IsBest(bids: seq<Entry>, timestamp: nat, i: nat) {
    && i < |bids| && bids[i].timestampMs < timestamp
    && forall j :: 0 <= j < |bids| && bids[j].timestampMs < timestamp ==>
         bids[j].bid.value < bids[i].bid.value || (bids[j].bid.value == bids[i].bid.value && j <= i)
  }

  /** Filters by time and keeps the last maximum. */
  function BestIndex(bids: seq<Entry>, timestamp: nat, n: nat): Option<nat>
    requires n <= |bids|
  {
    if n == 0 then None
    else
      var best := BestIndex(bids, timestamp, n - 1);
      if bids[n - 1].timestampMs < timestamp
         && (best.None? || best.value >= n - 1 || bids[best.value].bid.value <= bids[n - 1].bid.value)
      then Some(n - 1)
      else best
  }

  /** The scan finds an entry exactly when there is one early enough, and then the latest of
      maximal value. */
  lemma {:induction false} BestIndexIsBest(bids: seq<Entry>, timestamp: nat, n: nat)
    requires n <= |bids|
    ensures match BestIndex(bids, timestamp, n)
            case None => forall j :: 0 <= j < n ==> bids[j].timestampMs >= timestamp
            case Some(i) => i < n && IsBest(bids[..n], timestamp, i)
  {
    if n > 0 {
      BestIndexIsBest(bids, timestamp, n - 1);
      assert forall j :: 0 <= j < n - 1 ==> bids[..n - 1][j] == bids[..n][j];
    }
  }

  class BidCache {
    var lastBlock: nat
    var cache: map<nat, seq<Entry>>
    ghost var history: seq<Entry>

    /** The cache shows exactly the visible part of the history. */
    ghost predicate Valid()
      reads this
    {
      && lastBlock == Highest(history)
      && forall n: nat {:trigger n in cache} :: (n in cache <==> Visible(history, n))
           && (n in cache ==> cache[n] == BidsFor(history, n))
    }

    constructor ()
      ensures Valid() && history == []
    {
      lastBlock, cache, history := 0, map[], [];
    }

    /** Appends to the block's list and drops what has become too old, whatever the order in
        which blocks arrive. */
    method Insert(bid: Bid, now: nat)
      requires Valid()
      modifies this
      ensures Valid() && history == old(history) + [Entry(bid, now)]
    {
      var n, e := bid.block, Entry(bid, now);
      if n in cache {
        cache := cache[n := cache[n] + [e]];
      } else {
        cache := cache[n := [e]];
      }
      lastBlock := Max(lastBlock, n);
      Resize();
      HistoryAppend(history, e, n);
      forall k: nat
        ensures k in cache <==> Visible(history + [e], k)
        ensures k in cache ==> cache[k] == BidsFor(history + [e], k)
      {
        VisibleAppend(history, e, k);
      }
      history := history + [e];
    }

    /** Removes every block at least 4 behind the last one. */
    method Resize()
      modifies this`cache
      ensures forall n: nat {:trigger n in cache} :: n in cache <==> n in old(cache) && n + MAX_CACHE_BLOCK_SIZE > lastBlock
      ensures forall n: nat {:trigger cache[n]} :: n in cache ==> cache[n] == old(cache)[n]
    {
      if lastBlock < MAX_CACHE_BLOCK_SIZE {
        return;
      }
      var expired := set n | n in cache.Keys && n <= lastBlock - MAX_CACHE_BLOCK_SIZE;
      while expired != {}
        invariant cache.Keys <= old(cache).Keys
        invariant forall n :: n in cache ==> cache[n] == old(cache)[n]
        invariant forall n :: n in expired ==> n in cache
        invariant forall n {:trigger n in cache} :: n in old(cache) && n !in expired ==>
                    (n in cache <==> n + MAX_CACHE_BLOCK_SIZE > lastBlock)
        decreases expired
      {
        var n :| n in expired;
        expired := expired - {n};
        cache := cache - {n};
      }
    }

    method GetAllBids(n: nat) returns (bids: Option<seq<Entry>>)
      requires Valid()
      ensures bids == if Visible(history, n) then Some(BidsFor(history, n)) else None
    {
      bids := if n in cache then Some(cache[n]) else None;
    }

    /** Of a visible block's bids, the latest of maximal value among those traced earlier. */
    method GetBestBid(n: nat, timestamp: nat) returns (best: Option<Bid>)
      requires Valid()
      ensures best.Some? ==>
        && Visible(history, n)
        && var bids := BidsFor(history, n);
           exists i :: 0 <= i < |bids| && bids[i].bid == best.value && bids[i].timestampMs < timestamp
             && (forall j :: 0 <= j < i && bids[j].timestampMs < timestamp ==> bids[j].bid.value <= bids[i].bid.value)
             && (forall j :: i < j < |bids| && bids[j].timestampMs < timestamp ==> bids[j].bid.value < bids[i].bid.value)
      ensures best.None? && Visible(history, n) ==>
        forall j :: 0 <= j < |BidsFor(history, n)| ==> BidsFor(history, n)[j].timestampMs >= timestamp
    {
      best := None;
      var bids := GetAllBids(n);
      if bids.Some? {
        var i := BestIndex(bids.value, timestamp, |bids.value|);
        BestIndexIsBest(bids.value, timestamp, |bids.value|);
        assert bids.value[..|bids.value|] == bids.value;
        if i.Some? {
          best := Some(bids.value[i.value].bid);
        }
      }
    }
  }

  lemma {:induction false} BoundedRange(s: set<nat>, top: nat, k: nat)
    requires forall n :: n in s ==> n <= top < n + k
    ensures |s| <= k
    decreases k
  {
    if k == 0 {
      assert s == {};
    } else {
      var rest := s - {if top + 1 >= k then top + 1 - k else 0};
      if top + 1 >= k {
        BoundedRange(rest, top, k - 1);
        assert s <= rest + {top + 1 - k};
      } else {
        BoundedRange(s, top, k - 1);
      }
    }
  }

  lemma {:induction false} HighestIs(history: seq<Entry>)
    ensures forall i :: 0 <= i < |history| ==> history[i].bid.block <= Highest(history)
    ensures |history| > 0 ==> exists i :: 0 <= i < |history| && history[i].bid.block == Highest(history)
    decreases |history|
  {
    if |history| > 0 {
      var p, last := history[..|history| - 1], history[|history| - 1];
      assert forall i :: 0 <= i < |p| ==> p[i] == history[i];
      HighestIs(p);
      if last.bid.block >= Highest(p) {
        assert history[|history| - 1].bid.block == Highest(history);
      } else {
        var i :| 0 <= i < |p| && p[i].bid.block == Highest(p);
        assert history[i].bid.block == Highest(history);
      }
    }
  }

  lemma {:induction false} BidsForAre(history: seq<Entry>, n: nat, e: Entry)
    ensures multiset(BidsFor(history, n))[e] == if e.bid.block == n then multiset(history)[e] else 0
    decreases |history|
  {
    if |history| > 0 {
      var p, last := history[..|history| - 1], history[|history| - 1];
      assert history == p + [last];
      BidsForAre(p, n, e);
    }
  }

  lemma InsertedIff(history: seq<Entry>, n: nat)
    ensures |BidsFor(history, n)| > 0 <==> exists i :: 0 <= i < |history| && history[i].bid.block == n
  {
    if |BidsFor(history, n)| > 0 {
      var b := BidsFor(history, n)[0];
      BidsForAre(history, n, b);
      assert b in multiset(history);
    }
    if i :| 0 <= i < |history| && history[i].bid.block == n {
      BidsForAre(history, n, history[i]);
      assert history[i] in multiset(BidsFor(history, n));
    }
  }

  /** After any history, a block is held exactly if a bid was ever inserted for it and none for a block
      4 or more higher, and then it holds each bid as often as it was inserted. */
  lemma HeldIff(c: BidCache, n: nat, e: Entry)
    requires c.Valid()
    ensures n in c.cache <==>
            && (exists i :: 0 <= i < |c.history| && c.history[i].bid.block == n)
            && (forall i :: 0 <= i < |c.history| ==> c.history[i].bid.block < n + 4)
    ensures n in c.cache ==> multiset(c.cache[n])[e] == if e.bid.block == n then multiset(c.history)[e] else 0
  {
    HighestIs(c.history);
    BidsForAre(c.history, n, e);
    InsertedIff(c.history, n);
  }

  lemma {:induction false} InsertedAtMostHighest(history: seq<Entry>, n: nat)
    requires |BidsFor(history, n)| > 0
    ensures n <= Highest(history)
  {
    var p := history[..|history| - 1];
    if |BidsFor(p, n)| > 0 {
      InsertedAtMostHighest(p, n);
    }
  }

  /** After any history, at most 4 blocks are held. */
  lemma AtMostFourBlocks(c: BidCache)
    requires c.Valid()
    ensures |c.cache| <= 4
  {
    forall n | n in c.cache.Keys
      ensures n <= c.lastBlock < n + MAX_CACHE_BLOCK_SIZE
    {
      InsertedAtMostHighest(c.history, n);
    }
    BoundedRange(c.cache.Keys, c.lastBlock, MAX_CACHE_BLOCK_SIZE);
  }

  /** A block that is no longer visible never becomes visible again, not even by inserting for it. */
  lemma ExpiredStaysExpired(history: seq<Entry>, e: Entry, n: nat)
    requires n + MAX_CACHE_BLOCK_SIZE <= Highest(history)
    ensures !Visible(history + [e], n)
  {
    HistoryAppend(history, e, n);
  }
}
