/**
 * The bookkeeping of one `updateImageWall` call: the batch of texture loads
 * it issues, the per-call `loadedCount` its callbacks share, and the tiles
 * its successful loads add to the wall.
 */
module ImageWall {
  import opened WallLayout

  /** A mesh on the wall: the batch and index of the load that made it, its URL and its slot. */
  datatype Tile = Tile(batch: nat, index: nat, url: string, slot: Slot)

  /**
   * One call's loads. `settled` holds the indices whose success or error
   * callback has run, `loaded` is the call's own `loadedCount`, `successes`
   * the tiles it has added and `hides` the times it called `hideLoadingSpinner`.
   */
  datatype Batch = Batch(city: string, urls: seq<string>, loaded: nat, settled: set<nat>,
                         successes: nat, hides: nat)

  /** The batch right after the loads are issued: `loadedCount = 0`, nothing settled. */
  function Issue(city: string, urls: seq<string>): (b: Batch)
    ensures b.city == city && b.urls == urls
    ensures BatchValid(b) && b.loaded == 0 && b.hides == 0
  {
    Batch(city, urls, 0, {}, 0, 0)
  }

  predicate Pending(b: Batch, i: nat)
  {
    i < |b.urls| && i !in b.settled
  }

  predicate Finished(b: Batch)
  {
    b.loaded == |b.urls|
  }

  /** The batch invariant: the counter counts settled loads, and the spinner was hidden once iff it is full. */
  predicate BatchValid(b: Batch)
  {
    && (forall i :: i in b.settled ==> i < |b.urls|)
    && b.loaded == |b.settled|
    && b.successes <= b.loaded
    && b.hides == (if Finished(b) && |b.urls| > 0 then 1 else 0)
  }

  /**
   * A success or error callback for load `i`: `loadedCount++`, and
   * `hideLoadingSpinner()` when it reaches `totalImages`.
   */
  function Settle(b: Batch, i: nat, ok: bool): (r: Batch)
    requires Pending(b, i)
    ensures r.urls == b.urls && r.city == b.city && r.settled == b.settled + {i}
    ensures r.loaded == b.loaded + 1
    ensures r.successes == b.successes + (if ok then 1 else 0)
    ensures r.hides == b.hides + (if r.loaded == |b.urls| then 1 else 0)
  {
    var loadedCount := b.loaded + 1;
    b.(loaded := loadedCount, settled := b.settled + {i},
       successes := if ok then b.successes + 1 else b.successes,
       hides := if loadedCount == |b.urls| then b.hides + 1 else b.hides)
  }

  /** Each callback counts once, and the spinner-hide fires on the last one and never before. */
  lemma SettleKeepsValid(b: Batch, i: nat, ok: bool)
    requires BatchValid(b) && Pending(b, i)
    ensures BatchValid(Settle(b, i, ok))
    ensures Settle(b, i, ok).hides == 1 <==> Finished(Settle(b, i, ok))
  {
    assert |b.settled + {i}| == |b.settled| + 1;
    SettledBound(b.settled + {i}, |b.urls|);
  }

  /** A set of indices below `n` has at most `n` elements. */
  lemma {:induction false} SettledBound(s: set<nat>, n: nat)
    requires forall i :: i in s ==> i < n
    ensures |s| <= n
    decreases n
  {
    if n > 0 {
      var s' := s - {n - 1};
      SettledBound(s', n - 1);
    }
  }

  /** The callbacks of a batch in the order they arrive: the index and whether it loaded. */
  type Arrival = (nat, bool)

  predicate ArrivalsFresh(b: Batch, arrivals: seq<Arrival>)
  {
    && (forall p :: 0 <= p < |arrivals| ==> Pending(b, arrivals[p].0))
    && (forall p, q :: 0 <= p < q < |arrivals| ==> arrivals[p].0 != arrivals[q].0)
  }

  function SettleAll(b: Batch, arrivals: seq<Arrival>): Batch
    requires ArrivalsFresh(b, arrivals)
    decreases |arrivals|
  {
    if arrivals == [] then b
    else
      var b' := Settle(b, arrivals[0].0, arrivals[0].1);
      assert ArrivalsFresh(b', arrivals[1..]);
      SettleAll(b', arrivals[1..])
  }

  function CountOk(arrivals: seq<Arrival>): nat
  {
    if arrivals == [] then 0 else (if arrivals[0].1 then 1 else 0) + CountOk(arrivals[1..])
  }

  lemma {:induction false} SettleAllSpec(b: Batch, arrivals: seq<Arrival>)
    requires BatchValid(b) && ArrivalsFresh(b, arrivals)
    ensures var r := SettleAll(b, arrivals);
      && BatchValid(r) && r.urls == b.urls
      && r.loaded == b.loaded + |arrivals|
      && r.successes == b.successes + CountOk(arrivals)
    decreases |arrivals|
  {
    if arrivals != [] {
      var b' := Settle(b, arrivals[0].0, arrivals[0].1);
      SettleKeepsValid(b, arrivals[0].0, arrivals[0].1);
      assert ArrivalsFresh(b', arrivals[1..]);
      SettleAllSpec(b', arrivals[1..]);
    }
  }

  /**
   * A whole batch of N requests, K of which succeed, in any arrival order:
   * the spinner-hide fires exactly once, only after the N-th callback, and
   * the batch adds exactly K tiles.
   */
  lemma BatchOutcome(city: string, urls: seq<string>, arrivals: seq<Arrival>)
    requires |urls| > 0 && |arrivals| == |urls|
    requires ArrivalsFresh(Issue(city, urls), arrivals)
    ensures SettleAll(Issue(city, urls), arrivals).hides == 1
    ensures SettleAll(Issue(city, urls), arrivals).successes == CountOk(arrivals)
    ensures forall k :: 0 <= k < |arrivals| ==> SettleAll(Issue(city, urls), arrivals[..k]).hides == 0
  {
    var b := Issue(city, urls);
    SettleAllSpec(b, arrivals);
    forall k | 0 <= k < |arrivals|
      ensures SettleAll(b, arrivals[..k]).hides == 0
    {
      assert ArrivalsFresh(b, arrivals[..k]);
      SettleAllSpec(b, arrivals[..k]);
    }
  }

  /** How many tiles on the wall came from batch `batch`. */
  function CountTiles(wall: seq<Tile>, batch: nat): (n: nat)
    ensures n <= |wall|
  {
    if wall == [] then 0
    else CountTiles(wall[..|wall| - 1], batch) + (if wall[|wall| - 1].batch == batch then 1 else 0)
  }

  lemma CountTilesAppend(wall: seq<Tile>, t: Tile, batch: nat)
    ensures CountTiles(wall + [t], batch) == CountTiles(wall, batch) + (if t.batch == batch then 1 else 0)
  {
    assert (wall + [t])[..|wall|] == wall;
  }

  /**
   * A tile on the wall belongs to a load of an issued batch whose callback
   * has run; `SettleWall` adds a tile only on the success callback.
   */
  predicate TileFits(t: Tile, batches: seq<Batch>)
  {
    && t.batch < |batches|
    && t.index in batches[t.batch].settled
    && t.index < |batches[t.batch].urls|
    && t.url == batches[t.batch].urls[t.index]
    && t.slot == SlotOf(t.index)
  }

  /** Every batch from the `n`-th on is well formed (stated batch by batch). */
  predicate BatchesValidFrom(batches: seq<Batch>, n: nat)
    decreases |batches| - n
  {
    n >= |batches| || (BatchValid(batches[n]) && BatchesValidFrom(batches, n + 1))
  }

  /** Every batch issued so far is well formed. */
  predicate BatchesValid(batches: seq<Batch>)
  {
    BatchesValidFrom(batches, 0)
  }

  lemma {:induction false} BatchesValidAt(batches: seq<Batch>, n: nat, b: nat)
    requires BatchesValidFrom(batches, n) && n <= b < |batches|
    ensures BatchValid(batches[b])
    decreases b - n
  {
    if n < b {
      BatchesValidAt(batches, n + 1, b);
    }
  }

  lemma {:induction false} BatchesValidUpdate(batches: seq<Batch>, n: nat, b: nat, x: Batch)
    requires BatchesValidFrom(batches, n) && b < |batches| && BatchValid(x)
    ensures BatchesValidFrom(batches[b := x], n)
    decreases |batches| - n
  {
    if n < |batches| {
      BatchesValidUpdate(batches, n + 1, b, x);
    }
  }

  lemma {:induction false} BatchesValidAppend(batches: seq<Batch>, n: nat, x: Batch)
    requires BatchesValidFrom(batches, n) && BatchValid(x)
    ensures BatchesValidFrom(batches + [x], n)
    decreases |batches| + 1 - n
  {
    if n < |batches| {
      BatchesValidAppend(batches, n + 1, x);
    }
  }

  /** No tile before the `n`-th came from the same load as the `n`-th. */
  predicate FreshLoad(wall: seq<Tile>, n: nat)
    requires n < |wall|
  {
    forall p :: 0 <= p < n ==> wall[p].batch != wall[n].batch || wall[p].index != wall[n].index
  }

  /** Every tile from the `n`-th on fits the batches and came from a load no earlier tile came from. */
  predicate TilesValidFrom(wall: seq<Tile>, batches: seq<Batch>, n: nat)
    decreases |wall| - n
  {
    n >= |wall| ||
    (TileFits(wall[n], batches) && FreshLoad(wall, n) && TilesValidFrom(wall, batches, n + 1))
  }

  predicate TilesValid(wall: seq<Tile>, batches: seq<Batch>)
  {
    TilesValidFrom(wall, batches, 0)
  }

  lemma {:induction false} TilesValidAt(wall: seq<Tile>, batches: seq<Batch>, n: nat, p: nat)
    requires TilesValidFrom(wall, batches, n) && n <= p < |wall|
    ensures TileFits(wall[p], batches) && FreshLoad(wall, p)
    decreases p - n
  {
    if n < p {
      TilesValidAt(wall, batches, n + 1, p);
    }
  }

  /** No two tiles on a valid wall came from the same load. */
  lemma TilesDistinct(wall: seq<Tile>, batches: seq<Batch>, p: nat, q: nat)
    requires TilesValid(wall, batches) && p < q < |wall|
    ensures wall[p].batch != wall[q].batch || wall[p].index != wall[q].index
  {
    TilesValidAt(wall, batches, 0, q);
  }

  /** Settling a pending load never unseats a tile already on the wall. */
  lemma {:induction false} TilesValidSettle(wall: seq<Tile>, batches: seq<Batch>, n: nat, b: nat, i: nat, ok: bool)
    requires TilesValidFrom(wall, batches, n) && b < |batches| && Pending(batches[b], i)
    ensures TilesValidFrom(wall, batches[b := Settle(batches[b], i, ok)], n)
    decreases |wall| - n
  {
    if n < |wall| {
      TilesValidSettle(wall, batches, n + 1, b, i, ok);
    }
  }

  /** A fitting tile from a load no tile came from can join a valid wall. */
  lemma {:induction false} TilesValidAppend(wall: seq<Tile>, batches: seq<Batch>, n: nat, t: Tile)
    requires TilesValidFrom(wall, batches, n) && TileFits(t, batches)
    requires forall p :: 0 <= p < |wall| ==> wall[p].batch != t.batch || wall[p].index != t.index
    ensures TilesValidFrom(wall + [t], batches, n)
    decreases |wall| - n
  {
    if n < |wall| {
      assert (wall + [t])[n] == wall[n];
      TilesValidAppend(wall, batches, n + 1, t);
    }
  }

  /**
   * The wall holds one tile per success at most for every batch; an older
   * batch may have lost its earlier tiles to a clear, while the latest batch
   * has a tile for each of its successes.
   */
  predicate CountsValid(wall: seq<Tile>, batches: seq<Batch>)
  {
    && (forall b :: 0 <= b < |batches| ==> CountTiles(wall, b) <= batches[b].successes)
    && (batches != [] ==> CountTiles(wall, |batches| - 1) == batches[|batches| - 1].successes)
  }

  predicate WallValid(wall: seq<Tile>, batches: seq<Batch>)
  {
    TilesValid(wall, batches) && CountsValid(wall, batches)
  }

  /** Two tiles of the same batch never occupy the same slot. */
  lemma WallSlotsDistinct(wall: seq<Tile>, batches: seq<Batch>, p: nat, q: nat)
    requires WallValid(wall, batches)
    requires p < q < |wall| && wall[p].batch == wall[q].batch
    ensures wall[p].slot != wall[q].slot
  {
    TilesDistinct(wall, batches, p, q);
    TilesValidAt(wall, batches, 0, p);
    TilesValidAt(wall, batches, 0, q);
    SlotOfInjective(wall[p].index, wall[q].index);
  }

  /** The wall after load `i` of batch `b` settles: a success adds its tile, an error adds nothing. */
  function SettleWall(wall: seq<Tile>, batches: seq<Batch>, b: nat, i: nat, ok: bool): (r: seq<Tile>)
    requires b < |batches| && Pending(batches[b], i)
    ensures |r| == |wall| + (if ok then 1 else 0) && r[..|wall|] == wall
  {
    if ok then wall + [Tile(b, i, batches[b].urls[i], SlotOf(i))] else wall
  }

  /**
   * A settling load, of the latest batch or of a stale one, keeps every
   * batch valid and the wall consistent with the batches.
   */
  lemma SettleKeepsWall(wall: seq<Tile>, batches: seq<Batch>, b: nat, i: nat, ok: bool)
    requires BatchesValid(batches) && WallValid(wall, batches)
    requires b < |batches| && Pending(batches[b], i)
    ensures BatchesValid(batches[b := Settle(batches[b], i, ok)])
    ensures WallValid(SettleWall(wall, batches, b, i, ok), batches[b := Settle(batches[b], i, ok)])
  {
    var batch := Settle(batches[b], i, ok);
    var settled := batches[b := batch];
    BatchesValidAt(batches, 0, b);
    SettleKeepsValid(batches[b], i, ok);
    BatchesValidUpdate(batches, 0, b, batch);
    TilesValidSettle(wall, batches, 0, b, i, ok);
    if ok {
      var t := Tile(b, i, batches[b].urls[i], SlotOf(i));
      forall p | 0 <= p < |wall|
        ensures wall[p].batch != t.batch || wall[p].index != t.index
      {
        TilesValidAt(wall, batches, 0, p);
      }
      TilesValidAppend(wall, settled, 0, t);
      forall c | 0 <= c < |settled|
        ensures CountTiles(wall + [t], c) == CountTiles(wall, c) + (if c == b then 1 else 0)
      {
        CountTilesAppend(wall, t, c);
      }
    }
  }

  /** Issuing a new batch over a cleared wall keeps the batches and the wall valid. */
  lemma IssueKeepsWall(batches: seq<Batch>, city: string, urls: seq<string>)
    requires BatchesValid(batches)
    ensures BatchesValid(batches + [Issue(city, urls)])
    ensures WallValid([], batches + [Issue(city, urls)])
  {
    BatchesValidAppend(batches, 0, Issue(city, urls));
  }
}
