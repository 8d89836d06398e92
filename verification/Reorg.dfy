/** Reorg detection and rollback, internal/reorg/reorg.go. */
module Reorg {
  import opened Prelude
  import opened Chains
  import opened LogTable
  import opened Store
  import opened Rpc
  import opened Extract

  datatype Detection = DetectFailed | Clean | Reorged(from: uint64)

  /** Roll back to the end of the checkpoint before cp, or to cp's own start when there is none. */
  ghost predicate RollbackPoint(cps: seq<Checkpoint>, cp: Checkpoint, from: nat) {
    if forall c | c in cps :: cp.start <= c.end then from == cp.start
    else exists prev :: IsNewestBefore(cps, cp.start, prev) && from == Wrap(prev.end + 1)
  }

  /** The verdict that the next answer justifies: the hash of a newest checkpoint is the chain's, or it is not. */
  ghost predicate Detected(fates: seq<Fate>, cps: seq<Checkpoint>, d: Detection) {
    if cps == [] then d.Clean?
    else
      exists cp ::
        IsNewest(cps, cp) && fates != [] && HeaderAt(fates[0], cp.end).Some? &&
        if HeaderAt(fates[0], cp.end).value.hash == cp.hash then d.Clean?
        else d.Reorged? && RollbackPoint(cps, cp, d.from)
  }

  lemma DetectedBy(fates: seq<Fate>, cps: seq<Checkpoint>, cp: Checkpoint, d: Detection)
    requires IsNewest(cps, cp) && fates != [] && HeaderAt(fates[0], cp.end).Some?
    requires if HeaderAt(fates[0], cp.end).value.hash == cp.hash then d.Clean?
             else d.Reorged? && RollbackPoint(cps, cp, d.from)
    ensures Detected(fates, cps, d)
  {
    assert cp in cps;
  }

  lemma NothingDetected(fates: seq<Fate>, cps: seq<Checkpoint>)
    requires |cps| == 0
    ensures Detected(fates, cps, Clean)
  {
  }

  /** The end of a newest checkpoint before cp, or cp's own start if there is none, tiled or not. */
  lemma RollbackPointMeans(cps: seq<Checkpoint>, cp: Checkpoint, from: nat)
    requires RollbackPoint(cps, cp, from)
    ensures if forall c | c in cps :: cp.start <= c.end then from == cp.start
            else exists prev ::
                   prev in cps && prev.end < cp.start &&
                   (forall c | c in cps && c.end < cp.start :: c.end <= prev.end) && from == Wrap(prev.end + 1)
  {
    hide Wrap;
    if c :| c in cps && c.end < cp.start {
      var prev :| IsNewestBefore(cps, cp.start, prev) && from == Wrap(prev.end + 1);
      assert prev in cps;
    }
  }

  /** What a verdict says of any checkpoints, tiled or not. */
  lemma DetectedMeans(fates: seq<Fate>, cps: seq<Checkpoint>, d: Detection)
    requires Detected(fates, cps, d)
    ensures if cps == [] then d.Clean?
            else exists cp ::
              cp in cps && (forall c | c in cps :: c.end <= cp.end) &&
              fates != [] && fates[0].Up? && cp.end < |fates[0].chain| &&
              if fates[0].chain[cp.end].hash == cp.hash then d.Clean?
              else d.Reorged? && RollbackPoint(cps, cp, d.from)
  {
    hide Wrap, RollbackPoint;
    if cps != [] {
      var cp :| IsNewest(cps, cp) && fates != [] && HeaderAt(fates[0], cp.end).Some? &&
                if HeaderAt(fates[0], cp.end).value.hash == cp.hash then d.Clean?
                else d.Reorged? && RollbackPoint(cps, cp, d.from);
      assert cp in cps;
    }
  }

  lemma PointsBack(cps: seq<Checkpoint>, cp: Checkpoint, prev: Option<Checkpoint>, from: nat)
    requires prev.None? <==> forall c | c in cps :: cp.start <= c.end
    requires prev.Some? ==> IsNewestBefore(cps, cp.start, prev.value)
    requires from == if prev.Some? then Wrap(prev.value.end + 1) else cp.start
    ensures RollbackPoint(cps, cp, from)
  {
    hide Wrap;
  }

  lemma NewestIsReached(fates: seq<Fate>, cps: seq<Checkpoint>, cp: Checkpoint)
    requires IsNewest(cps, cp)
    ensures (forall c | c in cps :: Reach(fates, c.end)) ==>
              (fates == [] || HeaderAt(fates[0], cp.end).Some?) && (fates == [] ==> Rest(fates) == [])
  {
  }

  method Detect(client: Client, store: LogStore) returns (d: Detection)
    modifies client`fates, store`verdicts
    ensures !d.DetectFailed? ==> Detected(old(client.fates), store.checkpoints, d)
    ensures client.fates == old(client.fates) || client.fates == Rest(old(client.fates))
    ensures store.checkpoints == [] ==> client.fates == old(client.fates)
    ensures store.checkpoints != [] && !d.DetectFailed? ==> client.fates == Rest(old(client.fates))
    ensures old(store.Reliable()) ==> store.Reliable()
    ensures (forall c | c in store.checkpoints :: Reach(old(client.fates), c.end)) && old(store.Reliable()) ==>
              d.DetectFailed? ==> client.fates == []
  {
    hide IsNewest, IsNewestBefore, RollbackPoint, Detected, HeaderOf, Wrap;
    ghost var fates := client.fates;
    var ok, last := store.LastCheckpoint();
    if !ok {
      return DetectFailed;
    }
    if last.None? {
      NothingDetected(fates, store.checkpoints);
      return Clean;
    }
    var cp := last.value;
    NewestIsReached(fates, store.checkpoints, cp);
    var header := client.GetBlockByNumber(cp.end);
    if header.None? {
      return DetectFailed;
    }
    if header.value.hash == cp.hash {
      DetectedBy(fates, store.checkpoints, cp, Clean);
      return Clean;
    }
    var found, prev := store.CheckpointBefore(cp.start);
    if !found {
      return DetectFailed;
    }
    var rollbackFrom := cp.start;
    if prev.Some? {
      rollbackFrom := Wrap(prev.value.end + 1);
    }
    PointsBack(store.checkpoints, cp, prev, rollbackFrom);
    d := Reorged(rollbackFrom);
    DetectedBy(fates, store.checkpoints, cp, d);
  }

  method Rollback(store: LogStore, fromBlock: uint64) returns (ok: bool)
    modifies store
    ensures ok ==> store.Contents() == RolledBack(old(store.Contents()), fromBlock)
    ensures ok ==> forall c ::
              multiset(store.checkpoints)[c] ==
                if c.start < fromBlock then multiset(old(store.checkpoints))[c] else 0
    ensures ok ==> forall k ::
              (k in store.logs <==> k in old(store.logs) && old(store.logs)[k].blockNumber < fromBlock) &&
              (k in store.logs ==> store.logs[k] == old(store.logs)[k])
    ensures !ok ==> store.checkpoints == old(store.checkpoints)
    ensures !ok ==> store.logs == old(store.logs) || store.logs == Below(old(store.logs), fromBlock)
    ensures store.rollbacks == old(store.rollbacks) + 1
    ensures old(store.Reliable()) ==> ok && store.Reliable()
  {
    ok := store.RollbackFrom(fromBlock);
  }

  /** On tiled checkpoints the last one's hash decides. */
  lemma NewestDecides(fates: seq<Fate>, cps: seq<Checkpoint>, lo: nat, hi: nat, d: Detection)
    requires Tiles(cps, lo, hi) && cps != [] && Detected(fates, cps, d)
    ensures var last := cps[|cps| - 1];
            fates != [] && fates[0].Up? && last.end < |fates[0].chain| && !d.DetectFailed? &&
            (d.Clean? <==> fates[0].chain[last.end].hash == last.hash) &&
            (d.Reorged? ==> RollbackPoint(cps, last, d.from))
  {
    hide Tiles, RollbackPoint, IsNewest;
    var cp :| IsNewest(cps, cp) && fates != [] && HeaderAt(fates[0], cp.end).Some? &&
              if HeaderAt(fates[0], cp.end).value.hash == cp.hash then d.Clean?
              else d.Reorged? && RollbackPoint(cps, cp, d.from);
    TiledNewest(cps, lo, hi, cp);
  }

  lemma IsNewestBeforeIsOne(cps: seq<Checkpoint>, block: nat, cp: Checkpoint)
    requires IsNewestBefore(cps, block, cp)
    ensures cp in cps && cp.end < block
  {
  }

  /** On tiled checkpoints the rollback goes to the last one's start, by either rule. */
  lemma RollbackPointOnTiles(cps: seq<Checkpoint>, lo: nat, hi: nat, from: nat)
    requires Tiles(cps, lo, hi) && cps != [] && RollbackPoint(cps, cps[|cps| - 1], from)
    ensures from == cps[|cps| - 1].start
  {
    hide Tiles, Wrap, IsNewestBefore;
    var last := cps[|cps| - 1];
    if from != last.start {
      var prev :| IsNewestBefore(cps, last.start, prev) && from == Wrap(prev.end + 1);
      TiledNewestBefore(cps, lo, hi, prev);
      IsNewestBeforeIsOne(cps, last.start, prev);
      NoWrap(prev.end + 1);
    }
  }

  /** On tiled checkpoints the verdict compares one hash and the rollback point is the newest one's start. */
  lemma DetectedOnTiles(fates: seq<Fate>, cps: seq<Checkpoint>, lo: nat, hi: nat, d: Detection)
    requires Tiles(cps, lo, hi) && cps != [] && Detected(fates, cps, d)
    ensures var last := cps[|cps| - 1];
            fates != [] && fates[0].Up? && last.end < |fates[0].chain| && !d.DetectFailed? &&
            (d.Clean? <==> fates[0].chain[last.end].hash == last.hash) &&
            (d.Reorged? ==> d.from == last.start)
  {
    hide Tiles, RollbackPoint, Detected;
    NewestDecides(fates, cps, lo, hi, d);
    if d.Reorged? {
      RollbackPointOnTiles(cps, lo, hi, d.from);
    }
  }

  /** Detection finds no reorg exactly when the chain still starts with everything that was indexed. */
  lemma DetectIsSoundAndComplete(a: seq<Block>, fates: seq<Fate>, cps: seq<Checkpoint>, lo: nat, hi: nat, d: Detection)
    requires Tiles(cps, lo, hi) && cps != [] && EndHashes(cps, a) && Detected(fates, cps, d)
    requires fates != [] && fates[0].Up?
    requires HashLinked(a) && HashLinked(fates[0].chain) && CollisionFree(a, fates[0].chain)
    ensures hi <= |a|
    ensures d.Clean? <==> hi <= |fates[0].chain| && a[..hi] == fates[0].chain[..hi]
  {
    hide Tiles, Detected, CollisionFree, HashLinked;
    var last := cps[|cps| - 1];
    assert last in cps;
    TiledNewest(cps, lo, hi, last);
    DetectedOnTiles(fates, cps, lo, hi, d);
    if d.Clean? {
      SameHashSamePrefix(a, fates[0].chain, last.end);
    }
    if hi <= |fates[0].chain| && a[..hi] == fates[0].chain[..hi] {
      assert a[..hi][last.end] == fates[0].chain[..hi][last.end];
    }
  }

  /** On a mismatch, rollback leaves what indexing up to the newest checkpoint's start had left. */
  lemma RollbackUnindexesNewest(feed: Feed, a: seq<Block>, db: Db, fates: seq<Fate>, lo: nat, hi: nat, d: Detection)
    requires Tiles(db.checkpoints, lo, hi) && Detected(fates, db.checkpoints, d) && d.Reorged?
    requires db.logs == TableOf(feed, a, lo, hi)
    ensures db.checkpoints != []
    ensures var n := |db.checkpoints| - 1;
            var r := db.checkpoints[n].start;
            d.from == r && lo <= r < hi &&
            RolledBack(db, d.from) == Db(TableOf(feed, a, lo, r), db.checkpoints[..n]) &&
            Tiles(db.checkpoints[..n], lo, r) &&
            (n > 0 ==> d.from == db.checkpoints[n - 1].end + 1)
  {
    DetectedOnTiles(fates, db.checkpoints, lo, hi, d);
    TilesWithin(db.checkpoints, lo, hi);
    RollbackRemovesNewest(db, lo, hi);
    BelowUndoesInsert(feed, a, lo, db.checkpoints[|db.checkpoints| - 1].start, hi);
    TiledNewestBefore(db.checkpoints, lo, hi, db.checkpoints[0]);
  }

  /** A rollback stopped between its two deletes and run again does what one run does. */
  lemma InterruptedRollbackCompletes(db: Db, b: nat)
    ensures RolledBack(Db(Below(db.logs, b), db.checkpoints), b) == RolledBack(db, b)
  {
    assert Below(Below(db.logs, b), b) == Below(db.logs, b);
  }
}
