/** What one pass of the follower makes of a store when the chain changed, internal/extract/follow.go and reorg.go. */
module Repair {
  import opened Prelude
  import opened Chains
  import opened LogTable
  import opened Store
  import opened Rpc
  import opened Chunking
  import opened Extract
  import opened Reorg
  import opened Following

  /**
   * After a mismatch with a's newest checkpoint, indexing on b makes exactly b's table if and only if the
   * two chains have the same rows below that checkpoint's start.
   */
  lemma RepairIsExactIff(feed: Feed, a: seq<Block>, b: seq<Block>, start: nat, r: nat, hi: nat, top: nat)
    requires start <= r <= hi && r <= top
    ensures InsertAll(Below(TableOf(feed, a, start, hi), r), Records(feed, b, r, top)) == TableOf(feed, b, start, top)
       <==> TableOf(feed, a, start, r) == TableOf(feed, b, start, r)
  {
    hide Records, InsertAll;
    var kept, want := TableOf(feed, a, start, r), TableOf(feed, b, start, r);
    BelowUndoesInsert(feed, a, start, r, hi);
    IndexingIsExactIff(feed, b, kept, start, r, top);
    BelowUndoesInsert(feed, b, start, r, top);
    TableExtends(feed, b, start, r, top);
    TableMeaning(feed, a, start, r);
    if Submap(want, kept) && Submap(kept, TableOf(feed, b, start, top)) {
      assert forall k | k in kept :: k in Below(TableOf(feed, b, start, top), r);
      assert kept.Keys == want.Keys;
    }
  }

  /** The store holds exactly a's rows of the blocks from `start` to hi - 1, with tiled checkpoints. */
  ghost predicate Exact(feed: Feed, a: seq<Block>, db: Db, start: nat, hi: nat) {
    Tiles(db.checkpoints, start, hi) && EndHashes(db.checkpoints, a) && db.logs == TableOf(feed, a, start, hi)
  }

  /**
   * A pass that found a reorg of a store that was exact for a, and caught up with a node that serves only b,
   * leaves exactly b's rows if and only if the two chains have the same rows below the newest checkpoint's start.
   */
  lemma PassRepairIsExactIff(feed: Feed, a: seq<Block>, b: seq<Block>, fates: seq<Fate>, confirmations: nat,
                             before: Db, after: Db, start: nat, hi: nat, d: Detection, newStart: nat, t: Trace)
    requires Exact(feed, a, before, start, hi) && Fixed(fates, b)
    requires Detected(fates, before.checkpoints, d) && d.Reorged? && t.unwound == Some(d.from)
    requires StepEffect(feed, before, after, hi, newStart, CaughtUp, t) && Answered(fates, confirmations, t.tip)
    ensures newStart == |b| - confirmations && Tiles(after.checkpoints, start, newStart)
    ensures after.logs == TableOf(feed, b, start, newStart) <==>
              TableOf(feed, a, start, d.from) == TableOf(feed, b, start, d.from)
  {
    hide Records, InsertAll, TableOf, Tiles, EndHashes, Detected, Added, StartingBefore, Below;
    assert t.tip == SafePart(b, confirmations) <= b;
    RollbackUnindexesNewest(feed, a, before, fates, start, hi, d);
    RecordsOfPrefix(feed, t.tip, b, t.from, newStart);
    BelowUndoesInsert(feed, a, start, d.from, hi);
    RepairIsExactIff(feed, a, b, start, d.from, hi, newStart);
    AddedTiles(feed, t.tip, Kept(before, t), after, t.from, newStart, newStart);
    TilesAppend(Kept(before, t).checkpoints, Added(Kept(before, t).checkpoints, after.checkpoints), start,
                t.from, newStart);
  }

  /** Chain b keeps everything of a below the newest checkpoint; with one checkpoint it may differ anywhere. */
  ghost predicate ForksAboveSecondNewest(a: seq<Block>, b: seq<Block>, cps: seq<Checkpoint>) {
    |cps| > 1 ==>
      var kept := cps[|cps| - 2].end + 1;
      kept <= |a| && kept <= |b| && a[..kept] == b[..kept]
  }

  /** A store that is exact for a is exact for b where the two chains agree. */
  lemma SharedStretch(feed: Feed, a: seq<Block>, b: seq<Block>, db: Db, start: nat, hi: nat)
    requires Exact(feed, a, db, start, hi)
    requires hi == start || (hi <= |a| && hi <= |b| && a[..hi] == b[..hi])
    ensures Exact(feed, b, db, start, hi)
  {
    hide Records, InsertAll;
    TilesWithin(db.checkpoints, start, hi);
    if hi == start {
      EmptyTable(feed, a, start, hi);
      EmptyTable(feed, b, start, hi);
    } else {
      TableOfExtension(feed, a[..hi], a, start, hi);
      TableOfExtension(feed, b[..hi], b, start, hi);
      assert forall c | c in db.checkpoints :: a[..hi][c.end] == b[..hi][c.end];
    }
  }

  /** What a rollback keeps, or everything when there is no reorg, is common to both chains. */
  lemma KeptPartIsShared(feed: Feed, a: seq<Block>, b: seq<Block>, fates: seq<Fate>, before: Db, start: nat, hi: nat,
                         d: Detection, t: Trace)
    requires Exact(feed, a, before, start, hi) && before.checkpoints != []
    requires Fixed(fates, b) && HashLinked(a) && HashLinked(b) && CollisionFree(a, b)
    requires ForksAboveSecondNewest(a, b, before.checkpoints)
    requires Detected(fates, before.checkpoints, d) && t.unwound == if d.Reorged? then Some(d.from) else None
    requires t.from == if d.Reorged? then d.from else hi
    ensures start <= t.from && Exact(feed, b, Kept(before, t), start, t.from)
  {
    hide Records, InsertAll, CollisionFree, HashLinked, Tiles, TableOf, Detected, StartingBefore, Below;
    DetectedOnTiles(fates, before.checkpoints, start, hi, d);
    DetectIsSoundAndComplete(a, fates, before.checkpoints, start, hi, d);
    TilesWithin(before.checkpoints, start, hi);
    if d.Reorged? {
      RollbackUnindexesNewest(feed, a, before, fates, start, hi, d);
      TiledNewestBefore(before.checkpoints, start, hi, before.checkpoints[0]);
    }
    SharedStretch(feed, a, b, Kept(before, t), start, t.from);
  }

  lemma EndHashesOfPrefix(cps: seq<Checkpoint>, p: seq<Block>, c: seq<Block>)
    requires EndHashes(cps, p) && p <= c
    ensures EndHashes(cps, c)
  {
  }

  lemma IndexOnTop(feed: Feed, b: seq<Block>, tip: seq<Block>, kept: Db, after: Db, start: nat, from: nat)
    requires Exact(feed, b, kept, start, from) && tip <= b && start <= from <= |tip|
    requires Indexed(feed, tip, kept, after, from, |tip|, |tip|)
    ensures Exact(feed, b, after, start, |tip|)
  {
    hide Records, InsertAll, Tiles, EndHashes, TableOf;
    var added := Added(kept.checkpoints, after.checkpoints);
    AddedTiles(feed, tip, kept, after, from, |tip|, |tip|);
    TilesAppend(kept.checkpoints, added, start, from, |tip|);
    RecordsOfPrefix(feed, tip, b, from, |tip|);
    TableExtends(feed, b, start, from, |tip|);
    EndHashesOfPrefix(added, tip, b);
    EndHashesConcat(kept.checkpoints, added, b);
  }

  /**
   * The chain switches from a to b between two passes and then stays fixed. A pass that indexes up to
   * the safe head leaves exactly b's rows, with tiled checkpoints that carry b's hashes.
   */
  lemma ReorgRepaired(feed: Feed, a: seq<Block>, b: seq<Block>, fates: seq<Fate>, confirmations: nat,
                      before: Db, after: Db, start: nat, hi: nat, d: Detection, r: StepResult, newStart: nat, t: Trace)
    requires Exact(feed, a, before, start, hi) && before.checkpoints != []
    requires Fixed(fates, b) && HashLinked(a) && HashLinked(b) && CollisionFree(a, b)
    requires ForksAboveSecondNewest(a, b, before.checkpoints)
    requires Detected(fates, before.checkpoints, d) && t.unwound == if d.Reorged? then Some(d.from) else None
    requires StepEffect(feed, before, after, hi, newStart, r, t) && r.CaughtUp? && Answered(fates, confirmations, t.tip)
    ensures Exact(feed, b, after, start, |b| - confirmations) && newStart == |b| - confirmations
  {
    hide Exact, Indexed, Detected, CollisionFree, HashLinked, ForksAboveSecondNewest;
    assert t.tip == SafePart(b, confirmations) <= b;
    KeptPartIsShared(feed, a, b, fates, before, start, hi, d, t);
    IndexOnTop(feed, b, t.tip, Kept(before, t), after, start, t.from);
  }

  /** One pass: the chain that the node serves during it, what it meets and finds, and what it leaves. */
  datatype Pass = Pass(chain: seq<Block>, fates: seq<Fate>, d: Detection, r: StepResult, t: Trace, after: Db,
                       newStart: nat)

  /** A pass on one chain that forks from a above the second newest checkpoint, and that does not fail. */
  ghost predicate PassOn(feed: Feed, confirmations: nat, a: seq<Block>, before: Db, hi: nat, p: Pass) {
    Fixed(p.fates, p.chain) && HashLinked(p.chain) && CollisionFree(a, p.chain) &&
    ForksAboveSecondNewest(a, p.chain, before.checkpoints) &&
    Detected(p.fates, before.checkpoints, p.d) && p.t.unwound == (if p.d.Reorged? then Some(p.d.from) else None) &&
    StepEffect(feed, before, p.after, hi, p.newStart, p.r, p.t) && !p.r.StepFailed? &&
    (p.r.CaughtUp? ==> Answered(p.fates, confirmations, p.t.tip))
  }

  /** Passes one after the other, each on a chain of its own, from a store indexed from a. */
  ghost predicate Passes(feed: Feed, confirmations: nat, a: seq<Block>, before: Db, hi: nat, passes: seq<Pass>)
    decreases |passes|
  {
    passes == [] ||
    (PassOn(feed, confirmations, a, before, hi, passes[0]) &&
     Passes(feed, confirmations, passes[0].chain, passes[0].after, passes[0].newStart, passes[1..]))
  }

  lemma LinkedInPass(feed: Feed, confirmations: nat, a: seq<Block>, before: Db, hi: nat, p: Pass)
    requires PassOn(feed, confirmations, a, before, hi, p)
    ensures HashLinked(p.chain)
  {
  }

  /** With no checkpoint yet nothing is indexed, whatever the chain. */
  lemma NoCheckpointNoReorg(feed: Feed, a: seq<Block>, b: seq<Block>, fates: seq<Fate>, before: Db, start: nat, hi: nat,
                            d: Detection)
    requires Exact(feed, a, before, start, hi) && before.checkpoints == [] && Detected(fates, before.checkpoints, d)
    ensures d.Clean? && hi == start && Exact(feed, b, before, start, hi)
  {
    EmptyTable(feed, a, start, hi);
    EmptyTable(feed, b, start, hi);
  }

  lemma NothingWasIndexed(feed: Feed, tip: seq<Block>, kept: Db, after: Db, from: nat)
    requires Indexed(feed, tip, kept, after, from, from, from)
    ensures after == kept
  {
    IndexedNothing(feed, tip, kept, from);
    TilesWithin(Added(kept.checkpoints, after.checkpoints), from, from);
    assert Added(kept.checkpoints, after.checkpoints) == [];
    assert InsertAll(kept.logs, []) == kept.logs;
  }

  /** A pass that waits or catches up leaves the store exact for the chain it met. */
  lemma PassKeepsExact(feed: Feed, confirmations: nat, a: seq<Block>, before: Db, start: nat, hi: nat, p: Pass)
    requires Exact(feed, a, before, start, hi) && HashLinked(a) && PassOn(feed, confirmations, a, before, hi, p)
    ensures Exact(feed, p.chain, p.after, start, p.newStart)
    ensures p.r.CaughtUp? ==> p.newStart == |p.chain| - confirmations
  {
    hide Exact, Indexed, Detected, CollisionFree, HashLinked, ForksAboveSecondNewest;
    if before.checkpoints == [] {
      NoCheckpointNoReorg(feed, a, p.chain, p.fates, before, start, hi, p.d);
    } else {
      KeptPartIsShared(feed, a, p.chain, p.fates, before, start, hi, p.d, p.t);
    }
    if p.r.CaughtUp? {
      assert p.t.tip == SafePart(p.chain, confirmations) <= p.chain;
      IndexOnTop(feed, p.chain, p.t.tip, Kept(before, p.t), p.after, start, p.t.from);
    } else {
      NothingWasIndexed(feed, p.t.tip, Kept(before, p.t), p.after, p.t.from);
    }
  }

  /**
   * Over any number of passes, each on a chain that forks above the second newest checkpoint of the store as it
   * then is, every pass leaves exactly the rows of its chain and tiled checkpoints that carry its hashes.
   */
  lemma {:induction false} PassesKeepExact(feed: Feed, confirmations: nat, a: seq<Block>, before: Db, start: nat,
                                           hi: nat, passes: seq<Pass>)
    requires Exact(feed, a, before, start, hi) && HashLinked(a) && Passes(feed, confirmations, a, before, hi, passes)
    ensures forall p | p in passes ::
              Exact(feed, p.chain, p.after, start, p.newStart) &&
              (p.r.CaughtUp? ==> p.newStart == |p.chain| - confirmations)
    decreases |passes|
  {
    hide Exact, HashLinked, Fixed, CollisionFree, ForksAboveSecondNewest, StepEffect, Detected, Answered;
    if passes != [] {
      var p := passes[0];
      LinkedInPass(feed, confirmations, a, before, hi, p);
      PassKeepsExact(feed, confirmations, a, before, start, hi, p);
      PassesKeepExact(feed, confirmations, p.chain, p.after, start, p.newStart, passes[1..]);
      assert passes == [p] + passes[1..];
    }
  }

  /** The same as one pass of the follower: the store was exact for a, and the node now serves only b. */
  method FollowStepAfterReorg(confirmations: uint64, feed: Feed, client: Client, store: LogStore, metrics: Metrics,
                              chunker: Chunker, firstBlock: uint64, start: uint64, ghost a: seq<Block>,
                              ghost b: seq<Block>)
    returns (r: StepResult, newStart: uint64, ghost p: Pass)
    requires chunker.Valid()
    requires Exact(feed, a, store.Contents(), firstBlock, start)
    requires Fixed(client.fates, b) && HashLinked(a) && HashLinked(b) && CollisionFree(a, b)
    requires ForksAboveSecondNewest(a, b, store.checkpoints)
    modifies client`fates, client`logRequests, client`lastHead, store, metrics, chunker
    ensures chunker.Valid()
    ensures !r.StepFailed? ==>
              PassOn(feed, confirmations, a, old(store.Contents()), start, p) && p.chain == b && p.r == r &&
              p.after == store.Contents() && p.newStart == newStart
    ensures !r.StepFailed? ==> Exact(feed, b, store.Contents(), firstBlock, newStart)
    ensures r.CaughtUp? ==> newStart == |b| - confirmations
  {
    hide Exact, Fixed, HashLinked, CollisionFree, ForksAboveSecondNewest, StepEffect, StepLeaves, Steady, Detected,
         Answered, AllUp, Reach, TotalDecoder, Headroom;
    ghost var before, coming := store.Contents(), client.fates;
    FixedIsSteady(coming, b, confirmations);
    ghost var d, t, seen;
    r, newStart, d, t, seen := FollowStep(confirmations, feed, client, store, metrics, chunker, start, []);
    p := Pass(b, coming, d, r, t, store.Contents(), newStart);
    if !r.StepFailed? {
      PassKeepsExact(feed, confirmations, a, before, firstBlock, start, p);
    }
  }

  /** A matching log in block 1 makes the tables of two chains differ when the other chain has no log. */
  lemma LogInBlockOneMatters(feed: Feed, a: seq<Block>, b: seq<Block>, e: Entry)
    requires |a| > 1 && a[1].entries == [e] && feed.filter.Passes(e)
    requires |b| > 1 && b[0].entries == b[1].entries == []
    ensures TableOf(feed, a, 0, 2) != TableOf(feed, b, 0, 2)
  {
    assert BlockLogs(feed.filter, a, 1)[0] == Log(e, 1, a[1].hash);
    assert LogsBetween(feed.filter, a, 0, 2) == LogsBetween(feed.filter, a, 0, 1) + BlockLogs(feed.filter, a, 1);
    TableMeaning(feed, a, 0, 2);
    assert Records(feed, a, 0, 2)[0].key in TableOf(feed, a, 0, 2);
    assert BlockLogs(feed.filter, b, 0) == [] && BlockLogs(feed.filter, b, 1) == [];
    assert LogsBetween(feed.filter, b, 0, 1) == LogsBetween(feed.filter, b, 0, 0) + BlockLogs(feed.filter, b, 0);
    assert LogsBetween(feed.filter, b, 0, 2) == LogsBetween(feed.filter, b, 0, 1) + BlockLogs(feed.filter, b, 1);
    assert TableOf(feed, b, 0, 2) == map[];
  }

  /** Three one-block checkpoints. */
  lemma ThreeTiles(x: string, y: string, z: string)
    ensures var cps := [Checkpoint(0, 0, x), Checkpoint(1, 1, y), Checkpoint(2, 2, z)];
            Tiles(cps, 0, 3)
  {
    var cps := [Checkpoint(0, 0, x), Checkpoint(1, 1, y), Checkpoint(2, 2, z)];
    assert cps[..2][..1][..0] == [] && Tiles(cps[..2][..1], 0, 1) && Tiles(cps[..2], 0, 2);
  }

  /** Three blocks, the second of which holds a matching log, and a chain that replaces the last two by empty ones. */
  function LoggedChain(e: Entry, h: seq<string>): seq<Block>
    requires |h| == 5
  {
    [Block(h[0], "", 0, []), Block(h[1], h[0], 1, [e]), Block(h[2], h[1], 2, [])]
  }

  function ForkedChain(h: seq<string>): seq<Block>
    requires |h| == 5
  {
    [Block(h[0], "", 0, []), Block(h[3], h[0], 1, []), Block(h[4], h[3], 2, [])]
  }

  /** The three blocks indexed one by one, and the same after the last tile was taken off and put on again from b. */
  function OneByOne(feed: Feed, e: Entry, h: seq<string>): Db
    requires |h| == 5
  {
    Db(TableOf(feed, LoggedChain(e, h), 0, 3), [Checkpoint(0, 0, h[0]), Checkpoint(1, 1, h[1]), Checkpoint(2, 2, h[2])])
  }

  function Repaired(feed: Feed, e: Entry, h: seq<string>): Db
    requires |h| == 5
  {
    Db(InsertAll(Below(TableOf(feed, LoggedChain(e, h), 0, 3), 2), Records(feed, ForkedChain(h), 2, 3)),
       [Checkpoint(0, 0, h[0]), Checkpoint(1, 1, h[1]), Checkpoint(2, 2, h[4])])
  }

  /** A single tile that carries the chain's hash. */
  lemma OneTile(cp: Checkpoint, c: seq<Block>)
    requires cp.start == cp.end < |c| && cp.hash == c[cp.end].hash
    ensures Tiles([cp], cp.start, cp.end + 1) && EndHashes([cp], c)
  {
    assert [cp][..0] == [];
  }

  /** The reorg is found and the rollback goes to block 2. */
  lemma DeepForkIsFound(feed: Feed, e: Entry, h: seq<string>, fates: seq<Fate>)
    requires |h| == 5 && NoDuplicates(h) && fates != [] && fates[0].Up? && fates[0].chain == ForkedChain(h)
    ensures Exact(feed, LoggedChain(e, h), OneByOne(feed, e, h), 0, 3)
    ensures Detected(fates, OneByOne(feed, e, h).checkpoints, Reorged(2))
    ensures RolledBack(OneByOne(feed, e, h), 2) ==
            Db(Below(TableOf(feed, LoggedChain(e, h), 0, 3), 2), [Checkpoint(0, 0, h[0]), Checkpoint(1, 1, h[1])])
  {
    hide TableOf, Below;
    var db := OneByOne(feed, e, h);
    var cps := db.checkpoints;
    ThreeTiles(h[0], h[1], h[2]);
    TiledNewest(cps, 0, 3, cps[2]);
    TiledNewestBefore(cps, 0, 3, cps[1]);
    NoWrap(2);
    assert RollbackPoint(cps, cps[2], 2);
    DetectedBy(fates, cps, cps[2], Reorged(2));
    RollbackRemovesNewest(db, 0, 3);
    assert cps[..2] == [cps[0], cps[1]];
  }

  /**
   * A fork below the second newest checkpoint's end is not repaired: the pass finds the reorg, rolls back one
   * checkpoint and catches up, yet the table is not b's; from then on every pass finds the chain unchanged.
   */
  lemma DeepForkIsNotRepaired(feed: Feed, e: Entry, h: seq<string>, fates: seq<Fate>, later: seq<Fate>, d: Detection)
    requires feed.filter.Passes(e) && |h| == 5 && NoDuplicates(h)
    requires fates != [] && fates[0].Up? && fates[0].chain == ForkedChain(h)
    requires later != [] && later[0].Up? && later[0].chain == ForkedChain(h)
    ensures var a, b, db, after := LoggedChain(e, h), ForkedChain(h), OneByOne(feed, e, h), Repaired(feed, e, h);
            HashLinked(a) && HashLinked(b) && CollisionFree(a, b) && Exact(feed, a, db, 0, 3) &&
            Detected(fates, db.checkpoints, Reorged(2)) &&
            StepEffect(feed, db, after, 3, 3, CaughtUp, Trace(Some(2), false, SafePart(b, 0), 2, 3, 3)) &&
            after.logs != TableOf(feed, b, 0, 3) &&
            (Detected(later, after.checkpoints, d) ==> d.Clean?)
  {
    hide Records, InsertAll, TableOf, Below, Detected, StartingBefore, RolledBack;
    var a, b, db, after := LoggedChain(e, h), ForkedChain(h), OneByOne(feed, e, h), Repaired(feed, e, h);
    DeepForkIsFound(feed, e, h, fates);
    var cp := Checkpoint(2, 2, h[4]);
    OneTile(cp, b);
    assert SafePart(b, 0) == b;
    var kept := RolledBack(db, 2);
    assert after.checkpoints == kept.checkpoints + [cp] && Added(kept.checkpoints, after.checkpoints) == [cp];
    RepairIsExactIff(feed, a, b, 0, 2, 3, 3);
    LogInBlockOneMatters(feed, a, b, e);
    ThreeTiles(h[0], h[1], h[4]);
    if Detected(later, after.checkpoints, d) {
      DetectedOnTiles(later, after.checkpoints, 0, 3, d);
    }
  }

  /**
   * A crash after inserting a chunk of a and before its checkpoint leaves rows that no checkpoint guards.
   * If the chain is b by the next run, with the same checkpointed part, indexing b makes exactly b's
   * table if and only if the rows left over are rows of b.
   */
  lemma LeftoverChunkIsHarmlessIff(feed: Feed, a: seq<Block>, b: seq<Block>, start: nat, next: nat, reach: nat,
                                   top: nat)
    requires start <= next <= reach && next <= top && next <= |a| && next <= |b| && a[..next] == b[..next]
    ensures InsertAll(TableOf(feed, a, start, reach), Records(feed, b, next, top)) == TableOf(feed, b, start, top)
       <==> Submap(TableOf(feed, a, start, reach), TableOf(feed, b, start, top))
  {
    hide Records, InsertAll;
    TableOfExtension(feed, a[..next], a, start, next);
    TableOfExtension(feed, b[..next], b, start, next);
    TableExtends(feed, a, start, next, reach);
    IndexingIsExactIff(feed, b, TableOf(feed, a, start, reach), start, next, top);
  }

  /**
   * The same for a pass: it starts behind the last checkpoint with leftover rows of a, rolls nothing back and
   * catches up with a node that serves only b.
   */
  lemma PassLeftoverIsHarmlessIff(feed: Feed, a: seq<Block>, b: seq<Block>, fates: seq<Fate>, confirmations: nat,
                                  before: Db, after: Db, start: nat, next: nat, reach: nat, newStart: nat, t: Trace)
    requires start <= next <= reach && next <= |a| && next <= |b| && a[..next] == b[..next]
    requires before.logs == TableOf(feed, a, start, reach) && Fixed(fates, b) && t.unwound.None?
    requires StepEffect(feed, before, after, next, newStart, CaughtUp, t) && Answered(fates, confirmations, t.tip)
    ensures after.logs == TableOf(feed, b, start, newStart) <==> Submap(before.logs, TableOf(feed, b, start, newStart))
  {
    hide Records, InsertAll, TableOf, Submap;
    assert t.tip == SafePart(b, confirmations) <= b;
    RecordsOfPrefix(feed, t.tip, b, next, newStart);
    LeftoverChunkIsHarmlessIff(feed, a, b, start, next, reach, newStart);
  }

  /** Inserting rows changes nothing exactly when all their keys are taken. */
  lemma NothingNewIff(m: Table, rs: seq<LogRecord>)
    ensures InsertAll(m, rs) == m <==> forall r | r in rs :: r.key in m
  {
    hide InsertAll;
    InsertAllMeaning(m, rs);
    if forall r | r in rs :: r.key in m {
      InsertPresent(m, rs);
    }
  }

  lemma SubmapBothWays(m: Table, n: Table)
    requires Submap(m, n)
    ensures Submap(n, m) <==> n == m
  {
    if Submap(n, m) {
      assert n.Keys == m.Keys;
    }
  }

  /** A node that still serves everything indexed gives no reason to roll back. */
  lemma UnchangedIsClean(feed: Feed, a: seq<Block>, b: seq<Block>, fates: seq<Fate>, db: Db, start: nat, hi: nat,
                         d: Detection)
    requires Exact(feed, a, db, start, hi) && db.checkpoints != [] && Fixed(fates, b)
    requires hi <= |a| && hi <= |b| && a[..hi] == b[..hi] && Detected(fates, db.checkpoints, d)
    ensures d.Clean? && start <= db.checkpoints[|db.checkpoints| - 1].start < hi
  {
    hide Tiles, Detected, TableOf;
    var last := db.checkpoints[|db.checkpoints| - 1];
    assert last in db.checkpoints;
    TilesWithin(db.checkpoints, start, hi);
    DetectedOnTiles(fates, db.checkpoints, start, hi, d);
    assert a[..hi][last.end] == b[..hi][last.end];
  }

  /**
   * A rollback stopped between its deletes leaves the newest checkpoint without its rows. If the node serves the
   * indexed part again by the next pass, that pass finds no reorg and goes on behind the checkpoint; the rows never
   * come back, and the table is the chain's if and only if the deleted blocks had no row of their own.
   */
  lemma HalfRollbackIsHarmlessIff(feed: Feed, a: seq<Block>, b: seq<Block>, fates: seq<Fate>, confirmations: nat,
                                  db: Db, after: Db, start: nat, hi: nat, d: Detection, newStart: nat, t: Trace)
    requires Exact(feed, a, db, start, hi) && db.checkpoints != [] && Fixed(fates, b)
    requires hi <= |a| && hi <= |b| && a[..hi] == b[..hi]
    requires var r := db.checkpoints[|db.checkpoints| - 1].start;
             var half := Db(Below(db.logs, r), db.checkpoints);
             Detected(fates, half.checkpoints, d) && t.unwound == (if d.Reorged? then Some(d.from) else None) &&
             StepEffect(feed, half, after, hi, newStart, CaughtUp, t) && Answered(fates, confirmations, t.tip)
    ensures var r := db.checkpoints[|db.checkpoints| - 1].start;
            d.Clean? && start <= r < hi &&
            (after.logs == TableOf(feed, b, start, newStart)
             <==> forall rec | rec in Records(feed, a, r, hi) :: rec.key in TableOf(feed, a, start, r))
  {
    hide Records, InsertAll, Tiles, Detected, Below, TableOf, Submap, EndHashes;
    var r := db.checkpoints[|db.checkpoints| - 1].start;
    UnchangedIsClean(feed, a, b, fates, db, start, hi, d);
    BelowUndoesInsert(feed, a, start, r, hi);
    assert t.tip == SafePart(b, confirmations) <= b;
    RecordsOfPrefix(feed, t.tip, b, hi, newStart);
    TableOfExtension(feed, a[..hi], a, start, r);
    TableOfExtension(feed, b[..hi], b, start, r);
    TableOfExtension(feed, a[..hi], a, start, hi);
    TableOfExtension(feed, b[..hi], b, start, hi);
    IndexingIsExactIff(feed, b, TableOf(feed, b, start, r), start, hi, newStart);
    TableExtends(feed, b, start, r, newStart);
    TableExtends(feed, a, start, r, hi);
    NothingNewIff(TableOf(feed, a, start, r), Records(feed, a, r, hi));
    SubmapBothWays(TableOf(feed, a, start, r), TableOf(feed, a, start, hi));
  }

  lemma OneLog(filter: Filter, c: seq<Block>, e: Entry)
    requires |c| > 0 && c[0].entries == [e] && filter.Passes(e)
    ensures LogsBetween(filter, c, 0, 1) == [Log(e, 0, c[0].hash)]
  {
    assert Matching(filter, [e]) == [e] by {
      assert [e][1..] == [];
    }
    assert LogsBetween(filter, c, 0, 1) == LogsBetween(filter, c, 0, 0) + BlockLogs(filter, c, 0);
  }

  lemma InsertSingle(m: Table, r: LogRecord)
    ensures InsertAll(m, [r]) == InsertOne(m, r)
  {
    assert [r][..0] == [];
  }

  /** The row of a log in block 0 is in the table of that block. */
  lemma LogInBlockZero(feed: Feed, c: seq<Block>, e: Entry)
    requires |c| > 0 && c[0].entries == [e] && feed.filter.Passes(e)
    ensures var key := RowKey(feed.chainId, e.txHash, e.logIndex);
            key in TableOf(feed, c, 0, 1) && TableOf(feed, c, 0, 1)[key].blockHash == c[0].hash
  {
    OneLog(feed.filter, c, e);
    var rs := Records(feed, c, 0, 1);
    assert rs == [rs[0]];
    InsertSingle(map[], rs[0]);
  }

  lemma NoLogInBlockZero(feed: Feed, c: seq<Block>)
    requires |c| > 0 && c[0].entries == []
    ensures Records(feed, c, 0, 1) == [] && TableOf(feed, c, 0, 1) == map[]
  {
    assert LogsBetween(feed.filter, c, 0, 1) == LogsBetween(feed.filter, c, 0, 0) + BlockLogs(feed.filter, c, 0);
  }

  lemma NothingToDetect(fates: seq<Fate>)
    ensures Detected(fates, [], Clean)
  {
  }

  lemma CrashedPass(feed: Feed, a: seq<Block>)
    requires |a| == 1
    ensures StepEffect(feed, Db(map[], []), Db(TableOf(feed, a, 0, 1), []), 0, 0, StepFailed,
                       Trace(None, false, SafePart(a, 0), 0, 0, 1))
  {
    hide Records, InsertAll;
    assert SafePart(a, 0) == a;
  }

  lemma EmptyPass(feed: Feed, b: seq<Block>, mid: Db, h: string)
    requires |b| == 1 && b[0].hash == h && mid.checkpoints == [] && Records(feed, b, 0, 1) == []
    ensures StepEffect(feed, mid, Db(mid.logs, [Checkpoint(0, 0, h)]), 0, 1, CaughtUp,
                       Trace(None, false, SafePart(b, 0), 0, 1, 1))
  {
    hide Records;
    assert SafePart(b, 0) == b;
    OneTile(Checkpoint(0, 0, h), b);
    assert Added([], [Checkpoint(0, 0, h)]) == [Checkpoint(0, 0, h)];
    assert InsertAll(mid.logs, []) == mid.logs;
  }

  /**
   * A crash between a chunk's rows and its checkpoint, and a reorg before the next run: a pass that stores a's
   * only row fails before the checkpoint, a pass on b finds nothing to compare and catches up, and a's row stays,
   * in a table that should be empty, while every later pass finds the chain unchanged.
   */
  lemma LeftoverChunkStays(feed: Feed, e: Entry, g: string, h: string, fates: seq<Fate>, later: seq<Fate>, d: Detection)
    requires feed.filter.Passes(e) && g != h
    requires later != [] && later[0].Up? && later[0].chain == [Block(h, "", 0, [])]
    ensures var a, b := [Block(g, "", 0, [e])], [Block(h, "", 0, [])];
            var mid := Db(TableOf(feed, a, 0, 1), []);
            var after := Db(mid.logs, [Checkpoint(0, 0, h)]);
            StepEffect(feed, Db(map[], []), mid, 0, 0, StepFailed, Trace(None, false, SafePart(a, 0), 0, 0, 1)) &&
            Detected(fates, mid.checkpoints, Clean) &&
            StepEffect(feed, mid, after, 0, 1, CaughtUp, Trace(None, false, SafePart(b, 0), 0, 1, 1)) &&
            TableOf(feed, b, 0, 1) == map[] != after.logs &&
            (Detected(later, after.checkpoints, d) ==> d.Clean?)
  {
    hide Records, TableOf, InsertAll, Detected, StepEffect, Tiles, EndHashes;
    var a, b := [Block(g, "", 0, [e])], [Block(h, "", 0, [])];
    LogInBlockZero(feed, a, e);
    NoLogInBlockZero(feed, b);
    var mid := Db(TableOf(feed, a, 0, 1), []);
    var after := Db(mid.logs, [Checkpoint(0, 0, h)]);
    CrashedPass(feed, a);
    EmptyPass(feed, b, mid, h);
    OneTile(after.checkpoints[0], b);
    NothingToDetect(fates);
    if Detected(later, after.checkpoints, d) {
      DetectedOnTiles(later, after.checkpoints, 0, 1, d);
    }
  }
}
