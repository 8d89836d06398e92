/** Following the head of the chain, internal/extract/follow.go. */
module Following {
  import opened Prelude
  import opened Chains
  import opened LogTable
  import opened Store
  import opened Rpc
  import opened Chunking
  import opened Extract
  import opened Reorg
  import opened Configuration

  /** How one pass through the loop ends. */
  datatype StepResult = Waiting | CaughtUp | StepFailed

  /**
   * What one pass did: the block it rolled back to, whether the rollback stopped half way, the safe
   * part of the chain it indexed from, where it began, and how far checkpoints and logs then reach.
   */
  datatype Trace = Trace(unwound: Option<uint64>, interrupted: bool, tip: seq<Block>, from: nat, next: nat, reach: nat)

  /** The store after the rollback, if there was one. */
  function Kept(before: Db, t: Trace): Db {
    if t.unwound.Some? then RolledBack(before, t.unwound.value) else before
  }

  /** The effect of one pass on the store, when the safe part of the chain never loses a block. */
  ghost predicate StepEffect(feed: Feed, before: Db, after: Db, start: nat, newStart: nat, r: StepResult, t: Trace) {
    t.from == (if t.unwound.Some? then t.unwound.value else start) &&
    if t.interrupted then
      r.StepFailed? && t.unwound.Some? && after.checkpoints == before.checkpoints &&
      (after.logs == before.logs || after.logs == Below(before.logs, t.unwound.value))
    else
      Indexed(feed, t.tip, Kept(before, t), after, t.from, t.next, t.reach) &&
      t.reach <= Max(t.from, |t.tip|) &&
      (r.Waiting? ==> newStart == t.next == t.reach == t.from) &&
      (r.CaughtUp? ==> newStart == t.next == t.reach == |t.tip| > t.from)
  }

  lemma KeptIsRolledBack(db: Db, t: Trace)
    ensures Kept(db, t) == if t.unwound.Some? then RolledBack(db, t.unwound.value) else db
  {
  }

  lemma NothingIndexed(feed: Feed, p: seq<Block>, before: Db, start: nat, t: Trace, r: StepResult)
    requires !t.interrupted && t.next == t.reach == t.from && !r.CaughtUp?
    requires t.from == (if t.unwound.Some? then t.unwound.value else start)
    ensures StepEffect(feed, before, Kept(before, t), start, t.from, r, t)
  {
    IndexedNothing(feed, t.tip, Kept(before, t), t.from);
  }

  lemma RangeIndexed(feed: Feed, tip: seq<Block>, before: Db, after: Db, start: nat, next: nat, reach: nat,
                     newStart: nat, r: StepResult)
    requires Indexed(feed, tip, before, after, start, next, reach) && reach <= Max(start, |tip|) && start < |tip|
    requires !r.Waiting? && (r.CaughtUp? ==> newStart == next == |tip|)
    ensures StepEffect(feed, before, after, start, newStart, r, Trace(None, false, tip, start, next, reach))
  {
  }

  lemma HalfWay(feed: Feed, before: Db, after: Db, start: nat, newStart: nat, t: Trace)
    requires t.interrupted && t.unwound.Some? && t.from == t.unwound.value
    requires after.checkpoints == before.checkpoints
    requires after.logs == before.logs || after.logs == Below(before.logs, t.unwound.value)
    ensures StepEffect(feed, before, after, start, newStart, StepFailed, t)
  {
  }

  lemma UnwoundThenIndexed(feed: Feed, before: Db, after: Db, start: nat, newStart: nat, r: StepResult, t: Trace)
    requires !t.interrupted && t.from == (if t.unwound.Some? then t.unwound.value else start)
    requires StepEffect(feed, Kept(before, t), after, t.from, newStart, r, t.(unwound := None))
    ensures StepEffect(feed, before, after, start, newStart, r, t)
  {
  }

  lemma LaterShrinks(now: seq<Fate>, before: seq<Fate>)
    requires Later(now, before)
    ensures |now| <= |before|
  {
  }

  /** The tip is the safe part of a chain that answered. */
  ghost predicate Answered(fates: seq<Fate>, confirmations: nat, tip: seq<Block>) {
    exists i :: 0 <= i < |fates| && fates[i].Up? && tip == SafePart(fates[i].chain, confirmations)
  }

  /** The tip is the part that was known already, or the safe part of a chain that answered. */
  ghost predicate FromNode(fates: seq<Fate>, confirmations: nat, p: seq<Block>, tip: seq<Block>) {
    tip == p || Answered(fates, confirmations, tip)
  }

  /** What is still to come and what is settled by then, after one or more passes. */
  ghost predicate StepLeaves(before: seq<Fate>, after: seq<Fate>, confirmations: nat, p: seq<Block>, tip: seq<Block>) {
    Later(after, before) && FromNode(before, confirmations, p, tip) && (|p| < TWO_64 ==> |tip| < TWO_64) &&
    (Steady(before, confirmations) ==> Steady(after, confirmations)) &&
    (Steady(before, confirmations) && Settled(before, confirmations, p) ==>
       p <= tip && Settled(after, confirmations, tip))
  }

  lemma AnsweredBefore(now: seq<Fate>, before: seq<Fate>, confirmations: nat, tip: seq<Block>)
    requires Later(now, before) && Answered(now, confirmations, tip)
    ensures Answered(before, confirmations, tip)
  {
    var i :| 0 <= i < |now| && now[i].Up? && tip == SafePart(now[i].chain, confirmations);
    assert now[i] == before[i + (|before| - |now|)];
  }

  lemma FirstAnswers(fates: seq<Fate>, confirmations: nat)
    requires fates != [] && fates[0].Up?
    ensures Answered(fates, confirmations, SafePart(fates[0].chain, confirmations))
  {
  }

  lemma LeavesNothing(fates: seq<Fate>, confirmations: nat, p: seq<Block>)
    ensures StepLeaves(fates, fates, confirmations, p, p)
  {
  }

  lemma LeavesMeans(before: seq<Fate>, after: seq<Fate>, confirmations: nat, p: seq<Block>, tip: seq<Block>)
    requires StepLeaves(before, after, confirmations, p, tip)
    ensures FromNode(before, confirmations, p, tip) && Later(after, before)
  {
  }

  lemma LeavesWithoutHead(before: seq<Fate>, after: seq<Fate>, confirmations: nat, p: seq<Block>)
    requires Later(after, before)
    ensures StepLeaves(before, after, confirmations, p, p)
  {
    LaterKeeps(after, before, confirmations, p, 0, 0);
  }

  lemma LeavesWithHead(before: seq<Fate>, after: seq<Fate>, confirmations: nat, p: seq<Block>)
    requires before != [] && before[0].Up? && Later(after, Rest(before))
    ensures StepLeaves(before, after, confirmations, p, SafePart(before[0].chain, confirmations))
    ensures |after| < |before| && Answered(before, confirmations, SafePart(before[0].chain, confirmations))
  {
    hide Later, Rest, Steady, Answered;
    var tip := SafePart(before[0].chain, confirmations);
    FirstAnswers(before, confirmations);
    if Steady(before, confirmations) {
      HeadSettles(before, confirmations);
    }
    LaterKeeps(after, Rest(before), confirmations, tip, 0, 0);
    LaterRest(before);
    LaterTransitive(before, Rest(before), after);
    LaterShrinks(after, Rest(before));
    LaterKeeps(after, before, confirmations, p, 0, 0);
  }

  /** What several passes leave, from what each of them leaves. */
  lemma LeavesAfter(before: seq<Fate>, mid: seq<Fate>, after: seq<Fate>, confirmations: nat, p: seq<Block>,
                    q: seq<Block>, tip: seq<Block>)
    requires StepLeaves(before, mid, confirmations, p, q) && StepLeaves(mid, after, confirmations, q, tip)
    ensures StepLeaves(before, after, confirmations, p, tip)
  {
    hide Later, Steady, Settled, Answered;
    LaterTransitive(before, mid, after);
    if tip != q {
      AnsweredBefore(mid, before, confirmations, tip);
    }
  }

  /** Once the head is answered, its safe part is shared by all later answers. */
  lemma HeadAnswered(before: seq<Fate>, confirmations: nat)
    requires before != [] && before[0].Up?
    ensures var tip := SafePart(before[0].chain, confirmations);
            |tip| == Max(0, |before[0].chain| - confirmations) &&
            (Steady(before, confirmations) ==> Agree(Rest(before), tip))
  {
    if Steady(before, confirmations) {
      HeadSettles(before, confirmations);
      SettledAgrees(Rest(before), confirmations, SafePart(before[0].chain, confirmations));
    }
  }

  /** No later chain is too short for the safe head. */
  lemma SafeHeadIsReached(fates: seq<Fate>, confirmations: nat, safeHead: nat)
    requires AllUp(fates) && Steady(fates, confirmations) && fates != []
    requires safeHead + confirmations < |fates[0].chain|
    ensures Reach(Rest(fates), safeHead)
  {
    forall j | 0 < j < |fates|
      ensures safeHead < |fates[j].chain|
    {
      assert SafePart(fates[0].chain, confirmations) <= SafePart(fates[j].chain, confirmations);
    }
  }

  /** As many answers as a pass can use up: the head, two per request for logs, and one header per log. */
  ghost function PassCost(feed: Feed, tip: seq<Block>, start: nat, min: nat, chunk: nat): nat
    requires min >= 1
  {
    var top := Max(start, |tip|);
    1 + 2 * (2 * (top - start) + Level(min, chunk) + 1) + |Records(feed, tip, start, top)|
  }

  lemma AskingIsCheap(feed: Feed, tip: seq<Block>, start: nat, min: nat, chunk: nat)
    requires min >= 1
    ensures PassCost(feed, tip, start, min, chunk) >= 1
  {
    hide Records, Level;
  }

  /** A range uses up no more answers than its cost. */
  lemma PassIsCheap(feed: Feed, tip: seq<Block>, start: nat, min: nat, chunk: nat, level: nat, before: nat, after: nat,
                    requests: int, next: nat)
    requires min >= 1 && start < |tip| && next <= |tip|
    requires before <= after + 2 * requests + |Records(feed, tip, start, |tip|)|
    requires requests + level <= Level(min, chunk) + 2 * (next - start) + 1
    ensures before + 1 <= after + PassCost(feed, tip, start, min, chunk)
  {
    hide Records, Level;
  }

  /** The head that the next answer tells. */
  function FirstHead(fates: seq<Fate>): Option<nat> {
    if |fates| == 0 then None else HeadAt(fates[0])
  }

  /** The safe part of the chain that an answer comes from. */
  function PartOf(f: Fate, confirmations: nat): seq<Block> {
    if f.Up? then SafePart(f.chain, confirmations) else []
  }

  function FirstPart(fates: seq<Fate>, confirmations: nat): seq<Block> {
    if |fates| == 0 then [] else PartOf(fates[0], confirmations)
  }

  /** Ask for the head, and index up to head minus confirmations if that is not behind `start`. */
  method IndexToHead(confirmations: uint64, feed: Feed, client: Client, store: LogStore, metrics: Metrics,
                     chunker: Chunker, start: uint64, ghost p: seq<Block>)
    returns (r: StepResult, newStart: uint64, ghost tip: seq<Block>, ghost next: nat, ghost reach: nat,
             ghost seen: Option<nat>)
    requires chunker.Valid()
    modifies client`fates, client`logRequests, client`lastHead, store`logs, store`checkpoints, store`verdicts,
             metrics, chunker
    ensures chunker.Valid()
    ensures StepLeaves(old(client.fates), client.fates, confirmations, p, tip)
    ensures !r.StepFailed? ==> |client.fates| == 0 || |client.fates| < |old(client.fates)|
    ensures Steady(old(client.fates), confirmations) ==>
              StepEffect(feed, old(store.Contents()), store.Contents(), start, newStart, r,
                         Trace(None, false, tip, start, next, reach))
    ensures Tiled(old(store.checkpoints), store.checkpoints, start, next) && newStart >= start
    ensures client.lastHead == if seen.Some? then seen else old(client.lastHead)
    ensures !r.StepFailed? && seen.Some? && seen.value > confirmations ==> newStart > seen.value - confirmations
    ensures r.CaughtUp? ==> seen.Some? && newStart == seen.value - confirmations + 1
    ensures r.CaughtUp? ==> Answered(old(client.fates), confirmations, tip)
    ensures seen == FirstHead(old(client.fates))
    ensures r.Waiting? <==> seen.None? || seen.value <= confirmations || seen.value - confirmations < start
    ensures r.Waiting? ==> store.Contents() == old(store.Contents()) && newStart == start
    ensures r.Waiting? && old(store.Reliable()) ==> store.Reliable()
    ensures AllUp(old(client.fates)) && Steady(old(client.fates), confirmations) && TotalDecoder(feed) &&
            old(store.Reliable()) ==>
              (r.StepFailed? ==> client.fates == []) && store.Reliable()
    ensures Steady(old(client.fates), confirmations) && Tolerant(old(client.fates), chunker.min) ==>
              |old(client.fates)| <=
                |client.fates| + PassCost(feed, FirstPart(old(client.fates), confirmations), start, chunker.min,
                                          old(chunker.current))
  {
    hide AllUp, Reach, TotalDecoder, Rest, Answered, Agree, Steady, Settled, Indexed, Tiled, Later, Records, InsertAll,
         StepEffect, StepLeaves, SafePart, Headroom, Tolerant, Level, LogsBetween, Wrap, PassCost;
    r, newStart, tip, next, reach, seen := Waiting, start, p, start, start, None;
    ghost var before, db := client.fates, store.Contents();
    NothingIndexed(feed, p, db, start, Trace(None, false, p, start, start, start), Waiting);
    IndexedNothing(feed, p, db, start);
    TiledNothing(store.checkpoints, start);
    var head := client.GetBlockNumber();
    LaterRest(before);
    LeavesWithoutHead(before, client.fates, confirmations, p);
    AskingIsCheap(feed, FirstPart(before, confirmations), start, chunker.min, chunker.current);
    if head.None? {
      metrics.rpcErrors := metrics.rpcErrors + 1;
      return;
    }
    seen := head;
    if head.value <= confirmations {
      return;
    }
    NoWrap(head.value - confirmations);
    var safeHead := Wrap(head.value - confirmations);
    if safeHead < start {
      return;
    }
    tip := SafePart(before[0].chain, confirmations);
    HeadAnswered(before, confirmations);
    if AllUp(before) && Steady(before, confirmations) {
      SafeHeadIsReached(before, confirmations, safeHead);
    }
    ghost var level, requests := chunker.current, client.logRequests;
    LaterKeeps(Rest(before), before, 0, [], chunker.min, 0);
    var err;
    err, next, reach := ProcessRangeAdaptive(feed, client, store, metrics, chunker, start, safeHead, tip);
    LeavesWithHead(before, client.fates, confirmations, p);
    if Steady(before, confirmations) && Tolerant(before, chunker.min) {
      PassIsCheap(feed, tip, start, chunker.min, level, Level(chunker.min, chunker.current), |Rest(before)|,
                  |client.fates|, client.logRequests - requests, next);
    }
    if err.Some? {
      r := StepFailed;
      if Steady(before, confirmations) {
        RangeIndexed(feed, tip, db, store.Contents(), start, next, reach, newStart, r);
      }
      return;
    }
    NoWrap(safeHead + 1);
    r, newStart := CaughtUp, Wrap(safeHead + 1);
    if Steady(before, confirmations) {
      RangeIndexed(feed, tip, db, store.Contents(), start, next, reach, newStart, r);
    }
  }

  /** The answers that are left once a pass has looked for a reorg. */
  function AfterDetection(fates: seq<Fate>, cps: seq<Checkpoint>): seq<Fate> {
    if cps == [] then fates else Rest(fates)
  }

  /** Detect a reorg and roll back if there is one; `from` is where indexing goes on. */
  method DetectAndRollBack(client: Client, store: LogStore, start: uint64)
    returns (ok: bool, from: uint64, d: Detection)
    modifies client`fates, store
    ensures client.fates == old(client.fates) || client.fates == Rest(old(client.fates))
    ensures !d.DetectFailed? ==> Detected(old(client.fates), old(store.checkpoints), d)
    ensures !d.DetectFailed? ==> client.fates == AfterDetection(old(client.fates), old(store.checkpoints))
    ensures d.DetectFailed? ==> !ok
    ensures from == (if d.Reorged? then d.from else start)
    ensures !d.Reorged? ==> store.Contents() == old(store.Contents()) && (ok || d.DetectFailed?)
    ensures d.Reorged? && ok ==> store.Contents() == RolledBack(old(store.Contents()), d.from)
    ensures d.Reorged? && !ok ==>
              store.checkpoints == old(store.checkpoints) &&
              (store.logs == old(store.logs) || store.logs == Below(old(store.logs), d.from))
    ensures store.rollbacks == old(store.rollbacks) + (if d.Reorged? then 1 else 0)
    ensures (forall c | c in old(store.checkpoints) :: Reach(old(client.fates), c.end)) && old(store.Reliable()) ==>
              (ok || client.fates == []) &&
              (d.DetectFailed? ==> |AfterDetection(old(client.fates), old(store.checkpoints))| == 0)
    ensures old(store.Reliable()) ==> store.Reliable()
  {
    hide Reach, Detected, RolledBack, Below, LogStore.Reliable;
    ok, from := false, start;
    d := Detect(client, store);
    if d.DetectFailed? {
      return;
    }
    ok := true;
    if d.Reorged? {
      from := d.from;
      ok := Rollback(store, d.from);
    }
  }

  /** One pass: detect a reorg, roll back if there is one, and index up to the safe head. */
  method FollowStep(confirmations: uint64, feed: Feed, client: Client, store: LogStore, metrics: Metrics,
                    chunker: Chunker, start: uint64, ghost p: seq<Block>)
    returns (r: StepResult, newStart: uint64, ghost d: Detection, ghost t: Trace, ghost seen: Option<nat>)
    requires chunker.Valid()
    modifies client`fates, client`logRequests, client`lastHead, store, metrics, chunker
    ensures chunker.Valid()
    ensures StepLeaves(old(client.fates), client.fates, confirmations, p, t.tip)
    ensures !r.StepFailed? ==> |client.fates| == 0 || |client.fates| < |old(client.fates)|
    ensures !d.DetectFailed? ==> Detected(old(client.fates), old(store.checkpoints), d)
    ensures d.DetectFailed? ==> r.StepFailed?
    ensures t.unwound == if d.Reorged? then Some(d.from) else None
    ensures Steady(old(client.fates), confirmations) ==>
              StepEffect(feed, old(store.Contents()), store.Contents(), start, newStart, r, t)
    ensures store.rollbacks == old(store.rollbacks) + (if d.Reorged? then 1 else 0)
    ensures client.lastHead == if seen.Some? then seen else old(client.lastHead)
    ensures !r.StepFailed? && seen.Some? && seen.value > confirmations ==> newStart > seen.value - confirmations
    ensures r.CaughtUp? ==> seen.Some? && newStart == seen.value - confirmations + 1
    ensures r.CaughtUp? ==> Answered(old(client.fates), confirmations, t.tip)
    ensures !r.StepFailed? && d.Clean? ==> newStart >= start
    ensures !d.DetectFailed? && !t.interrupted ==>
              seen == FirstHead(AfterDetection(old(client.fates), old(store.checkpoints))) &&
              (r.Waiting? <==> seen.None? || seen.value <= confirmations || seen.value - confirmations < t.from)
    ensures r.Waiting? && d.Clean? ==> store.Contents() == old(store.Contents()) && newStart == start == t.from
    ensures r.Waiting? && old(store.Reliable()) ==> store.Reliable()
    ensures t.interrupted ==> d.Reorged?
    ensures AllUp(old(client.fates)) && Steady(old(client.fates), confirmations) && TotalDecoder(feed) &&
            old(store.Reliable()) && (forall c | c in old(store.checkpoints) :: Reach(old(client.fates), c.end)) ==>
              (r.StepFailed? ==> client.fates == []) && store.Reliable()
    ensures d.DetectFailed? && (forall c | c in old(store.checkpoints) :: Reach(old(client.fates), c.end)) &&
            old(store.Reliable()) ==>
              |AfterDetection(old(client.fates), old(store.checkpoints))| == 0
    ensures Steady(old(client.fates), confirmations) && Tolerant(old(client.fates), chunker.min) &&
            !d.DetectFailed? && !t.interrupted ==>
              var coming := AfterDetection(old(client.fates), old(store.checkpoints));
              |coming| <= |client.fates| + PassCost(feed, FirstPart(coming, confirmations), t.from, chunker.min,
                                                    old(chunker.current))
  {
    hide *;
    ghost var before, db := client.fates, store.Contents();
    r, newStart, seen := StepFailed, start, None;
    t := Trace(None, false, p, start, start, start);
    NothingIndexed(feed, p, db, start, t, r);
    KeptIsRolledBack(db, t);
    store.Fields();
    LaterRest(before);
    LaterReflexive(before);
    var ok, from, verdict := DetectAndRollBack(client, store, start);
    ghost var mid := client.fates;
    d := verdict;
    LeavesWithoutHead(before, mid, confirmations, p);
    LaterKeeps(mid, before, confirmations, p, chunker.min, 0);
    if d.Reorged? {
      t := Trace(Some(d.from), !ok, p, d.from, d.from, d.from);
    }
    store.Fields();
    if !ok {
      if d.Reorged? {
        HalfWay(feed, db, store.Contents(), start, newStart, t);
      }
      return;
    }
    ghost var tip, next, reach;
    r, newStart, tip, next, reach, seen := IndexToHead(confirmations, feed, client, store, metrics, chunker, from, p);
    t := Trace(t.unwound, false, tip, from, next, reach);
    KeptIsRolledBack(db, t);
    LeavesAfter(before, mid, client.fates, confirmations, p, p, tip);
    if r.CaughtUp? {
      AnsweredBefore(mid, before, confirmations, tip);
    }
    if Steady(before, confirmations) {
      UnwoundThenIndexed(feed, db, store.Contents(), start, newStart, r, t);
    }
  }

  /** The first block without a checkpoint. */
  function NextBlock(db: Db, start: uint64): nat {
    if db.checkpoints == [] then start else db.checkpoints[|db.checkpoints| - 1].end + 1
  }

  /**
   * The store agrees with p from the start block on: checkpoints tile the blocks up to the next one and
   * carry p's hashes, every row of p in that stretch is stored, and every stored row is one of p's.
   */
  ghost predicate Synced(feed: Feed, p: seq<Block>, db: Db, start: uint64) {
    var next := NextBlock(db, start);
    |p| < TWO_64 && Tiles(db.checkpoints, start, next) && EndHashes(db.checkpoints, p) &&
    Submap(TableOf(feed, p, start, next), db.logs) && Submap(db.logs, TableOf(feed, p, start, |p|))
  }

  lemma EmptyStoreIsSynced(feed: Feed, start: uint64)
    ensures Synced(feed, [], Db(map[], []), start) && NextBlock(Db(map[], []), start) == start
  {
  }

  /** The next block is on p, or right behind it, unless nothing is indexed yet. */
  lemma NextWithin(feed: Feed, p: seq<Block>, db: Db, start: uint64)
    requires Synced(feed, p, db, start)
    ensures start <= NextBlock(db, start)
    ensures NextBlock(db, start) <= |p| || NextBlock(db, start) == start
  {
    TilesWithin(db.checkpoints, start, NextBlock(db, start));
    if db.checkpoints != [] {
      assert db.checkpoints[|db.checkpoints| - 1] in db.checkpoints;
    }
  }

  /** In a synced store every stored row is one of p's and every row of p below the next block is stored. */
  lemma SyncedMeaning(feed: Feed, p: seq<Block>, db: Db, start: uint64, r: LogRecord)
    requires Synced(feed, p, db, start) && UniqueKeys(Records(feed, p, start, |p|))
    ensures r.key in db.logs && db.logs[r.key] == r ==> r in Records(feed, p, start, |p|)
    ensures r in Records(feed, p, start, NextBlock(db, start)) ==> r.key in db.logs && db.logs[r.key] == r
  {
    var next := NextBlock(db, start);
    InsertAllMeaning(map[], Records(feed, p, start, |p|));
    if r in Records(feed, p, start, next) {
      NextWithin(feed, p, db, start);
      if next <= |p| {
        TableExtends(feed, p, start, next, |p|);
        RecordsSplit(feed, p, start, next, |p|);
      }
      UniqueKeysKeepEveryRow(Records(feed, p, start, |p|));
      TableMeaning(feed, p, start, next);
    }
  }

  lemma EmptyTable(feed: Feed, p: seq<Block>, lo: nat, hi: nat)
    requires hi <= lo
    ensures TableOf(feed, p, lo, hi) == map[]
  {
  }

  /** Rows of a chain are rows of every chain that extends it. */
  lemma TableOfExtension(feed: Feed, p: seq<Block>, q: seq<Block>, lo: nat, hi: nat)
    requires p <= q && lo <= hi <= |p|
    ensures TableOf(feed, p, lo, hi) == TableOf(feed, q, lo, hi)
    ensures Submap(TableOf(feed, p, lo, |p|), TableOf(feed, q, lo, |q|))
  {
    RecordsOfPrefix(feed, p, q, lo, hi);
    RecordsOfPrefix(feed, p, q, lo, |p|);
    TableExtends(feed, q, lo, |p|, |q|);
  }

  lemma SyncedExtends(feed: Feed, p: seq<Block>, q: seq<Block>, db: Db, start: uint64)
    requires Synced(feed, p, db, start) && p <= q && |q| < TWO_64
    ensures Synced(feed, q, db, start)
  {
    hide Records, InsertAll;
    NextWithin(feed, p, db, start);
    var next := NextBlock(db, start);
    if start <= |p| {
      TableOfExtension(feed, p, q, start, next);
    } else {
      EmptyTable(feed, p, start, next);
      EmptyTable(feed, q, start, next);
      EmptyTable(feed, p, start, |p|);
    }
    assert forall c | c in db.checkpoints :: p[c.end] == q[c.end];
  }

  lemma SyncedLogs(feed: Feed, p: seq<Block>, m: Table, start: nat, from: nat, next: nat, reach: nat)
    requires start <= from <= next <= reach <= Max(from, |p|) && (from <= |p| || from == start)
    requires Submap(TableOf(feed, p, start, from), m) && Submap(m, TableOf(feed, p, start, |p|))
    ensures var n := InsertAll(m, Records(feed, p, from, reach));
            Submap(TableOf(feed, p, start, next), n) && Submap(n, TableOf(feed, p, start, |p|))
  {
    hide Records, InsertAll, TableOf;
    if from < |p| {
      InsertKeepsBetween(feed, p, m, start, from, reach, |p|);
      TableExtends(feed, p, start, next, reach);
    } else {
      IndexedNothing(feed, p, Db(m, []), from);
      assert InsertAll(m, []) == m by {
        InsertPresent(m, []);
      }
    }
  }

  lemma TilesEnd(cps: seq<Checkpoint>, lo: uint64, hi: nat)
    requires Tiles(cps, lo, hi)
    ensures NextBlock(Db(map[], cps), lo) == hi
  {
  }

  /** Indexing one more stretch of p keeps the store in agreement with p. */
  lemma SyncedStep(feed: Feed, p: seq<Block>, before: Db, after: Db, start: uint64, next: nat, reach: nat)
    requires Synced(feed, p, before, start)
    requires Indexed(feed, p, before, after, NextBlock(before, start), next, reach)
    requires reach <= Max(NextBlock(before, start), |p|)
    ensures Synced(feed, p, after, start) && NextBlock(before, start) <= NextBlock(after, start) == next
  {
    hide Records, InsertAll, Tiles, TableOf, Submap, EndHashes, Added;
    var from := NextBlock(before, start);
    NextWithin(feed, p, before, start);
    SyncedLogs(feed, p, before.logs, start, from, next, reach);
    var added := Added(before.checkpoints, after.checkpoints);
    AddedTiles(feed, p, before, after, from, next, reach);
    TilesAppend(before.checkpoints, added, start, from, next);
    TilesEnd(after.checkpoints, start, next);
    EndHashesConcat(before.checkpoints, added, p);
  }

  /** When the coming answers share p, a store synced with p shows no reorg. */
  lemma SyncedIsClean(feed: Feed, p: seq<Block>, fates: seq<Fate>, confirmations: nat, db: Db, start: uint64,
                      d: Detection)
    requires Synced(feed, p, db, start) && Settled(fates, confirmations, p)
    requires Detected(fates, db.checkpoints, d)
    ensures d.Clean?
  {
    if db.checkpoints != [] {
      DetectedOnTiles(fates, db.checkpoints, start, NextBlock(db, start), d);
      var last := db.checkpoints[|db.checkpoints| - 1];
      assert last in db.checkpoints;
      SettledAgrees(fates, confirmations, p);
      assert p[last.end] == fates[0].chain[last.end];
    }
  }

  lemma SyncedIsShort(feed: Feed, p: seq<Block>, db: Db, start: uint64)
    requires Synced(feed, p, db, start)
    ensures |p| < TWO_64
  {
  }

  /** One pass keeps a synced store synced, with a chain that answered, whatever fails in it, and never rolls back. */
  lemma StepKeepsSynced(feed: Feed, p: seq<Block>, fates: seq<Fate>, left: seq<Fate>, confirmations: nat, before: Db,
                        after: Db, start: uint64, d: Detection, r: StepResult, newStart: nat, t: Trace)
    requires Synced(feed, p, before, start) && Steady(fates, confirmations) && Settled(fates, confirmations, p)
    requires d.DetectFailed? || Detected(fates, before.checkpoints, d)
    requires t.unwound == if d.Reorged? then Some(d.from) else None
    requires StepEffect(feed, before, after, NextBlock(before, start), newStart, r, t)
    requires StepLeaves(fates, left, confirmations, p, t.tip)
    ensures p <= t.tip && FromNode(fates, confirmations, p, t.tip)
    ensures Steady(left, confirmations) && Settled(left, confirmations, t.tip)
    ensures !d.Reorged? && Synced(feed, t.tip, after, start)
    ensures !r.StepFailed? ==> newStart == NextBlock(after, start)
    ensures NextBlock(before, start) <= NextBlock(after, start) && t.from == NextBlock(before, start)
  {
    hide Synced, Detected, Settled, Steady, Indexed, Later, FromNode;
    if !d.DetectFailed? {
      SyncedIsClean(feed, p, fates, confirmations, before, start, d);
    }
    SyncedIsShort(feed, p, before, start);
    SyncedExtends(feed, p, t.tip, before, start);
    SyncedStep(feed, t.tip, before, after, start, t.next, t.reach);
  }

  /** With a synced store and settled answers every checkpoint's last block is there to be compared. */
  lemma CheckpointsAreReached(feed: Feed, p: seq<Block>, db: Db, start: uint64, fates: seq<Fate>, confirmations: nat)
    requires Synced(feed, p, db, start) && Settled(fates, confirmations, p) && AllUp(fates)
    ensures forall c | c in db.checkpoints :: Reach(fates, c.end)
  {
    hide Tiles, TableOf, Submap;
  }

  lemma AllUpLater(before: seq<Fate>, after: seq<Fate>, confirmations: nat, p: seq<Block>, tip: seq<Block>)
    requires StepLeaves(before, after, confirmations, p, tip) && AllUp(before)
    ensures AllUp(after)
  {
    LaterKeeps(after, before, 0, p, 0, 0);
  }

  lemma SyncedEnd(feed: Feed, p: seq<Block>, db: Db, start: uint64)
    requires Synced(feed, p, db, start) && db.checkpoints != []
    ensures Tiles(db.checkpoints, start, NextBlock(db, start)) && NextBlock(db, start) < TWO_64
  {
    hide Tiles, TableOf, Submap;
    assert db.checkpoints[|db.checkpoints| - 1] in db.checkpoints;
  }

  /** The first checkpoint query answers the block where indexing stopped. */
  lemma ResumesAtNext(feed: Feed, p: seq<Block>, db: Db, start: uint64, cp: Option<Checkpoint>)
    requires Synced(feed, p, db, start)
    requires cp.None? <==> db.checkpoints == []
    requires cp.Some? ==> IsNewest(db.checkpoints, cp.value)
    ensures NextBlock(db, start) == if cp.Some? then Wrap(cp.value.end + 1) else start
  {
    hide Synced, Tiles, IsNewest, Wrap;
    if cp.Some? {
      SyncedEnd(feed, p, db, start);
      TiledNewest(db.checkpoints, start, NextBlock(db, start), cp.value);
      NoWrap(cp.value.end + 1);
    }
  }

  /** Where indexing goes on: behind the newest checkpoint, or at the configured block. */
  method ResumePoint(startBlock: uint64, store: LogStore, feed: Feed, ghost p: seq<Block>)
    returns (ok: bool, start: uint64)
    modifies store`verdicts
    ensures ok ==>
              if store.checkpoints == [] then start == startBlock
              else exists cp :: cp in store.checkpoints && start == Wrap(cp.end + 1) &&
                                forall c | c in store.checkpoints :: c.end <= cp.end
    ensures ok && Synced(feed, p, store.Contents(), startBlock) ==> start == NextBlock(store.Contents(), startBlock)
    ensures old(store.Reliable()) ==> ok && store.Reliable()
  {
    hide Synced, NextBlock, Wrap, LogStore.Reliable;
    start := startBlock;
    var cp;
    ok, cp := store.LastCheckpoint();
    if ok {
      if Synced(feed, p, store.Contents(), startBlock) {
        ResumesAtNext(feed, p, store.Contents(), startBlock, cp);
      }
      if cp.Some? {
        start := Wrap(cp.value.end + 1);
      }
    }
  }

  function LastPart(fates: seq<Fate>, confirmations: nat): seq<Block> {
    if |fates| == 0 then [] else PartOf(fates[|fates| - 1], confirmations)
  }

  /** As many answers as a pass of a run can use up, from the look for a reorg on. */
  ghost function RunCost(feed: Feed, fates: seq<Fate>, confirmations: nat, next: nat, min: nat, max: nat): nat
    requires min >= 1
  {
    1 + PassCost(feed, LastPart(fates, confirmations), next, min, max)
  }

  /** The safe head of each of the first `upTo` answers lies below block `next`. */
  ghost predicate HeadsIndexed(fates: seq<Fate>, confirmations: nat, upTo: int, next: nat) {
    forall i | 0 <= i < |fates| && i < upTo && fates[i].Up? && |fates[i].chain| - 1 > confirmations ::
      |fates[i].chain| - 1 - confirmations < next
  }

  lemma HeadIsSeen(fates: seq<Fate>, cps: seq<Checkpoint>)
    requires AllUp(fates)
    ensures var coming := AfterDetection(fates, cps);
            Later(coming, fates) && |fates| <= |coming| + 1 &&
            (|coming| > 0 ==> coming[0].Up? && FirstHead(coming) == Some(|coming[0].chain| - 1))
  {
  }

  lemma RecordsWithin(feed: Feed, p: seq<Block>, q: seq<Block>, from: nat, start: nat)
    requires p <= q && start <= from <= |p|
    ensures |Records(feed, p, from, |p|)| <= |Records(feed, q, start, |q|)|
  {
    hide Records;
    RecordsOfPrefix(feed, p, q, from, |p|);
    RecordsSplit(feed, q, start, from, |q|);
    RecordsSplit(feed, q, from, |p|, |q|);
  }

  lemma PassCostMonotone(feed: Feed, p: seq<Block>, q: seq<Block>, from: nat, start: nat, min: nat, chunk: nat,
                         max: nat)
    requires p <= q && start <= from && 1 <= min && chunk <= max
    ensures PassCost(feed, p, from, min, chunk) <= PassCost(feed, q, start, min, max)
  {
    hide Records, Level;
    LevelMonotone(min, chunk, max);
    if from < |p| {
      RecordsWithin(feed, p, q, from, start);
    } else {
      IndexedNothing(feed, p, Db(map[], []), from);
    }
  }

  /** No pass costs more than it would on the last chain. */
  lemma CostIsBounded(feed: Feed, fates: seq<Fate>, coming: seq<Fate>, confirmations: nat, from: nat, start: nat,
                      min: nat, chunk: nat, max: nat)
    requires AllUp(fates) && Steady(fates, confirmations) && Later(coming, fates)
    requires start <= from && 1 <= min && chunk <= max
    ensures PassCost(feed, FirstPart(coming, confirmations), from, min, chunk)
          < RunCost(feed, fates, confirmations, start, min, max)
  {
    hide PassCost;
    var p, q := FirstPart(coming, confirmations), LastPart(fates, confirmations);
    assert p <= q by {
      hide SafePart;
      if |coming| > 0 {
        assert coming[0] == fates[|fates| - |coming|];
      }
    }
    PassCostMonotone(feed, p, q, from, start, min, chunk, max);
  }

  /** Once a head is covered, so are all heads answered before it. */
  lemma EarlierHeadsIndexed(fates: seq<Fate>, coming: seq<Fate>, confirmations: nat, upTo: int, next: nat)
    requires AllUp(fates) && Steady(fates, confirmations) && Later(coming, fates) && |coming| > 0
    requires upTo <= |fates| - |coming| + 1
    requires |coming[0].chain| - 1 > confirmations ==> |coming[0].chain| - 1 - confirmations < next
    ensures HeadsIndexed(fates, confirmations, upTo, next)
  {
    var k := |fates| - |coming|;
    assert coming[0] == fates[k];
    forall i | 0 <= i < |fates| && i < upTo && |fates[i].chain| - 1 > confirmations
      ensures |fates[i].chain| - 1 - confirmations < next
    {
      assert i < k ==> SafePart(fates[i].chain, confirmations) <= SafePart(fates[k].chain, confirmations);
    }
  }

  /**
   * A pass that more answers meet than it can use up does not fail, and reaches the head that it sees, so
   * that of all answers at most those of one pass before the last moment are not indexed.
   */
  lemma PassCatchesUp(fates: seq<Fate>, mid: seq<Fate>, cps: seq<Checkpoint>, left: nat, confirmations: nat,
                      cost: nat, pass: nat, next: nat, after: nat, r: StepResult)
    requires AllUp(fates) && AllUp(mid) && Steady(fates, confirmations) && Later(mid, fates)
    requires HeadsIndexed(fates, confirmations, |fates| - Max(|mid|, cost) - cost, next) && next <= after
    requires pass < cost && |AfterDetection(mid, cps)| <= left + pass
    requires r.StepFailed? ==> left == 0
    requires FirstHead(AfterDetection(mid, cps)).Some? && !r.StepFailed? ==>
               var head := FirstHead(AfterDetection(mid, cps)).value;
               head > confirmations ==> head - confirmations < after
    ensures HeadsIndexed(fates, confirmations, |fates| - Max(left, cost) - cost, after)
  {
    hide Later, AfterDetection, Steady, AllUp, FirstHead;
    if |mid| > cost {
      HeadIsSeen(mid, cps);
      LaterTransitive(fates, mid, AfterDetection(mid, cps));
      EarlierHeadsIndexed(fates, AfterDetection(mid, cps), confirmations, |fates| - Max(left, cost) - cost, after);
    }
  }

  /** No answer shows a head above the confirmations. */
  ghost predicate Idle(fates: seq<Fate>, confirmations: nat) {
    forall i | 0 <= i < |fates| && fates[i].Up? :: |fates[i].chain| - 1 <= confirmations
  }

  lemma IdleLater(now: seq<Fate>, before: seq<Fate>, confirmations: nat)
    requires Later(now, before) && Idle(before, confirmations)
    ensures Idle(now, confirmations)
    ensures FirstHead(now).None? || FirstHead(now).value <= confirmations
  {
    assert forall i | 0 <= i < |now| :: now[i] == before[i + (|before| - |now|)];
  }

  lemma NothingToDetect(fates: seq<Fate>, cps: seq<Checkpoint>, d: Detection)
    requires cps == []
    ensures AfterDetection(fates, cps) == fates && (Detected(fates, cps, d) ==> d.Clean?)
  {
  }

  lemma CannotStay(fates: seq<Fate>, cps: seq<Checkpoint>)
    ensures |AfterDetection(fates, cps)| > 0 ==> fates != []
  {
  }

  lemma HeadsStayIndexed(fates: seq<Fate>, confirmations: nat, upTo: int, next: nat, after: nat)
    requires HeadsIndexed(fates, confirmations, upTo, next) && next <= after
    ensures HeadsIndexed(fates, confirmations, upTo, after)
  {
  }

  datatype Exit = Cancelled | Aborted

  /** What a run of the follower has done by some moment, and what is still to come. */
  datatype Moment = Moment(fates: seq<Fate>, db: Db, reliable: bool, rollbacks: nat, lastHead: Option<nat>,
                           tip: seq<Block>)

  ghost function MomentOf(client: Client, store: LogStore, tip: seq<Block>): Moment
    reads client, store
  {
    Moment(client.fates, store.Contents(), store.Reliable(), store.rollbacks, client.lastHead, tip)
  }

  lemma MomentFields(client: Client, store: LogStore, tip: seq<Block>)
    ensures MomentOf(client, store, tip) ==
              Moment(client.fates, store.Contents(), store.Reliable(), store.rollbacks, client.lastHead, tip)
    ensures store.Contents() == Db(store.logs, store.checkpoints)
  {
  }

  /** The settings of a run. */
  datatype Setup = Setup(feed: Feed, confirmations: nat, startBlock: uint64, min: nat, max: nat) {
    /** Answers and store agree with what is settled. */
    ghost predicate Good(m: Moment) {
      Steady(m.fates, confirmations) && Settled(m.fates, confirmations, m.tip) && Synced(feed, m.tip, m.db, startBlock)
    }

    /** And nothing fails. */
    ghost predicate Trusty(m: Moment) {
      Good(m) && AllUp(m.fates) && TotalDecoder(feed) && m.reliable
    }

    /** Nothing is indexed and nothing can be. */
    ghost predicate Idles(m: Moment) {
      Idle(m.fates, confirmations) && m.db.checkpoints == [] && m.reliable
    }

    /** The first look for a reorg gets no answer. */
    predicate Deaf(m: Moment) {
      m.db.checkpoints != [] && |m.fates| > 0 && m.fates[0].Down?
    }

    ghost function Next(m: Moment): nat {
      NextBlock(m.db, startBlock)
    }

    /** The answers that the first pass from this moment on gets, once it has looked for a reorg. */
    function Coming(m: Moment): seq<Fate> {
      AfterDetection(m.fates, m.db.checkpoints)
    }

    /** Everything settled by the last head seen is indexed. */
    ghost predicate HeadCovered(m: Moment) {
      m.lastHead.Some? && m.lastHead.value > confirmations ==> Next(m) > m.lastHead.value - confirmations
    }

    /** As many answers as one pass can use up. */
    ghost function Cost(s: Moment): nat
      requires min >= 1
    {
      RunCost(feed, s.fates, confirmations, Next(s), min, max)
    }

    /** A head was seen, and every safe head is indexed but those of the latest answers. */
    ghost predicate CaughtUpFrom(s: Moment, t: Moment)
      requires min >= 1
    {
      (t != s && |Coming(s)| > 0 ==> t.lastHead.Some?) &&
      (Tolerant(s.fates, min) ==>
         HeadsIndexed(s.fates, confirmations, |s.fates| - Max(|t.fates|, Cost(s)) - Cost(s), Next(t)))
    }

    /** Agreement is kept and indexing never goes back. */
    ghost predicate Advanced(s: Moment, t: Moment) {
      StepLeaves(s.fates, t.fates, confirmations, s.tip, t.tip) &&
      (Good(s) ==> Good(t) && s.tip <= t.tip && t.rollbacks == s.rollbacks && Next(s) <= Next(t))
    }

    /** A run that began at s and stands before a pass at t. */
    ghost predicate InRun(s: Moment, t: Moment, start: nat)
      requires min >= 1
    {
      Advanced(s, t) && (Good(s) ==> start == Next(t) && HeadCovered(t)) &&
      (Trusty(s) ==> AllUp(t.fates) && t.reliable && CaughtUpFrom(s, t)) &&
      (Idles(s) ==> t.db == s.db && t.reliable) && (Deaf(s) ==> t.db == s.db && t.fates == s.fates)
    }

    /** A run that began at s and ended at t. */
    ghost predicate RunEnded(s: Moment, t: Moment, exit: Exit)
      requires min >= 1
    {
      Advanced(s, t) && (exit.Cancelled? ==> t.fates == [] && (Good(s) ==> HeadCovered(t))) &&
      (Trusty(s) ==> t.fates == [] && CaughtUpFrom(s, t)) &&
      (Idles(s) ==> exit.Cancelled? && t.db == s.db) && (Deaf(s) ==> exit.Aborted?)
    }
  }

  lemma SetupMeans(u: Setup, m: Moment)
    ensures u.Good(m) <==>
              Steady(m.fates, u.confirmations) && Settled(m.fates, u.confirmations, m.tip) &&
              Synced(u.feed, m.tip, m.db, u.startBlock)
    ensures u.Next(m) == NextBlock(m.db, u.startBlock) && u.Coming(m) == AfterDetection(m.fates, m.db.checkpoints)
  {
  }

  lemma RunStarts(u: Setup, s: Moment, t: Moment, ok: bool, start: nat)
    requires u.min >= 1 && t == s.(reliable := t.reliable) && s.lastHead.None? && (s.reliable ==> ok && t.reliable)
    requires ok && u.Good(s) ==> start == u.Next(s)
    ensures if ok then u.InRun(s, t, start) else u.RunEnded(s, t, Aborted)
  {
    LeavesNothing(s.fates, u.confirmations, s.tip);
  }

  lemma RunCancelled(u: Setup, s: Moment, t: Moment, start: nat)
    requires u.min >= 1 && u.InRun(s, t, start) && |t.fates| == 0
    ensures u.RunEnded(s, t, Cancelled)
  {
    hide StepLeaves, Steady, Settled, Synced, PassCost, Tolerant, NextBlock, Idle;
  }

  lemma DeafFails(u: Setup, s: Moment, mid: Moment, d: Detection)
    requires u.Deaf(s) && mid.db == s.db && mid.fates == s.fates
    ensures !Detected(mid.fates, mid.db.checkpoints, d)
  {
  }

  /** When nothing fails a pass reaches the head that it sees, unless the answers run out. */
  lemma TrustyPass(u: Setup, s: Moment, mid: Moment, t: Moment, d: Detection, r: StepResult, tr: Trace,
                   seen: Option<nat>, chunk: nat)
    requires u.min >= 1 && chunk <= u.max && u.CaughtUpFrom(s, mid) && Later(mid.fates, s.fates) && |mid.fates| > 0
    requires AllUp(s.fates) && AllUp(mid.fates) && Steady(s.fates, u.confirmations)
    requires Steady(mid.fates, u.confirmations)
    requires u.Next(s) <= u.Next(mid) <= u.Next(t) && tr.from == u.Next(mid)
    requires t.lastHead == if seen.Some? then seen else mid.lastHead
    requires d.DetectFailed? ==> r.StepFailed? && |u.Coming(mid)| == 0
    requires r.StepFailed? ==> t.fates == []
    requires !d.DetectFailed? ==> seen == FirstHead(u.Coming(mid))
    requires !r.StepFailed? && seen.Some? && seen.value > u.confirmations ==> u.Next(t) > seen.value - u.confirmations
    requires Tolerant(mid.fates, u.min) && !d.DetectFailed? ==>
               |u.Coming(mid)| <=
                 |t.fates| + PassCost(u.feed, FirstPart(u.Coming(mid), u.confirmations), tr.from, u.min, chunk)
    ensures u.CaughtUpFrom(s, t)
  {
    hide AllUp, Steady, Tolerant, Later, NextBlock, FirstHead, FirstPart, AfterDetection, PassCost, RunCost,
         HeadsIndexed;
    HeadIsSeen(mid.fates, mid.db.checkpoints);
    if Tolerant(s.fates, u.min) {
      var coming := u.Coming(mid);
      LaterKeeps(mid.fates, s.fates, 0, [], u.min, 0);
      LaterTransitive(s.fates, mid.fates, coming);
      CostIsBounded(u.feed, s.fates, coming, u.confirmations, tr.from, u.Next(s), u.min, chunk, u.max);
      PassCatchesUp(s.fates, mid.fates, mid.db.checkpoints, |t.fates|, u.confirmations, u.Cost(s),
                    PassCost(u.feed, FirstPart(coming, u.confirmations), tr.from, u.min, chunk), u.Next(mid),
                    u.Next(t), r);
    }
  }

  /** What a pass does for a run: it keeps what the run kept, and only its failure ends the run. */
  lemma PassInRun(u: Setup, s: Moment, mid: Moment, t: Moment, start: nat, newStart: nat, d: Detection, r: StepResult,
                  tr: Trace, seen: Option<nat>, chunk: nat)
    requires u.min >= 1 && chunk <= u.max && u.InRun(s, mid, start) && |mid.fates| > 0
    requires StepLeaves(mid.fates, t.fates, u.confirmations, mid.tip, t.tip) && t.tip == tr.tip
    requires d.DetectFailed? || Detected(mid.fates, mid.db.checkpoints, d)
    requires d.DetectFailed? ==> r.StepFailed?
    requires tr.unwound == if d.Reorged? then Some(d.from) else None
    requires Steady(mid.fates, u.confirmations) ==> StepEffect(u.feed, mid.db, t.db, start, newStart, r, tr)
    requires t.rollbacks == mid.rollbacks + (if d.Reorged? then 1 else 0)
    requires t.lastHead == if seen.Some? then seen else mid.lastHead
    requires !r.StepFailed? && seen.Some? && seen.value > u.confirmations ==> newStart > seen.value - u.confirmations
    requires r.CaughtUp? ==> seen.Some? && newStart == seen.value - u.confirmations + 1
    requires !r.StepFailed? && d.Clean? ==> newStart >= start
    requires !d.DetectFailed? && !tr.interrupted ==>
               seen == FirstHead(u.Coming(mid)) &&
               (r.Waiting? <==> seen.None? || seen.value <= u.confirmations || seen.value - u.confirmations < tr.from)
    requires r.Waiting? && d.Clean? ==> t.db == mid.db && newStart == start == tr.from
    requires r.Waiting? && mid.reliable ==> t.reliable
    requires tr.interrupted ==> d.Reorged?
    requires AllUp(mid.fates) && Steady(mid.fates, u.confirmations) && TotalDecoder(u.feed) && mid.reliable &&
             (forall c | c in mid.db.checkpoints :: Reach(mid.fates, c.end)) ==>
               (r.StepFailed? ==> t.fates == []) && t.reliable
    requires d.DetectFailed? && (forall c | c in mid.db.checkpoints :: Reach(mid.fates, c.end)) && mid.reliable ==>
               |u.Coming(mid)| == 0
    requires Steady(mid.fates, u.confirmations) && Tolerant(mid.fates, u.min) && !d.DetectFailed? && !tr.interrupted ==>
               |u.Coming(mid)| <=
                 |t.fates| + PassCost(u.feed, FirstPart(u.Coming(mid), u.confirmations), tr.from, u.min, chunk)
    ensures u.Advanced(s, t)
    ensures if r.StepFailed? then u.RunEnded(s, t, Aborted) else u.InRun(s, t, newStart)
  {
    hide AllUp, Reach, TotalDecoder, Steady, Settled, Synced, StepEffect, StepLeaves, Detected, Headroom, Tolerant,
         Later, FromNode, NextBlock, FirstHead, FirstPart, AfterDetection, PassCost, RunCost, Idle, HeadsIndexed,
         Setup.Deaf, Setup.CaughtUpFrom;
    LeavesAfter(s.fates, mid.fates, t.fates, u.confirmations, s.tip, mid.tip, t.tip);
    LeavesMeans(s.fates, mid.fates, u.confirmations, s.tip, mid.tip);
    if u.Good(s) {
      StepKeepsSynced(u.feed, mid.tip, mid.fates, t.fates, u.confirmations, mid.db, t.db, u.startBlock, d, r, newStart,
                      tr);
    }
    if u.Trusty(s) {
      AllUpLater(mid.fates, t.fates, u.confirmations, mid.tip, t.tip);
      CheckpointsAreReached(u.feed, mid.tip, mid.db, u.startBlock, mid.fates, u.confirmations);
      TrustyPass(u, s, mid, t, d, r, tr, seen, chunk);
    }
    if u.Deaf(s) {
      DeafFails(u, s, mid, d);
    }
    if u.Idles(s) {
      IdleLater(mid.fates, s.fates, u.confirmations);
      NothingToDetect(mid.fates, mid.db.checkpoints, d);
    }
  }

  lemma SizesArePositive(min: nat, max: nat)
    ensures 1 <= Max(1, min) <= Max(Max(1, min), max)
  {
  }

  /** What a run keeps. */
  lemma RunMeansSynced(u: Setup, s: Moment, t: Moment, exit: Exit)
    requires u.min >= 1 && u.RunEnded(s, t, exit)
    ensures FromNode(s.fates, u.confirmations, s.tip, t.tip) && Later(t.fates, s.fates)
    ensures exit.Cancelled? ==> t.fates == []
    ensures Steady(s.fates, u.confirmations) && Settled(s.fates, u.confirmations, s.tip) &&
            Synced(u.feed, s.tip, s.db, u.startBlock) ==>
              s.tip <= t.tip && Synced(u.feed, t.tip, t.db, u.startBlock) && Steady(t.fates, u.confirmations) &&
              Settled(t.fates, u.confirmations, t.tip) && t.rollbacks == s.rollbacks &&
              NextBlock(s.db, u.startBlock) <= NextBlock(t.db, u.startBlock) &&
              (exit.Cancelled? && t.lastHead.Some? && t.lastHead.value > u.confirmations ==>
                 NextBlock(t.db, u.startBlock) > t.lastHead.value - u.confirmations)
  {
    hide AllUp, Steady, Settled, Synced, Later, NextBlock, FromNode, StepLeaves, Setup.Trusty, Setup.CaughtUpFrom,
         Setup.Idles, Setup.Deaf;
    LeavesMeans(s.fates, t.fates, u.confirmations, s.tip, t.tip);
  }

  /** What a run reaches when nothing fails. */
  lemma RunMeansCaughtUp(u: Setup, s: Moment, t: Moment, exit: Exit)
    requires u.min >= 1 && u.RunEnded(s, t, exit) && s.lastHead.None?
    requires Steady(s.fates, u.confirmations) && Settled(s.fates, u.confirmations, s.tip)
    requires Synced(u.feed, s.tip, s.db, u.startBlock) && AllUp(s.fates) && TotalDecoder(u.feed) && s.reliable
    ensures var cost := RunCost(u.feed, s.fates, u.confirmations, NextBlock(s.db, u.startBlock), u.min, u.max);
            t.fates == [] && (|AfterDetection(s.fates, s.db.checkpoints)| > 0 ==> t.lastHead.Some?) &&
            (Tolerant(s.fates, u.min) ==>
               HeadsIndexed(s.fates, u.confirmations, |s.fates| - 2 * cost, NextBlock(t.db, u.startBlock)))
  {
    hide AllUp, TotalDecoder, Steady, Settled, Synced, Later, NextBlock, RunCost, AfterDetection, Tolerant,
         HeadsIndexed, StepLeaves, Setup.Idles, Setup.Deaf, Setup.Advanced, Setup.HeadCovered;
    if |u.Coming(s)| > 0 && t == s {
      CannotStay(s.fates, s.db.checkpoints);
    }
  }

  /** How a run ends when there is nothing to index, or no answer to the first look for a reorg. */
  lemma RunMeansExit(u: Setup, s: Moment, t: Moment, exit: Exit)
    requires u.min >= 1 && u.RunEnded(s, t, exit)
    ensures Idle(s.fates, u.confirmations) && s.db.checkpoints == [] && s.reliable ==> exit.Cancelled? && t.db == s.db
    ensures s.db.checkpoints != [] && |s.fates| > 0 && s.fates[0].Down? ==> exit.Aborted?
  {
    hide Idle, Setup.Advanced, Setup.Good, Setup.Trusty, Setup.CaughtUpFrom, Setup.HeadCovered;
  }

  /** The loop of the follower. */
  method RunFollower(cfg: Config, feed: Feed, client: Client, store: LogStore, metrics: Metrics, ghost p: seq<Block>)
    returns (exit: Exit, ghost tip: seq<Block>)
    requires Headroom(Max(Max(1, cfg.minChunkSize), cfg.maxChunkSize))
    requires client.lastHead == None
    modifies client`fates, client`logRequests, client`lastHead, store, metrics
    ensures Setup(feed, cfg.confirmations, cfg.startBlock, Max(1, cfg.minChunkSize),
                  Max(Max(1, cfg.minChunkSize), cfg.maxChunkSize))
              .RunEnded(old(MomentOf(client, store, p)), MomentOf(client, store, tip), exit)
  {
    hide *;
    tip := p;
    var chunker := new Chunker(cfg.minChunkSize, cfg.maxChunkSize, cfg.chunkSize);
    ghost var u := Setup(feed, cfg.confirmations, cfg.startBlock, Max(1, cfg.minChunkSize),
                         Max(Max(1, cfg.minChunkSize), cfg.maxChunkSize));
    ghost var s := MomentOf(client, store, tip);
    MomentFields(client, store, tip);
    chunker.ValidMeans();
    var ok;
    var start: uint64;
    ok, start := ResumePoint(cfg.startBlock, store, feed, p);
    ghost var t := MomentOf(client, store, tip);
    MomentFields(client, store, tip);
    SetupMeans(u, s);
    RunStarts(u, s, t, ok, start);
    if !ok {
      return Aborted, tip;
    }
    while true
      invariant chunker.Valid() && t == MomentOf(client, store, tip) && u.InRun(s, t, start)
      decreases |client.fates|
    {
      MomentFields(client, store, tip);
      if client.fates == [] {
        RunCancelled(u, s, t, start);
        return Cancelled, tip;
      }
      ghost var mid, chunk := t, chunker.current;
      var r;
      var newStart: uint64;
      ghost var d, tr, seen;
      chunker.ValidMeans();
      r, newStart, d, tr, seen := FollowStep(cfg.confirmations, feed, client, store, metrics, chunker, start, tip);
      tip := tr.tip;
      t := MomentOf(client, store, tip);
      MomentFields(client, store, tip);
      SetupMeans(u, mid);
      PassInRun(u, s, mid, t, start, newStart, d, r, tr, seen, chunk);
      if r.StepFailed? {
        return Aborted, tip;
      }
      start := newStart;
    }
  }

  /**
   * Follow the head until the context is cancelled or a request or statement fails; a crash is a failure
   * of everything that follows. `p` is the part of the chain known to be settled at the beginning and
   * `tip` the part known to be settled at the end.
   */
  method Follow(cfg: Config, feed: Feed, client: Client, store: LogStore, metrics: Metrics, ghost p: seq<Block>)
    returns (exit: Exit, ghost tip: seq<Block>)
    requires Headroom(Max(Max(1, cfg.minChunkSize), cfg.maxChunkSize))
    requires client.lastHead == None
    modifies client`fates, client`logRequests, client`lastHead, store, metrics
    ensures Steady(old(client.fates), cfg.confirmations) && Settled(old(client.fates), cfg.confirmations, p) &&
            Synced(feed, p, old(store.Contents()), cfg.startBlock) ==>
              p <= tip && Synced(feed, tip, store.Contents(), cfg.startBlock) &&
              Steady(client.fates, cfg.confirmations) && Settled(client.fates, cfg.confirmations, tip) &&
              store.rollbacks == old(store.rollbacks) &&
              NextBlock(old(store.Contents()), cfg.startBlock) <= NextBlock(store.Contents(), cfg.startBlock) &&
              (exit.Cancelled? && client.lastHead.Some? && client.lastHead.value > cfg.confirmations ==>
                 NextBlock(store.Contents(), cfg.startBlock) > client.lastHead.value - cfg.confirmations)
    ensures FromNode(old(client.fates), cfg.confirmations, p, tip) && Later(client.fates, old(client.fates))
    ensures exit.Cancelled? ==> client.fates == []
    ensures Steady(old(client.fates), cfg.confirmations) && Settled(old(client.fates), cfg.confirmations, p) &&
            Synced(feed, p, old(store.Contents()), cfg.startBlock) &&
            AllUp(old(client.fates)) && TotalDecoder(feed) && old(store.Reliable()) ==>
              var min := Max(1, cfg.minChunkSize);
              var next := NextBlock(old(store.Contents()), cfg.startBlock);
              var cost := RunCost(feed, old(client.fates), cfg.confirmations, next, min, Max(min, cfg.maxChunkSize));
              client.fates == [] &&
              (|AfterDetection(old(client.fates), old(store.checkpoints))| > 0 ==> client.lastHead.Some?) &&
              (Tolerant(old(client.fates), min) ==>
                 HeadsIndexed(old(client.fates), cfg.confirmations, |old(client.fates)| - 2 * cost,
                              NextBlock(store.Contents(), cfg.startBlock)))
    ensures Idle(old(client.fates), cfg.confirmations) && old(store.checkpoints) == [] && old(store.Reliable()) ==>
              exit.Cancelled? && store.Contents() == old(store.Contents())
    ensures old(store.checkpoints) != [] && |old(client.fates)| > 0 && old(client.fates)[0].Down? ==> exit.Aborted?
  {
    hide *;
    ghost var s := MomentOf(client, store, p);
    MomentFields(client, store, p);
    exit, tip := RunFollower(cfg, feed, client, store, metrics, p);
    MomentFields(client, store, tip);
    SizesArePositive(cfg.minChunkSize, cfg.maxChunkSize);
    ghost var u := Setup(feed, cfg.confirmations, cfg.startBlock, Max(1, cfg.minChunkSize),
                         Max(Max(1, cfg.minChunkSize), cfg.maxChunkSize));
    ghost var t := MomentOf(client, store, tip);
    RunMeansSynced(u, s, t, exit);
    RunMeansExit(u, s, t, exit);
    if Steady(s.fates, cfg.confirmations) && Settled(s.fates, cfg.confirmations, p) &&
       Synced(feed, p, s.db, cfg.startBlock) && AllUp(s.fates) && TotalDecoder(feed) && s.reliable {
      RunMeansCaughtUp(u, s, t, exit);
    }
  }

  lemma NothingKnown(fates: seq<Fate>, confirmations: nat)
    ensures FromNode(fates, confirmations, [], []) && Later(fates, fates) && Settled(fates, confirmations, [])
  {
  }

  /** A tip that is known already or comes from a later answer comes from the node. */
  lemma FromNodeLater(fates: seq<Fate>, coming: seq<Fate>, confirmations: nat, p: seq<Block>, q: seq<Block>,
                      tip: seq<Block>)
    requires FromNode(fates, confirmations, p, q) && FromNode(coming, confirmations, q, tip) && Later(coming, fates)
    ensures FromNode(fates, confirmations, p, tip)
  {
    hide Later, Answered;
    if tip != q {
      AnsweredBefore(coming, fates, confirmations, tip);
    }
  }

  /**
   * A service that starts with an empty store and restarts the follower after every exit. Each run gets
   * what the earlier ones left of the node's fates and its own sequence of statement outcomes, so a run
   * may stop at any request or statement.
   */
  method FollowAcrossRestarts(cfg: Config, feed: Feed, store: LogStore, metrics: Metrics, fates: seq<Fate>,
                              outcomes: seq<seq<bool>>)
    returns (exit: Exit, client: Client, ghost tip: seq<Block>)
    requires Headroom(Max(Max(1, cfg.minChunkSize), cfg.maxChunkSize))
    requires Steady(fates, cfg.confirmations) && store.Contents() == Db(map[], [])
    modifies store, metrics
    ensures FromNode(fates, cfg.confirmations, [], tip) && Later(client.fates, fates)
    ensures Synced(feed, tip, store.Contents(), cfg.startBlock)
    ensures store.rollbacks == old(store.rollbacks)
    ensures exit.Cancelled? ==>
              client.fates == [] &&
              (client.lastHead.Some? && client.lastHead.value > cfg.confirmations ==>
                 NextBlock(store.Contents(), cfg.startBlock) > client.lastHead.value - cfg.confirmations)
    ensures outcomes != [] && AllUp(fates) && TotalDecoder(feed) && (forall o | o in outcomes :: false !in o) ==>
              client.fates == [] && (|outcomes| == 1 && fates != [] ==> client.lastHead.Some?)
    ensures outcomes != [] && AllUp(fates) && TotalDecoder(feed) && false !in outcomes[0] ==>
              var min := Max(1, cfg.minChunkSize);
              var cost := RunCost(feed, fates, cfg.confirmations, cfg.startBlock, min, Max(min, cfg.maxChunkSize));
              Tolerant(fates, min) ==>
                HeadsIndexed(fates, cfg.confirmations, |fates| - 2 * cost,
                             NextBlock(store.Contents(), cfg.startBlock))
  {
    hide Steady, Settled, Synced, Headroom, FromNode, Later, AllUp, TotalDecoder, NextBlock, RunCost, AfterDetection,
         Tolerant, HeadsIndexed, Idle;
    exit, tip := Aborted, [];
    client := new Client(fates);
    EmptyStoreIsSynced(feed, cfg.startBlock);
    NothingToDetect(fates, [], Clean);
    NothingKnown(fates, cfg.confirmations);
    ghost var min := Max(1, cfg.minChunkSize);
    ghost var cost := RunCost(feed, fates, cfg.confirmations, cfg.startBlock, min, Max(min, cfg.maxChunkSize));
    for i := 0 to |outcomes|
      invariant fresh(client)
      invariant Synced(feed, tip, store.Contents(), cfg.startBlock) && store.rollbacks == old(store.rollbacks)
      invariant FromNode(fates, cfg.confirmations, [], tip) && Later(client.fates, fates)
      invariant Steady(client.fates, cfg.confirmations) && Settled(client.fates, cfg.confirmations, tip)
      invariant exit.Cancelled? ==>
                  client.fates == [] &&
                  (client.lastHead.Some? && client.lastHead.value > cfg.confirmations ==>
                     NextBlock(store.Contents(), cfg.startBlock) > client.lastHead.value - cfg.confirmations)
      invariant i > 0 && AllUp(fates) && TotalDecoder(feed) && (forall o | o in outcomes :: false !in o) ==>
                  client.fates == []
      invariant i == 0 ==> client.fates == fates && store.Contents() == Db(map[], []) && tip == []
      invariant i == 1 && AllUp(fates) && TotalDecoder(feed) && false !in outcomes[0] && |fates| > 0 ==>
                  client.lastHead.Some?
      invariant i > 0 && AllUp(fates) && TotalDecoder(feed) && false !in outcomes[0] && Tolerant(fates, min) ==>
                  HeadsIndexed(fates, cfg.confirmations, |fates| - 2 * cost,
                               NextBlock(store.Contents(), cfg.startBlock))
    {
      ghost var known, coming := tip, client.fates;
      client := new Client(client.fates);
      store.verdicts := outcomes[i];
      LaterKeeps(coming, fates, 0, [], 0, 0);
      assert outcomes[i] in outcomes;
      ghost var next := NextBlock(store.Contents(), cfg.startBlock);
      exit, tip := Follow(cfg, feed, client, store, metrics, tip);
      if HeadsIndexed(fates, cfg.confirmations, |fates| - 2 * cost, next) {
        HeadsStayIndexed(fates, cfg.confirmations, |fates| - 2 * cost, next,
                         NextBlock(store.Contents(), cfg.startBlock));
      }
      FromNodeLater(fates, coming, cfg.confirmations, [], known, tip);
      LaterTransitive(fates, coming, client.fates);
    }
  }
}
