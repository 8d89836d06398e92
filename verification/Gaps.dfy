/**
 * Where the checkpoints of a backfill stand after any schedule, internal/extract/backfill.go: one worker's steps
 * are the chunked loop, and a gap needs two workers and two jobs.
 */
module Gaps {
  import opened Prelude
  import opened Chains
  import opened LogTable
  import opened Store
  import opened Chunking
  import opened Extract
  import opened Backfilling
  import Following

  /** A worker that has indexed from the start of its stretch: checkpoints before k, logs before reach. */
  ghost predicate WorkerAt(plan: Plan, before: Db, db: Db, w: Worker, from: nat, k: nat, reach: nat) {
    Indexed(plan.feed, plan.chain, before, db, from, k, reach) &&
    (w.Busy? ==> k == reach == w.current) && (w.Saving? ==> k == w.current && reach == w.end + 1)
  }

  /** The steps of the chunked loop that worker i takes. */
  predicate LoopStep(a: Action, i: nat) {
    a == Refuse(i) || a == Insert(i) || a == Save(i)
  }

  lemma InsertedOneMore(plan: Plan, before: Db, mid: Db, after: Db, from: nat, current: nat, end: nat)
    requires from <= current <= end < |plan.chain| && end < TWO_64
    requires Indexed(plan.feed, plan.chain, before, mid, from, current, current)
    requires after.logs == InsertAll(mid.logs, Records(plan.feed, plan.chain, current, end + 1))
    requires after.checkpoints == mid.checkpoints
    ensures Indexed(plan.feed, plan.chain, before, after, from, current, end + 1)
  {
    hide Records, InsertAll, Indexed;
    IndexedOneMore(plan.feed, plan.chain, before, mid, after, from, Checkpoint(current, end, plan.chain[end].hash));
  }

  lemma SavedOneMore(plan: Plan, before: Db, mid: Db, after: Db, from: nat, cp: Checkpoint)
    requires from <= cp.start <= cp.end < |plan.chain| && cp.hash == plan.chain[cp.end].hash
    requires Indexed(plan.feed, plan.chain, before, mid, from, cp.start, cp.end + 1)
    requires after.logs == mid.logs && after.checkpoints == mid.checkpoints + [cp]
    ensures Indexed(plan.feed, plan.chain, before, after, from, cp.end + 1, cp.end + 1)
  {
    hide Records, InsertAll, EndHashes, Tiles;
    TileOneMore(before.checkpoints, mid.checkpoints, after.checkpoints, cp, from);
    EndHashesOne(cp, plan.chain);
    EndHashesConcat(Added(before.checkpoints, mid.checkpoints), [cp], plan.chain);
  }

  lemma IndexedOrder(plan: Plan, before: Db, db: Db, from: nat, k: nat, reach: nat)
    requires Indexed(plan.feed, plan.chain, before, db, from, k, reach)
    ensures from <= k <= reach
  {
  }

  lemma InsertKeeps(plan: Plan, before: Db, s: State, i: nat, from: nat, k: nat, reach: nat)
    requires plan.Valid() && i < |s.workers| && WorkerOk(plan, s.next, s.workers[i]) && s.next <= plan.end + 1
    requires WorkerAt(plan, before, s.db, s.workers[i], from, k, reach) && Enabled(plan, s, Insert(i))
    ensures var t := Apply(plan, s, Insert(i));
            WorkerAt(plan, before, t.db, t.workers[i], from, k, ChunkEnd(s.workers[i]) + 1) && t.workers[i].Saving?
  {
    hide Indexed, Records, InsertAll, BlockRange, InBounds;
    var w := s.workers[i];
    IndexedOrder(plan, before, s.db, from, k, reach);
    InsertedOneMore(plan, before, s.db, Apply(plan, s, Insert(i)).db, from, w.current, ChunkEnd(w));
  }

  lemma SaveKeeps(plan: Plan, before: Db, s: State, i: nat, from: nat, k: nat, reach: nat)
    requires plan.Valid() && i < |s.workers|
    requires WorkerAt(plan, before, s.db, s.workers[i], from, k, reach) && Enabled(plan, s, Save(i))
    requires s.workers[i].current <= s.workers[i].end
    ensures var t, next := Apply(plan, s, Save(i)), s.workers[i].end + 1;
            WorkerAt(plan, before, t.db, t.workers[i], from, next, next)
  {
    hide Indexed, Grow, InBounds;
    var w := s.workers[i];
    IndexedOrder(plan, before, s.db, from, k, reach);
    SavedOneMore(plan, before, s.db, Apply(plan, s, Save(i)).db, from,
                 Checkpoint(w.current, w.end, plan.chain[w.end].hash));
  }

  /** A step of the loop goes on indexing where the worker stands. */
  lemma LoopStepKeeps(plan: Plan, before: Db, s: State, a: Action, i: nat, from: nat, k: nat, reach: nat)
    returns (k': nat, reach': nat)
    requires plan.Valid() && i < |s.workers| && WorkerOk(plan, s.next, s.workers[i]) && s.next <= plan.end + 1
    requires WorkerAt(plan, before, s.db, s.workers[i], from, k, reach) && Enabled(plan, s, a) && LoopStep(a, i)
    ensures WorkerAt(plan, before, Apply(plan, s, a).db, Apply(plan, s, a).workers[i], from, k', reach')
    ensures Apply(plan, s, a).workers[i].Idle? ==> s.workers[i].Saving? && k' == reach' == s.workers[i].end + 1
  {
    hide Indexed, Records, InsertAll, BlockRange, Grow, Shrink, InBounds;
    k', reach' := k, reach;
    if a.Insert? {
      InsertKeeps(plan, before, s, i, from, k, reach);
      reach' := ChunkEnd(s.workers[i]) + 1;
    } else if a.Save? {
      SaveKeeps(plan, before, s, i, from, k, reach);
      k', reach' := s.workers[i].end + 1, s.workers[i].end + 1;
    }
  }

  lemma {:induction false} RunAppend(plan: Plan, s: State, a: seq<Action>, b: seq<Action>)
    ensures Run(plan, s, a + b) == Run(plan, Run(plan, s, a), b)
  {
    hide Step;
    if b == [] {
      assert a + b == a;
    } else {
      RunAppend(plan, s, a, b[..|b| - 1]);
      assert (a + b)[..|a + b| - 1] == a + b[..|b| - 1];
    }
  }

  /** A worker with a job in a state of a run. */
  predicate Working(plan: Plan, s: State, i: nat) {
    plan.Valid() && s.next <= plan.end + 1 && i < |s.workers| && s.workers[i].Busy? &&
    WorkerOk(plan, s.next, s.workers[i])
  }

  /** A chunk that is refused or inserted. */
  lemma ChunkStays(plan: Plan, s: State, a: Action, i: nat)
    requires plan.Valid() && i < |s.workers| && WorkerOk(plan, s.next, s.workers[i])
    requires Enabled(plan, s, a) && (a == Refuse(i) || a == Insert(i))
    ensures var t := Apply(plan, s, a);
            s.workers[i].Busy? && WorkerOk(plan, s.next, t.workers[i]) && !t.workers[i].Idle? && !t.workers[i].Quit? &&
            t.workers[i].to == s.workers[i].to
  {
    hide Grow, Shrink, Headroom, InsertAll, Records, BlockRange;
    StepsStayInBounds(plan.min, plan.max, s.workers[i].chunk);
  }

  /** A chunk that is saved. */
  lemma SaveStays(plan: Plan, s: State, i: nat)
    requires plan.Valid() && i < |s.workers| && WorkerOk(plan, s.next, s.workers[i]) && Enabled(plan, s, Save(i))
    ensures var w, t := s.workers[i], Apply(plan, s, Save(i));
            w.Saving? && WorkerOk(plan, s.next, t.workers[i]) &&
            (if w.end == w.to then t.workers[i].Idle? else t.workers[i].Busy? && t.workers[i].to == w.to)
  {
    hide Grow, Shrink, Headroom;
    StepsStayInBounds(plan.min, plan.max, s.workers[i].chunk);
  }

  /** A step of the loop stays within the job and leaves everything but the worker and the tables. */
  lemma LoopStepStays(plan: Plan, s: State, a: Action, i: nat)
    requires plan.Valid() && i < |s.workers| && WorkerOk(plan, s.next, s.workers[i])
    requires Enabled(plan, s, a) && LoopStep(a, i)
    ensures s.workers[i].Busy? || s.workers[i].Saving?
    ensures var t := Apply(plan, s, a);
            t.next == s.next && t.workers == s.workers[i := t.workers[i]] && WorkerOk(plan, t.next, t.workers[i]) &&
            !t.workers[i].Quit? && (!t.workers[i].Idle? ==> t.workers[i].to == s.workers[i].to) &&
            (t.workers[i].Idle? ==> s.workers[i].Saving? && s.workers[i].end == s.workers[i].to)
  {
    hide Grow, Shrink, InBounds, InsertAll, Records, BlockRange, WorkerOk, AfterSave, ChunkEnd;
    if a.Save? {
      SaveStays(plan, s, i);
    } else {
      ChunkStays(plan, s, a, i);
    }
  }

  /**
   * A worker's own steps, with nothing in between, are the chunked loop on its job: at any moment a prefix is tiled
   * and stored with at most one chunk of rows more, and when the worker is idle again the job is indexed.
   */
  lemma {:induction false} WorkerAloneIndexes(plan: Plan, s: State, actions: seq<Action>, i: nat)
    returns (k: nat, reach: nat)
    requires Working(plan, s, i) && forall a | a in actions :: LoopStep(a, i)
    ensures var t, job := Run(plan, s, actions), s.workers[i];
            t.next == s.next && i < |t.workers| == |s.workers| && t.workers == s.workers[i := t.workers[i]] &&
            WorkerOk(plan, t.next, t.workers[i]) && !t.workers[i].Quit? &&
            (!t.workers[i].Idle? ==> t.workers[i].to == job.to) &&
            WorkerAt(plan, s.db, t.db, t.workers[i], job.current, k, reach) &&
            (t.workers[i].Idle? ==>
               Indexed(plan.feed, plan.chain, s.db, t.db, job.current, job.to + 1, job.to + 1))
  {
    hide Indexed, Enabled, Apply;
    if actions == [] {
      IndexedNothing(plan.feed, plan.chain, s.db, s.workers[i].current);
      k, reach := s.workers[i].current, s.workers[i].current;
    } else {
      var before, a := actions[..|actions| - 1], actions[|actions| - 1];
      k, reach := WorkerAloneIndexes(plan, s, before, i);
      var m := Run(plan, s, before);
      if Enabled(plan, m, a) {
        k, reach := LoopStepKeeps(plan, s.db, m, a, i, s.workers[i].current, k, reach);
        LoopStepStays(plan, m, a, i);
      }
    }
  }

  /** One chunk inserted and saved: the job is done or continues behind the chunk. */
  lemma ChunkDone(plan: Plan, s: State, i: nat)
    requires Working(plan, s, i)
    ensures var t := Run(plan, s, [Insert(i), Save(i)]);
            |t.workers| == |s.workers| &&
            (t.workers[i].Idle? ||
             (Working(plan, t, i) && t.workers[i].to == s.workers[i].to && s.workers[i].current < t.workers[i].current))
  {
    hide InsertAll, Records, BlockRange, Grow, Headroom;
    var m := Step(plan, s, Insert(i));
    LoopStepStays(plan, s, Insert(i), i);
    LoopStepStays(plan, m, Save(i), i);
    RunsTo(plan, s, [Insert(i), Save(i)], [s, m, Step(plan, m, Save(i))]);
  }

  /** A worker left alone can finish its job. */
  lemma {:induction false} WorkerCanFinish(plan: Plan, s: State, i: nat) returns (actions: seq<Action>)
    requires Working(plan, s, i)
    ensures (forall a | a in actions :: LoopStep(a, i)) && |Run(plan, s, actions).workers| == |s.workers| &&
            Run(plan, s, actions).workers[i].Idle?
    decreases s.workers[i].to - s.workers[i].current
  {
    hide Run;
    actions := [Insert(i), Save(i)];
    ChunkDone(plan, s, i);
    var t := Run(plan, s, actions);
    if !t.workers[i].Idle? {
      var rest := WorkerCanFinish(plan, t, i);
      RunAppend(plan, s, actions, rest);
      actions := actions + rest;
    }
  }

  /** No block that a new checkpoint covers has a block of the range before it that none covers. */
  ghost predicate NoGap(plan: Plan, base: Db, s: State) {
    base.checkpoints <= s.db.checkpoints &&
    var added := s.db.checkpoints[|base.checkpoints|..];
    forall b: nat, c: nat | plan.start <= b <= c && Checkpointed(added, c) > 0 :: Checkpointed(added, b) > 0
  }

  lemma {:induction false} TilesCheckpoint(cps: seq<Checkpoint>, lo: nat, hi: nat, b: nat)
    requires Tiles(cps, lo, hi)
    ensures lo <= hi && (Checkpointed(cps, b) > 0 <==> lo <= b < hi)
  {
    if cps != [] {
      TilesCheckpoint(cps[..|cps| - 1], lo, cps[|cps| - 1].start, b);
    }
  }

  /** New checkpoints that tile from the start have no gap. */
  lemma TilesHaveNoGap(plan: Plan, base: Db, s: State, hi: nat)
    requires base.checkpoints <= s.db.checkpoints
    requires Tiles(s.db.checkpoints[|base.checkpoints|..], plan.start, hi)
    ensures NoGap(plan, base, s)
  {
    hide Tiles, Checkpointed;
    var added := s.db.checkpoints[|base.checkpoints|..];
    forall b: nat
      ensures Checkpointed(added, b) > 0 <==> plan.start <= b < hi
    {
      TilesCheckpoint(added, plan.start, hi, b);
    }
  }

  /** One worker, or one job. */
  predicate Solo(plan: Plan, concurrency: nat) {
    concurrency <= 1 || plan.end < plan.start + plan.size
  }

  /** Only worker i may have a job; it stands at k and reach, and without a job the next one starts there. */
  ghost predicate Front(plan: Plan, base: Db, s: State, i: nat, k: nat, reach: nat) {
    Indexed(plan.feed, plan.chain, base, s.db, plan.start, k, reach) && reach <= s.next &&
    (forall j | 0 <= j < |s.workers| && j != i :: s.workers[j].Idle? || s.workers[j].Quit?) &&
    (if i < |s.workers| && !s.workers[i].Idle? && !s.workers[i].Quit? then
       WorkerAt(plan, base, s.db, s.workers[i], plan.start, k, reach) && s.workers[i].to + 1 == s.next
     else k == reach == s.next || s.next > plan.end || forall w | w in s.workers :: w.Quit?) &&
    (plan.end < plan.start + plan.size ==> s.next == plan.start || s.next == plan.end + 1)
  }

  /** A job is taken only when the one before it is done. */
  lemma TakeKeepsFront(plan: Plan, base: Db, s: State, j: nat, i: nat, k: nat, reach: nat)
    requires Shape(plan, base, s) && Enabled(plan, s, Take(j)) && Front(plan, base, s, i, k, reach)
    requires Solo(plan, |s.workers|)
    ensures Front(plan, base, Apply(plan, s, Take(j)), j, k, reach)
  {
    hide Indexed;
    assert s.workers[j] in s.workers;
    if i < |s.workers| {
      assert s.workers[i] in s.workers;
    }
  }

  /** A step of the loop, a failure, a return or a change of the flags. */
  lemma OthersKeepFront(plan: Plan, base: Db, s: State, a: Action, i: nat, k: nat, reach: nat)
    returns (k': nat, reach': nat)
    requires Shape(plan, base, s) && Enabled(plan, s, a) && !a.Take? && Front(plan, base, s, i, k, reach)
    requires Solo(plan, |s.workers|)
    ensures Front(plan, base, Apply(plan, s, a), i, k', reach')
  {
    hide Indexed, InsertAll, Records, BlockRange, Grow, Shrink, InBounds;
    k', reach' := k, reach;
    if a.Refuse? || a.Insert? || a.Save? {
      assert a.w == i && s.workers[i] in s.workers;
      k', reach' := LoopStepKeeps(plan, base, s, a, i, plan.start, k, reach);
      LoopStepStays(plan, s, a, i);
    } else if a.Fail? {
      assert a.w == i && s.workers[i] in s.workers;
    }
  }

  /** With one worker or one job the new checkpoints and rows are a stretch from the start, at any moment of any run. */
  lemma {:induction false} SoloIsIndexed(plan: Plan, concurrency: nat, base: Db, actions: seq<Action>)
    returns (i: nat, k: nat, reach: nat)
    requires plan.Valid() && Solo(plan, concurrency)
    ensures Front(plan, base, Run(plan, Initial(plan, concurrency, base), actions), i, k, reach)
  {
    var s0 := Initial(plan, concurrency, base);
    if actions == [] {
      i, k, reach := 0, plan.start, plan.start;
      IndexedNothing(plan.feed, plan.chain, base, plan.start);
    } else {
      hide Front, Enabled, Apply, Conserved, Backfilling.Stored;
      var before, a := actions[..|actions| - 1], actions[|actions| - 1];
      i, k, reach := SoloIsIndexed(plan, concurrency, base, before);
      RunInv(plan, concurrency, base, before);
      var s := Run(plan, s0, before);
      if Enabled(plan, s, a) {
        if a.Take? {
          TakeKeepsFront(plan, base, s, a.w, i, k, reach);
          i := a.w;
        } else {
          k, reach := OthersKeepFront(plan, base, s, a, i, k, reach);
        }
      }
    }
  }

  /** Nothing is stored beyond what was handed out. */
  lemma SoloReach(plan: Plan, concurrency: nat, base: Db, actions: seq<Action>, i: nat, k: nat, reach: nat)
    requires plan.Valid() && Solo(plan, concurrency)
    requires Front(plan, base, Run(plan, Initial(plan, concurrency, base), actions), i, k, reach)
    ensures reach <= |plan.chain|
  {
    hide Run;
    RunInv(plan, concurrency, base, actions);
  }

  /** With one worker the follower can go on after any end of the backfill, failures included. */
  lemma SoloIsSynced(plan: Plan, concurrency: nat, actions: seq<Action>)
    requires plan.Valid() && Solo(plan, concurrency) && |plan.chain| < TWO_64
    ensures Following.Synced(plan.feed, plan.chain, Run(plan, Initial(plan, concurrency, Db(map[], [])), actions).db,
                             plan.start)
  {
    hide Indexed, Run, Following.Synced;
    var base := Db(map[], []);
    var i, k, reach := SoloIsIndexed(plan, concurrency, base, actions);
    Following.EmptyStoreIsSynced(plan.feed, plan.start);
    Following.SyncedExtends(plan.feed, [], plan.chain, base, plan.start);
    SoloReach(plan, concurrency, base, actions, i, k, reach);
    Following.SyncedStep(plan.feed, plan.chain, base, Run(plan, Initial(plan, concurrency, base), actions).db,
                         plan.start, k, reach);
  }

  /** Two workers take the first two jobs, and the second one indexes its first chunk. */
  function OvertakingRun(): seq<Action> {
    [Take(0), Take(1), Insert(1), Save(1)]
  }

  lemma TwoJobsTaken(plan: Plan, concurrency: nat, base: Db)
    requires plan.Valid() && !Solo(plan, concurrency)
    ensures var s := Step(plan, Step(plan, Initial(plan, concurrency, base), Take(0)), Take(1));
            var second := plan.start + plan.size;
            |s.workers| == concurrency && s.workers[0] == Busy(plan.size, plan.start, second - 1) &&
            s.workers[1] == Busy(plan.size, second, JobEnd(plan.end, plan.size, second)) &&
            (forall j | 1 < j < concurrency :: s.workers[j].Idle?) && !s.closed && s.db == base && s.inserted == {}
  {
    hide Headroom;
    var s1 := Step(plan, Initial(plan, concurrency, base), Take(0));
    assert s1.next == plan.start + plan.size && s1.workers[1] == Idle(plan.size);
  }

  lemma SecondChunkSaved(plan: Plan, s: State)
    requires plan.Valid() && plan.end >= plan.start + plan.size && |s.workers| > 1
    requires var second := plan.start + plan.size;
             s.workers[1] == Busy(plan.size, second, JobEnd(plan.end, plan.size, second))
    ensures var t := Step(plan, Step(plan, s, Insert(1)), Save(1));
            var second := plan.start + plan.size;
            var last := JobEnd(plan.end, plan.size, second);
            second <= last <= plan.end && t.workers == s.workers[1 := t.workers[1]] && t.workers[1].Idle? &&
            t.closed == s.closed && t.inserted == s.inserted + BlockRange(second, last) &&
            t.db.checkpoints == s.db.checkpoints + [Checkpoint(second, last, plan.chain[last].hash)]
  {
    hide Records, InsertAll, Grow, Headroom, BlockRange;
    var t := Step(plan, s, Insert(1));
    assert t.workers[1].Saving? && t.workers[1].end == JobEnd(plan.end, plan.size, plan.start + plan.size);
  }

  lemma SecondJobFirst(plan: Plan, concurrency: nat, base: Db)
    requires plan.Valid() && !Solo(plan, concurrency)
    ensures var s := Run(plan, Initial(plan, concurrency, base), OvertakingRun());
            var second := plan.start + plan.size;
            var last := JobEnd(plan.end, plan.size, second);
            |s.workers| == concurrency && s.workers[0].Busy? && s.workers[1].Idle? && !s.closed &&
            (forall j | 1 < j < concurrency :: s.workers[j].Idle?) && second <= last <= plan.end &&
            s.db.checkpoints == base.checkpoints + [Checkpoint(second, last, plan.chain[last].hash)] &&
            s.inserted == BlockRange(second, last)
  {
    hide Run, Step;
    var s0 := Initial(plan, concurrency, base);
    var s1 := Step(plan, s0, Take(0));
    var s2 := Step(plan, s1, Take(1));
    var s3 := Step(plan, s2, Insert(1));
    var s4 := Step(plan, s3, Save(1));
    TwoJobsTaken(plan, concurrency, base);
    SecondChunkSaved(plan, s2);
    RunsTo(plan, s0, OvertakingRun(), [s0, s1, s2, s3, s4]);
  }

  /** A checkpoint of the second job without one of the first is a gap. */
  lemma SecondJobFirstIsGap(plan: Plan, base: Db, s: State)
    requires plan.Valid() && plan.end >= plan.start + plan.size
    requires var second := plan.start + plan.size;
             var last := JobEnd(plan.end, plan.size, second);
             second <= last <= plan.end &&
             s.db.checkpoints == base.checkpoints + [Checkpoint(second, last, plan.chain[last].hash)]
    ensures !NoGap(plan, base, s)
  {
    hide Headroom;
    var cp := s.db.checkpoints[|base.checkpoints|];
    var added := s.db.checkpoints[|base.checkpoints|..];
    assert added == [] + [cp];
    CheckpointedOneMore([], cp, plan.start);
    CheckpointedOneMore([], cp, plan.start + plan.size);
  }

  /** The others return. */
  function Leaving(n: nat): seq<Action> {
    if n <= 1 then [] else Leaving(n - 1) + [Leave(n - 1)]
  }

  lemma OneLeaves(plan: Plan, s: State, n: nat)
    requires n < |s.workers| && s.closed && s.workers[n].Idle?
    ensures Step(plan, s, Leave(n)) == s.(workers := s.workers[n := Quit])
  {
  }

  lemma {:induction false} AllLeave(plan: Plan, s: State, n: nat)
    requires n <= |s.workers| && s.closed && forall j | 1 <= j < |s.workers| :: s.workers[j].Idle?
    ensures var t := Run(plan, s, Leaving(n));
            t == s.(workers := t.workers) && |t.workers| == |s.workers| &&
            (|s.workers| > 0 ==> t.workers[0] == s.workers[0]) &&
            (forall j | 1 <= j < n :: t.workers[j].Quit?) &&
            (forall j | 1 <= j && n <= j < |s.workers| :: t.workers[j].Idle?)
  {
    if n > 1 {
      hide Step;
      AllLeave(plan, s, n - 1);
      OneLeaves(plan, Run(plan, s, Leaving(n - 1)), n - 1);
      assert Leaving(n)[..|Leaving(n)| - 1] == Leaving(n - 1);
    }
  }

  /** The same, and then the first worker fails, the producer stops and all return. */
  function GapRun(concurrency: nat): seq<Action> {
    OvertakingRun() + ([Fail(0), Stop] + Leaving(concurrency))
  }

  lemma FirstFails(plan: Plan, s: State)
    requires |s.workers| > 1 && s.workers[0].Busy? && !s.closed
    ensures var t := Run(plan, s, [Fail(0), Stop]);
            t.db == s.db && t.closed && t.failed && t.inserted == s.inserted && t.workers == s.workers[0 := Quit]
  {
    assert [Fail(0), Stop][..1] == [Fail(0)] && [Fail(0)][..0] == [];
    assert Run(plan, s, [Fail(0)]) == Step(plan, s, Fail(0));
  }

  /**
   * With two workers and two jobs a failed backfill can leave a gap: the second job's first chunk has its checkpoint
   * and its rows, the first job has neither, and the newest checkpoint is behind it.
   */
  lemma FailedBackfillMayLeaveGap(plan: Plan, concurrency: nat, base: Db)
    requires plan.Valid() && concurrency > 1 && plan.end >= plan.start + plan.size
    ensures var s := Run(plan, Initial(plan, concurrency, base), GapRun(concurrency));
            var second := plan.start + plan.size;
            var last := JobEnd(plan.end, plan.size, second);
            Returned(s) && s.failed && !NoGap(plan, base, s) && second <= last <= plan.end &&
            s.db.checkpoints == base.checkpoints + [Checkpoint(second, last, plan.chain[last].hash)] &&
            s.inserted == BlockRange(second, last)
  {
    hide Run, Step, NoGap;
    var s0 := Initial(plan, concurrency, base);
    SecondJobFirst(plan, concurrency, base);
    var s := Run(plan, s0, OvertakingRun());
    RunAppend(plan, s0, OvertakingRun(), [Fail(0), Stop] + Leaving(concurrency));
    RunAppend(plan, s, [Fail(0), Stop], Leaving(concurrency));
    FirstFails(plan, s);
    var t := Run(plan, s, [Fail(0), Stop]);
    AllLeave(plan, t, concurrency);
    var u := Run(plan, t, Leaving(concurrency));
    SecondJobFirstIsGap(plan, base, u);
    assert forall j | 0 <= j < |u.workers| :: u.workers[j].Quit?;
  }

  /** From an empty store the follower would go on behind that checkpoint, and the checkpoints tile nothing. */
  lemma NewestIsBehindGap(plan: Plan, concurrency: nat, hi: nat) returns (cp: Checkpoint)
    requires plan.Valid() && concurrency > 1 && plan.end >= plan.start + plan.size
    ensures var s := Run(plan, Initial(plan, concurrency, Db(map[], [])), GapRun(concurrency));
            IsNewest(s.db.checkpoints, cp) && cp.start == plan.start + plan.size &&
            !Tiles(s.db.checkpoints, plan.start, hi)
  {
    hide Run, NoGap, Tiles;
    var base := Db(map[], []);
    FailedBackfillMayLeaveGap(plan, concurrency, base);
    var s := Run(plan, Initial(plan, concurrency, base), GapRun(concurrency));
    assert s.db.checkpoints == [s.db.checkpoints[0]] && s.db.checkpoints[|base.checkpoints|..] == s.db.checkpoints;
    cp := s.db.checkpoints[0];
    if Tiles(s.db.checkpoints, plan.start, hi) {
      TilesHaveNoGap(plan, base, s, hi);
    }
  }

  /** No schedule leaves a gap at any moment if and only if there is one worker or one job. */
  lemma NoGapIff(plan: Plan, concurrency: nat, base: Db)
    requires plan.Valid()
    ensures (forall actions :: NoGap(plan, base, Run(plan, Initial(plan, concurrency, base), actions)))
       <==> concurrency <= 1 || plan.end < plan.start + plan.size
  {
    hide NoGap, Run, Tiles, EndHashes, Records, InsertAll;
    if Solo(plan, concurrency) {
      forall actions
        ensures NoGap(plan, base, Run(plan, Initial(plan, concurrency, base), actions))
      {
        var i, k, reach := SoloIsIndexed(plan, concurrency, base, actions);
        var s := Run(plan, Initial(plan, concurrency, base), actions);
        AddedTiles(plan.feed, plan.chain, base, s.db, plan.start, k, reach);
        TilesHaveNoGap(plan, base, s, k);
      }
    } else {
      FailedBackfillMayLeaveGap(plan, concurrency, base);
    }
  }

  /** The same for the backfills that have returned, whatever they return. */
  lemma ReturnedWithoutGapIff(plan: Plan, concurrency: nat, base: Db)
    requires plan.Valid()
    ensures (forall actions | Returned(Run(plan, Initial(plan, concurrency, base), actions)) ::
               NoGap(plan, base, Run(plan, Initial(plan, concurrency, base), actions)))
       <==> concurrency <= 1 || plan.end < plan.start + plan.size
  {
    hide NoGap, Run, Returned;
    if Solo(plan, concurrency) {
      NoGapIff(plan, concurrency, base);
    } else {
      FailedBackfillMayLeaveGap(plan, concurrency, base);
    }
  }
}
