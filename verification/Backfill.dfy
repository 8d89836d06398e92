/**
 * Parallel backfill, internal/extract/backfill.go. One producer hands consecutive jobs to workers, each
 * of which runs the chunked loop; every store call is one step, and steps of different workers interleave
 * in any order. The chain is fixed.
 */
module Backfilling {
  import opened Prelude
  import opened Chains
  import opened LogTable
  import opened Store
  import opened Chunking
  import opened Rpc

  datatype Plan = Plan(feed: Feed, chain: seq<Block>, start: uint64, end: uint64, size: uint64,
                       min: uint64, max: uint64) {
    predicate Valid() {
      start <= end < |chain| && end + size < TWO_64 && InBounds(min, max, size)
    }
  }

  /** Waiting for a job; about to request the chunk at `current`; its logs stored up to `end`; returned. */
  datatype Worker =
    | Idle(chunk: uint64)
    | Busy(chunk: uint64, current: nat, to: nat)
    | Saving(chunk: uint64, current: nat, end: nat, to: nat)
    | Quit

  /**
   * `next` is the producer's next block and `closed` says that it closed the job channel. `failed` says
   * that an error was sent, `cancelled` that the workers' context is cancelled, `interrupted` that the
   * caller's was. `inserted` records the blocks whose logs were stored.
   */
  datatype State = State(next: nat, closed: bool, workers: seq<Worker>, db: Db, failed: bool, cancelled: bool,
                         interrupted: bool, inserted: set<nat>)

  datatype Action = Take(w: nat) | Refuse(w: nat) | Insert(w: nat) | Save(w: nat) | Fail(w: nat) | Leave(w: nat)
                  | Stop | Interrupt

  /** Last block of the job that starts at `cur`. */
  function JobEnd(end: nat, size: nat, cur: nat): int {
    Min(end, cur + size - 1)
  }

  function ChunkEnd(w: Worker): int
    requires w.Busy?
  {
    w.current + Min(w.chunk, w.to - w.current + 1) - 1
  }

  predicate Enabled(plan: Plan, s: State, a: Action) {
    match a
    case Take(w) => w < |s.workers| && s.workers[w].Idle? && !s.closed && s.next <= plan.end &&
                    s.next <= JobEnd(plan.end, plan.size, s.next)
    case Refuse(w) => w < |s.workers| && s.workers[w].Busy?
    case Insert(w) => w < |s.workers| && s.workers[w].Busy? && s.workers[w].current <= ChunkEnd(s.workers[w])
    case Save(w) => w < |s.workers| && s.workers[w].Saving? && s.workers[w].end < |plan.chain| &&
                    s.workers[w].current < TWO_64 && s.workers[w].end < TWO_64
    case Fail(w) => w < |s.workers| && (s.workers[w].Busy? || s.workers[w].Saving?)
    case Leave(w) => w < |s.workers| && s.workers[w].Idle? && s.closed
    case Stop => !s.closed && (s.cancelled || s.next > plan.end)
    case Interrupt => true
  }

  /** What is left to do after a chunk up to e is saved. */
  function AfterSave(plan: Plan, w: Worker): Worker
    requires w.Saving?
  {
    var chunk := Grow(plan.max, w.chunk);
    if w.end >= w.to then Idle(chunk) else Busy(chunk, w.end + 1, w.to)
  }

  function BlockRange(lo: nat, hi: int): (r: set<nat>)
    ensures forall b: nat :: b in r <==> lo <= b <= hi
    decreases hi
  {
    if hi < lo then {} else BlockRange(lo, hi - 1) + {hi as nat}
  }

  function Apply(plan: Plan, s: State, a: Action): State
    requires Enabled(plan, s, a)
  {
    match a
    case Take(w) =>
      var e := JobEnd(plan.end, plan.size, s.next);
      s.(next := e + 1, workers := s.workers[w := Busy(s.workers[w].chunk, s.next, e)])
    case Refuse(w) =>
      var b := s.workers[w];
      s.(workers := s.workers[w := Busy(Shrink(plan.min, b.chunk), b.current, b.to)])
    case Insert(w) =>
      var b := s.workers[w];
      var e := ChunkEnd(b);
      s.(workers := s.workers[w := Saving(b.chunk, b.current, e, b.to)],
         db := s.db.(logs := InsertAll(s.db.logs, Records(plan.feed, plan.chain, b.current, e + 1))),
         inserted := s.inserted + BlockRange(b.current, e))
    case Save(w) =>
      var b := s.workers[w];
      var cp := Checkpoint(b.current, b.end, plan.chain[b.end].hash);
      s.(workers := s.workers[w := AfterSave(plan, b)],
         db := s.db.(checkpoints := s.db.checkpoints + [cp]))
    case Fail(w) =>
      s.(workers := s.workers[w := Quit], failed := true, cancelled := true)
    case Leave(w) => s.(workers := s.workers[w := Quit])
    case Stop => s.(closed := true)
    case Interrupt => s.(interrupted := true, cancelled := true)
  }

  /** A step that is not possible changes nothing. */
  function Step(plan: Plan, s: State, a: Action): State {
    if Enabled(plan, s, a) then Apply(plan, s, a) else s
  }

  function Run(plan: Plan, s: State, actions: seq<Action>): State {
    if actions == [] then s
    else Step(plan, Run(plan, s, actions[..|actions| - 1]), actions[|actions| - 1])
  }

  function Initial(plan: Plan, concurrency: nat, db: Db): State {
    State(plan.start, false, seq(concurrency, _ => Idle(plan.size)), db, false, false, false, {})
  }

  /** Every worker has returned, which is what the caller waits for. */
  predicate Returned(s: State) {
    forall w | w in s.workers :: w.Quit?
  }

  /** How many checkpoints cover block b. */
  function Checkpointed(cps: seq<Checkpoint>, b: nat): nat {
    if cps == [] then 0
    else Checkpointed(cps[..|cps| - 1], b) + (if Covers(cps[|cps| - 1], b) then 1 else 0)
  }

  /** Whether the worker still has to checkpoint block b. */
  predicate Owes(w: Worker, b: nat) {
    (w.Busy? || w.Saving?) && w.current <= b <= w.to
  }

  function Owed(ws: seq<Worker>, b: nat): nat {
    if ws == [] then 0
    else Owed(ws[..|ws| - 1], b) + (if Owes(ws[|ws| - 1], b) then 1 else 0)
  }

  lemma {:induction false} OwedUpdate(ws: seq<Worker>, i: nat, w: Worker, b: nat)
    requires i < |ws|
    ensures Owed(ws[i := w], b) + (if Owes(ws[i], b) then 1 else 0) == Owed(ws, b) + (if Owes(w, b) then 1 else 0)
  {
    var n := |ws| - 1;
    if i < n {
      OwedUpdate(ws[..n], i, w, b);
      assert ws[i := w][..n] == ws[..n][i := w];
    } else {
      assert ws[i := w][..n] == ws[..n];
    }
  }

  lemma {:induction false} NothingOwed(ws: seq<Worker>, b: nat)
    requires forall w | w in ws :: !Owes(w, b)
    ensures Owed(ws, b) == 0
  {
    if ws != [] {
      NothingOwed(ws[..|ws| - 1], b);
    }
  }

  lemma {:induction false} OwedOnce(ws: seq<Worker>, i: nat, b: nat)
    requires i < |ws| && Owes(ws[i], b)
    ensures Owed(ws, b) >= 1
  {
    if i < |ws| - 1 {
      OwedOnce(ws[..|ws| - 1], i, b);
    }
  }

  /** The number of times block b is checkpointed or still owed. */
  function Share(base: Db, s: State, b: nat): nat
    requires |base.checkpoints| <= |s.db.checkpoints|
  {
    Checkpointed(s.db.checkpoints[|base.checkpoints|..], b) + Owed(s.workers, b)
  }

  predicate WorkerOk(plan: Plan, next: nat, w: Worker) {
    match w
    case Quit => true
    case Idle(chunk) => InBounds(plan.min, plan.max, chunk)
    case Busy(chunk, current, to) => InBounds(plan.min, plan.max, chunk) && plan.start <= current <= to < next
    case Saving(chunk, current, end, to) =>
      InBounds(plan.min, plan.max, chunk) && plan.start <= current <= end <= to < next
  }

  /** Bookkeeping: the producer's position, the workers' ranges, and who cancelled what. */
  ghost predicate Shape(plan: Plan, base: Db, s: State) {
    plan.Valid() && plan.start <= s.next <= plan.end + 1 &&
    (forall w | w in s.workers :: WorkerOk(plan, s.next, w)) &&
    base.checkpoints <= s.db.checkpoints &&
    (s.closed ==> s.cancelled || s.next > plan.end) &&
    (s.cancelled ==> s.failed || s.interrupted)
  }

  /** Conservation: every block handed out is checkpointed once or owed once, unless a worker failed. */
  ghost predicate Conserved(plan: Plan, base: Db, s: State)
    requires |base.checkpoints| <= |s.db.checkpoints|
  {
    forall b: nat ::
      if plan.start <= b < s.next then (if s.failed then Share(base, s, b) <= 1 else Share(base, s, b) == 1)
      else Share(base, s, b) == 0
  }

  lemma TakeHandsOut(plan: Plan, base: Db, s: State, i: nat, b: nat)
    requires Shape(plan, base, s) && Enabled(plan, s, Take(i))
    ensures var t := Apply(plan, s, Take(i));
            Share(base, t, b) == Share(base, s, b) + (if s.next <= b < t.next then 1 else 0)
  {
    OwedUpdate(s.workers, i, Busy(s.workers[i].chunk, s.next, JobEnd(plan.end, plan.size, s.next)), b);
  }

  lemma CheckpointedOneMore(cps: seq<Checkpoint>, cp: Checkpoint, b: nat)
    ensures Checkpointed(cps + [cp], b) == Checkpointed(cps, b) + (if Covers(cp, b) then 1 else 0)
  {
    assert (cps + [cp])[..|cps|] == cps;
  }

  lemma SaveMovesShare(plan: Plan, base: Db, s: State, i: nat, b: nat)
    requires Shape(plan, base, s) && Enabled(plan, s, Save(i))
    ensures Share(base, Apply(plan, s, Save(i)), b) == Share(base, s, b)
  {
    hide Checkpointed, Owed, Grow, InBounds;
    var w := s.workers[i];
    assert w in s.workers;
    OwedUpdate(s.workers, i, AfterSave(plan, w), b);
    var cp := Checkpoint(w.current, w.end, plan.chain[w.end].hash);
    CheckpointedOneMore(s.db.checkpoints[|base.checkpoints|..], cp, b);
    assert (s.db.checkpoints + [cp])[|base.checkpoints|..] == s.db.checkpoints[|base.checkpoints|..] + [cp];
  }

  lemma OthersKeepShare(plan: Plan, base: Db, s: State, a: Action, b: nat)
    requires Shape(plan, base, s) && Enabled(plan, s, a)
    requires a.Refuse? || a.Insert? || a.Leave? || a.Fail?
    ensures Share(base, Apply(plan, s, a), b) <= Share(base, s, b)
    ensures !a.Fail? ==> Share(base, Apply(plan, s, a), b) == Share(base, s, b)
  {
    OwedUpdate(s.workers, a.w, Apply(plan, s, a).workers[a.w], b);
  }

  /** The worker that moves stays within its job and its chunk in bounds. */
  lemma MovedWorkerOk(plan: Plan, base: Db, s: State, a: Action)
    requires Shape(plan, base, s) && Enabled(plan, s, a) && !a.Stop? && !a.Interrupt?
    ensures WorkerOk(plan, Apply(plan, s, a).next, Apply(plan, s, a).workers[a.w])
  {
    hide Grow, Shrink, Headroom, InsertAll, Records, BlockRange;
    var w := s.workers[a.w];
    assert w in s.workers;
    if w.Busy? || w.Saving? {
      StepsStayInBounds(plan.min, plan.max, w.chunk);
    }
  }

  /**
   * A worker takes the next job, of the plan's size or up to the end. Its steps then are those of the chunked loop: a
   * chunk of the current size or up to the job's end can be refused, which halves the size down to the minimum, or
   * stored, and then saved, which adds a tenth up to the maximum and goes on behind the chunk.
   */
  lemma WorkerSteps(plan: Plan, base: Db, s: State, i: nat)
    requires Shape(plan, base, s) && i < |s.workers|
    ensures s.workers[i].Idle? && !s.closed && s.next <= plan.end ==>
              var end := Min(s.next + plan.size - 1, plan.end);
              Enabled(plan, s, Take(i)) && Apply(plan, s, Take(i)).next == end + 1 &&
              Apply(plan, s, Take(i)).workers[i] == Busy(s.workers[i].chunk, s.next, end)
    ensures s.workers[i].Busy? ==>
              var w := s.workers[i];
              var end := Min(w.current + w.chunk - 1, w.to);
              Enabled(plan, s, Refuse(i)) && Enabled(plan, s, Insert(i)) &&
              Apply(plan, s, Refuse(i)).workers[i] == Busy(Max(plan.min, w.chunk / 2), w.current, w.to) &&
              Apply(plan, s, Insert(i)).workers[i] == Saving(w.chunk, w.current, end, w.to) &&
              Apply(plan, s, Insert(i)).db.logs
                == InsertAll(s.db.logs, Records(plan.feed, plan.chain, w.current, end + 1))
    ensures s.workers[i].Saving? ==>
              var w := s.workers[i];
              var chunk := Min(plan.max, w.chunk + w.chunk / 10 + 1);
              Enabled(plan, s, Save(i)) &&
              Apply(plan, s, Save(i)).workers[i] ==
                if w.end == w.to then Idle(chunk) else Busy(chunk, w.end + 1, w.to)
  {
    hide Grow, Shrink, InsertAll, Records, BlockRange;
    assert s.workers[i] in s.workers;
    if s.workers[i].Busy? || s.workers[i].Saving? {
      StepsStayInBounds(plan.min, plan.max, s.workers[i].chunk);
    }
  }

  lemma ShapeKept(plan: Plan, base: Db, s: State, a: Action)
    requires Shape(plan, base, s) && Enabled(plan, s, a)
    ensures Shape(plan, base, Apply(plan, s, a))
  {
    hide Grow, Shrink, InBounds, InsertAll, Records, BlockRange, AfterSave;
    var t := Apply(plan, s, a);
    if !a.Stop? && !a.Interrupt? {
      MovedWorkerOk(plan, base, s, a);
      forall v | v in t.workers
        ensures WorkerOk(plan, t.next, v)
      {
        assert v == t.workers[a.w] || v in s.workers;
      }
    }
  }

  lemma ConservedKept(plan: Plan, base: Db, s: State, a: Action)
    requires Shape(plan, base, s) && Conserved(plan, base, s) && Enabled(plan, s, a)
    ensures Shape(plan, base, Apply(plan, s, a)) && Conserved(plan, base, Apply(plan, s, a))
  {
    hide Checkpointed, Owed, InsertAll, Records;
    ShapeKept(plan, base, s, a);
    var t := Apply(plan, s, a);
    forall b: nat
      ensures if plan.start <= b < t.next then (if t.failed then Share(base, t, b) <= 1 else Share(base, t, b) == 1)
              else Share(base, t, b) == 0
    {
      match a
      case Take(w) => TakeHandsOut(plan, base, s, w, b);
      case Save(w) => SaveMovesShare(plan, base, s, w, b);
      case Stop | Interrupt =>
      case _ => OthersKeepShare(plan, base, s, a, b);
    }
  }

  /** The rows to store, those of blocks start to end. */
  function Wanted(plan: Plan): seq<LogRecord> {
    Records(plan.feed, plan.chain, plan.start, plan.end + 1)
  }

  /**
   * The table is the old one plus the wanted rows of the inserted blocks: old rows stay, a new row is a
   * wanted row of an inserted block, and no wanted row of an inserted block is missing.
   */
  ghost predicate HoldsInserted(plan: Plan, base: Table, m: Table, inserted: set<nat>) {
    Submap(base, m) &&
    (forall k | k in m && k !in base :: m[k] in Wanted(plan) && m[k].key == k && m[k].blockNumber in inserted) &&
    (forall r | r in Wanted(plan) && r.blockNumber in inserted :: r.key in m)
  }

  /** The wanted rows of a stretch of blocks are the rows of that stretch. */
  lemma WantedOfStretch(plan: Plan, lo: nat, hi: nat, r: LogRecord)
    requires plan.start <= lo <= hi <= plan.end + 1
    ensures r in Records(plan.feed, plan.chain, lo, hi) <==> r in Wanted(plan) && lo <= r.blockNumber < hi
  {
    RecordsSplit(plan.feed, plan.chain, plan.start, lo, plan.end + 1);
    RecordsSplit(plan.feed, plan.chain, lo, hi, plan.end + 1);
    RecordsInRange(plan.feed, plan.chain, plan.start, lo);
    RecordsInRange(plan.feed, plan.chain, lo, hi);
    RecordsInRange(plan.feed, plan.chain, hi, plan.end + 1);
  }

  lemma InsertedOrOld(m: Table, rs: seq<LogRecord>, k: RowKey)
    requires k in InsertAll(m, rs)
    ensures if k in m then InsertAll(m, rs)[k] == m[k] else InsertAll(m, rs)[k] in rs && InsertAll(m, rs)[k].key == k
  {
    hide InsertAll;
    InsertAllMeaning(m, rs);
  }

  lemma InsertedIsWanted(plan: Plan, base: Table, m: Table, inserted: set<nat>, lo: nat, hi: nat, k: RowKey)
    requires HoldsInserted(plan, base, m, inserted) && plan.start <= lo <= hi <= plan.end
    requires k in InsertAll(m, Records(plan.feed, plan.chain, lo, hi + 1)) && k !in base
    ensures var n := InsertAll(m, Records(plan.feed, plan.chain, lo, hi + 1));
            n[k] in Wanted(plan) && n[k].key == k && n[k].blockNumber in inserted + BlockRange(lo, hi)
  {
    hide Records, InsertAll, Wanted, Submap;
    var rs := Records(plan.feed, plan.chain, lo, hi + 1);
    InsertedOrOld(m, rs, k);
    WantedOfStretch(plan, lo, hi + 1, InsertAll(m, rs)[k]);
  }

  lemma WantedIsInserted(plan: Plan, base: Table, m: Table, inserted: set<nat>, lo: nat, hi: nat, r: LogRecord)
    requires HoldsInserted(plan, base, m, inserted) && plan.start <= lo <= hi <= plan.end
    requires r in Wanted(plan) && r.blockNumber in inserted + BlockRange(lo, hi)
    ensures r.key in InsertAll(m, Records(plan.feed, plan.chain, lo, hi + 1))
  {
    hide Records, InsertAll, Wanted;
    InsertAllMeaning(m, Records(plan.feed, plan.chain, lo, hi + 1));
    WantedOfStretch(plan, lo, hi + 1, r);
  }

  lemma InsertHolds(plan: Plan, base: Table, m: Table, inserted: set<nat>, lo: nat, hi: nat)
    requires HoldsInserted(plan, base, m, inserted) && plan.start <= lo <= hi <= plan.end
    ensures HoldsInserted(plan, base, InsertAll(m, Records(plan.feed, plan.chain, lo, hi + 1)),
                          inserted + BlockRange(lo, hi))
  {
    hide Records, InsertAll, Wanted, BlockRange;
    var n := InsertAll(m, Records(plan.feed, plan.chain, lo, hi + 1));
    InsertAllMeaning(m, Records(plan.feed, plan.chain, lo, hi + 1));
    forall k | k in n && k !in base
      ensures n[k] in Wanted(plan) && n[k].key == k && n[k].blockNumber in inserted + BlockRange(lo, hi)
    {
      InsertedIsWanted(plan, base, m, inserted, lo, hi, k);
    }
    forall r | r in Wanted(plan) && r.blockNumber in inserted + BlockRange(lo, hi)
      ensures r.key in n
    {
      WantedIsInserted(plan, base, m, inserted, lo, hi, r);
    }
  }

  /** When every block was inserted, in whatever order, the table is the one a single pass makes. */
  lemma AllInsertedIsOnePass(plan: Plan, base: Table, m: Table, inserted: set<nat>)
    requires HoldsInserted(plan, base, m, inserted) && BlockRange(plan.start, plan.end) <= inserted
    requires UniqueKeys(Wanted(plan))
    ensures m == InsertAll(base, Wanted(plan))
  {
    hide Records, InsertAll;
    var n := InsertAll(base, Wanted(plan));
    InsertAllMeaning(base, Wanted(plan));
    RecordsInRange(plan.feed, plan.chain, plan.start, plan.end + 1);
    hide Wanted;
    assert forall r | r in Wanted(plan) :: r.blockNumber in inserted;
    assert m.Keys == n.Keys;
  }

  /** Whatever is checkpointed or about to be was inserted, and inserted blocks were handed out. */
  ghost predicate Stored(plan: Plan, base: Db, s: State)
    requires |base.checkpoints| <= |s.db.checkpoints|
  {
    HoldsInserted(plan, base.logs, s.db.logs, s.inserted) &&
    (forall b: nat | Checkpointed(s.db.checkpoints[|base.checkpoints|..], b) > 0 :: b in s.inserted) &&
    (forall w | w in s.workers && w.Saving? :: BlockRange(w.current, w.end) <= s.inserted)
  }

  /** What is checkpointed stays inserted: a new checkpoint is of a chunk whose logs were stored. */
  lemma CheckpointedStaysInserted(plan: Plan, base: Db, s: State, a: Action, b: nat)
    requires Shape(plan, base, s) && Stored(plan, base, s) && Enabled(plan, s, a)
    requires |base.checkpoints| <= |Apply(plan, s, a).db.checkpoints|
    requires Checkpointed(Apply(plan, s, a).db.checkpoints[|base.checkpoints|..], b) > 0
    ensures b in Apply(plan, s, a).inserted
  {
    hide InsertAll, Records, Wanted, HoldsInserted, Checkpointed, Grow, Shrink, InBounds;
    if a.Save? {
      var w := s.workers[a.w];
      assert w in s.workers;
      var cp := Checkpoint(w.current, w.end, plan.chain[w.end].hash);
      CheckpointedOneMore(s.db.checkpoints[|base.checkpoints|..], cp, b);
      assert (s.db.checkpoints + [cp])[|base.checkpoints|..] == s.db.checkpoints[|base.checkpoints|..] + [cp];
    }
  }

  /** A worker that is about to save has inserted its chunk. */
  lemma SavingStaysInserted(plan: Plan, base: Db, s: State, a: Action, w: Worker)
    requires Shape(plan, base, s) && Stored(plan, base, s) && Enabled(plan, s, a)
    requires w in Apply(plan, s, a).workers && w.Saving?
    ensures BlockRange(w.current, w.end) <= Apply(plan, s, a).inserted
  {
    hide InsertAll, Records, Wanted, HoldsInserted, Checkpointed, Grow, Shrink, InBounds, Shape;
    if !a.Stop? && !a.Interrupt? {
      assert w == Apply(plan, s, a).workers[a.w] || w in s.workers;
    }
  }

  lemma StoredKept(plan: Plan, base: Db, s: State, a: Action)
    requires Shape(plan, base, s) && Stored(plan, base, s) && Enabled(plan, s, a)
    requires |base.checkpoints| <= |Apply(plan, s, a).db.checkpoints|
    ensures Stored(plan, base, Apply(plan, s, a))
  {
    hide InsertAll, Records, Wanted, HoldsInserted, Checkpointed, Grow, Shrink, InBounds, BlockRange;
    var t := Apply(plan, s, a);
    forall b: nat | Checkpointed(t.db.checkpoints[|base.checkpoints|..], b) > 0
      ensures b in t.inserted
    {
      CheckpointedStaysInserted(plan, base, s, a, b);
    }
    forall w | w in t.workers && w.Saving?
      ensures BlockRange(w.current, w.end) <= t.inserted
    {
      SavingStaysInserted(plan, base, s, a, w);
    }
    if a.Insert? {
      var w := s.workers[a.w];
      assert w in s.workers;
      InsertHolds(plan, base.logs, s.db.logs, s.inserted, w.current, ChunkEnd(w));
    }
  }

  /** The invariant of every run. */
  ghost predicate Inv(plan: Plan, base: Db, s: State) {
    Shape(plan, base, s) && Conserved(plan, base, s) && Stored(plan, base, s)
  }

  lemma InitialInv(plan: Plan, concurrency: nat, base: Db)
    requires plan.Valid()
    ensures Inv(plan, base, Initial(plan, concurrency, base))
  {
    var s := Initial(plan, concurrency, base);
    assert s.db.checkpoints[|base.checkpoints|..] == [];
    forall b: nat
      ensures Owed(s.workers, b) == 0
    {
      NothingOwed(s.workers, b);
    }
  }

  lemma InvKept(plan: Plan, base: Db, s: State, a: Action)
    requires Inv(plan, base, s) && Enabled(plan, s, a)
    ensures Inv(plan, base, Apply(plan, s, a)) && |Apply(plan, s, a).workers| == |s.workers|
  {
    hide Conserved, Stored;
    ConservedKept(plan, base, s, a);
    assert base.checkpoints <= s.db.checkpoints <= Apply(plan, s, a).db.checkpoints;
    StoredKept(plan, base, s, a);
  }

  lemma {:induction false} RunInv(plan: Plan, concurrency: nat, base: Db, actions: seq<Action>)
    requires plan.Valid()
    ensures Inv(plan, base, Run(plan, Initial(plan, concurrency, base), actions))
    ensures |Run(plan, Initial(plan, concurrency, base), actions).workers| == concurrency
  {
    if actions == [] {
      InitialInv(plan, concurrency, base);
    } else {
      hide Shape, Conserved, Stored;
      var before, a := actions[..|actions| - 1], actions[|actions| - 1];
      RunInv(plan, concurrency, base, before);
      var s := Run(plan, Initial(plan, concurrency, base), before);
      if Enabled(plan, s, a) {
        InvKept(plan, base, s, a);
      }
    }
  }

  /** Each block of the range is covered by exactly one new checkpoint, and the table is that of one pass. */
  ghost predicate Complete(plan: Plan, base: Db, db: Db)
    requires |base.checkpoints| <= |db.checkpoints|
  {
    (forall b: nat ::
       Checkpointed(db.checkpoints[|base.checkpoints|..], b) == if plan.start <= b <= plan.end then 1 else 0) &&
    db.logs == InsertAll(base.logs, Wanted(plan))
  }

  /**
   * Whatever the schedule, when all workers have returned and no error was sent, the backfill is complete
   * if and only if the producer had reached the end.
   */
  lemma BackfillCompleteIff(plan: Plan, concurrency: nat, base: Db, actions: seq<Action>)
    requires plan.Valid() && UniqueKeys(Wanted(plan))
    requires var s := Run(plan, Initial(plan, concurrency, base), actions); Returned(s) && !s.failed
    ensures var s := Run(plan, Initial(plan, concurrency, base), actions);
            base.checkpoints <= s.db.checkpoints && (Complete(plan, base, s.db) <==> s.next == plan.end + 1)
  {
    hide Wanted, InsertAll, Enabled, Step, HoldsInserted, UniqueKeys;
    RunInv(plan, concurrency, base, actions);
    var s := Run(plan, Initial(plan, concurrency, base), actions);
    forall b: nat
      ensures Checkpointed(s.db.checkpoints[|base.checkpoints|..], b) == Share(base, s, b)
    {
      NothingOwed(s.workers, b);
    }
    if s.next == plan.end + 1 {
      forall b | b in BlockRange(plan.start, plan.end)
        ensures b in s.inserted
      {
        assert Share(base, s, b) == 1;
      }
      AllInsertedIsOnePass(plan, base.logs, s.db.logs, s.inserted);
    } else {
      assert Share(base, s, s.next) == 0;
    }
  }

  /** A worker returns only after an error or after the job channel was closed. */
  ghost predicate NobodyLeftEarly(s: State) {
    s.failed || s.closed || forall w | w in s.workers :: !w.Quit?
  }

  lemma StepLeavesLate(plan: Plan, s: State, a: Action)
    requires NobodyLeftEarly(s) && Enabled(plan, s, a)
    ensures NobodyLeftEarly(Apply(plan, s, a))
  {
    hide Records, InsertAll, Shrink, Grow;
    var t := Apply(plan, s, a);
    if !a.Stop? && !a.Interrupt? {
      assert forall v | v in t.workers :: v == t.workers[a.w] || v in s.workers;
    }
  }

  lemma {:induction false} LeftMeansClosed(plan: Plan, concurrency: nat, base: Db, actions: seq<Action>)
    ensures NobodyLeftEarly(Run(plan, Initial(plan, concurrency, base), actions))
  {
    if actions != [] {
      hide Enabled, NobodyLeftEarly;
      var before := actions[..|actions| - 1];
      LeftMeansClosed(plan, concurrency, base, before);
      var s := Run(plan, Initial(plan, concurrency, base), before);
      if Enabled(plan, s, actions[|actions| - 1]) {
        StepLeavesLate(plan, s, actions[|actions| - 1]);
      }
    }
  }

  /** With at least one worker and a caller that never cancels, a nil result means a complete backfill. */
  lemma NilMeansComplete(plan: Plan, concurrency: nat, base: Db, actions: seq<Action>)
    requires plan.Valid() && UniqueKeys(Wanted(plan)) && concurrency >= 1
    requires var s := Run(plan, Initial(plan, concurrency, base), actions); Returned(s) && !s.failed && !s.interrupted
    ensures var s := Run(plan, Initial(plan, concurrency, base), actions);
            base.checkpoints <= s.db.checkpoints && Complete(plan, base, s.db)
  {
    BackfillCompleteIff(plan, concurrency, base, actions);
    RunInv(plan, concurrency, base, actions);
    LeftMeansClosed(plan, concurrency, base, actions);
    var s := Run(plan, Initial(plan, concurrency, base), actions);
    assert s.workers[0] in s.workers;
    assert s.closed && s.next == plan.end + 1;
  }

  /** A run that visits the given states ends in the last of them. */
  lemma {:induction false} RunsTo(plan: Plan, s: State, actions: seq<Action>, states: seq<State>)
    requires |states| == |actions| + 1 && states[0] == s
    requires forall i | 0 <= i < |actions| :: states[i + 1] == Step(plan, states[i], actions[i])
    ensures Run(plan, s, actions) == states[|actions|]
  {
    if actions != [] {
      hide Step;
      RunsTo(plan, s, actions[..|actions| - 1], states[..|actions|]);
    }
  }

  /** A cancelled caller can get nil although nothing was indexed. */
  lemma CancelledBackfillMayReturnNil(plan: Plan, base: Db)
    requires plan.Valid()
    ensures var s := Run(plan, Initial(plan, 1, base), [Interrupt, Stop, Leave(0)]);
            Returned(s) && !s.failed && s.db == base && s.next == plan.start
  {
    var s0 := Initial(plan, 1, base);
    var s1 := Step(plan, s0, Interrupt);
    var s2 := Step(plan, s1, Stop);
    var s3 := Step(plan, s2, Leave(0));
    RunsTo(plan, s0, [Interrupt, Stop, Leave(0)], [s0, s1, s2, s3]);
  }

  datatype Range = Range(from: uint64, to: uint64)

  /** The jobs follow each other from lo to hi - 1 without gap or overlap. */
  ghost predicate Consecutive(jobs: seq<Range>, lo: nat, hi: nat) {
    if jobs == [] then lo == hi
    else
      var last := jobs[|jobs| - 1];
      lo <= last.from <= last.to && hi == last.to + 1 && Consecutive(jobs[..|jobs| - 1], lo, last.from)
  }

  /** What the producer sends when nothing cancels it. */
  method ProduceJobs(start: uint64, end: uint64, chunkSize: uint64) returns (jobs: seq<Range>)
    requires chunkSize >= 1 && end + chunkSize < TWO_64
    ensures Consecutive(jobs, start, Max(start, end + 1))
    ensures forall j | j in jobs :: j.to == Min(end, j.from + chunkSize - 1)
  {
    hide Wrap;
    jobs := [];
    var cur: uint64 := start;
    while cur <= end
      invariant start <= cur <= Max(start, end + 1) && Consecutive(jobs, start, cur)
      invariant forall j | j in jobs :: j.to == JobEnd(end, chunkSize, j.from)
      decreases end + 1 - cur
    {
      NoWrap(cur + chunkSize);
      NoWrap(cur + chunkSize - 1);
      var rEnd := Wrap(Wrap(cur + chunkSize) - 1);
      if rEnd > end {
        rEnd := end;
      }
      ghost var before := jobs;
      jobs := jobs + [Range(cur, rEnd)];
      assert jobs[..|jobs| - 1] == before;
      NoWrap(rEnd + 1);
      cur := Wrap(rEnd + 1);
    }
  }

  datatype BackfillRange = HeadFailed | HeadTooLow | NothingToDo | Blocks(range: Range)

  /** The blocks to backfill: overrides win, otherwise the start block and head minus confirmations. */
  method ResolveRange(startBlock: uint64, confirmations: uint64, client: Client, from: Option<uint64>,
                      to: Option<uint64>)
    returns (r: BackfillRange)
    modifies client`fates, client`lastHead
    ensures to.Some? ==> client.fates == old(client.fates) && !r.HeadFailed? && !r.HeadTooLow?
    ensures to.None? ==>
              var head := if old(client.fates) == [] then None else HeadAt(old(client.fates)[0]);
              client.fates == Rest(old(client.fates)) && (r.HeadFailed? <==> head.None?) &&
              (r.HeadTooLow? <==> head.Some? && head.value <= confirmations) &&
              (r.NothingToDo? <==>
                 head.Some? && 0 < head.value - confirmations < (if from.Some? then from.value else startBlock)) &&
              (r.Blocks? ==> r.range.to == head.value - confirmations)
    ensures r.Blocks? ==> r.range.from <= r.range.to && r.range.from == (if from.Some? then from.value else startBlock)
    ensures r.Blocks? && to.Some? ==> r.range.to == to.value
    ensures r.Blocks? && to.None? ==> client.lastHead == Some(r.range.to + confirmations) && r.range.to > 0
    ensures to.Some? ==> (r.NothingToDo? <==> to.value < (if from.Some? then from.value else startBlock))
  {
    var start := if from.Some? then from.value else startBlock;
    var end: uint64 := 0;
    if to.Some? {
      end := to.value;
    } else {
      var head := client.GetBlockNumber();
      if head.None? {
        return HeadFailed;
      }
      if head.value <= confirmations {
        return HeadTooLow;
      }
      end := Wrap(head.value - confirmations);
    }
    if end < start {
      return NothingToDo;
    }
    return Blocks(Range(start, end));
  }
}
