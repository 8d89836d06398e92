/**
 * The tracker under every interleaving, internal/mempool/tracker.go. Each lock section, channel operation,
 * receipt query and store statement is one step of one thread, and the threads' steps alternate freely.
 */
module Interleaving {
  import opened Prelude
  import opened Decimal
  import opened Mempool
  import opened Tracking

  /** What a thread does next. A list of hashes is what is left of a loop; its head is the current one. */
  datatype Thread =
    | ToMarkRow(tx: Tx, victim: string, now: int)
    | ToMarkTracked(tx: Tx, victim: string, now: int)
    | ToUpsert(tx: Tx, now: int)
    | ToEnqueue(todo: seq<string>)
    | ToSend(todo: seq<string>)
    | ToWithdraw(todo: seq<string>)
    | ToQuery(hash: string)
    | ToMarkMined(hash: string, info: MinedInfo)
    | ToForget(hash: string)
    | ToRelease(hash: string)
    | ToMarkDropped(todo: seq<string>)

  datatype State = State(books: Books, rows: Rows, inflight: set<string>, queue: seq<string>, capacity: nat,
                         threads: seq<Thread>)

  /** How a query or a statement turns out. */
  datatype Outcome = Succeeds | Fails | Mined(info: MinedInfo)

  /**
   * A delivery, a schedule, a receipt worker or a sweep starts with its first lock section or channel
   * operation; afterwards its thread advances step by step. The orders are those of the map iterations.
   */
  datatype Action =
    | Deliver(tx: Tx, now: int)
    | Schedule(order: seq<string>)
    | Receive
    | Sweep(cutoff: int, order: seq<string>)
    | Advance(i: nat, outcome: Outcome, now: int)

  predicate Enabled(s: State, a: Action) {
    match a
    case Deliver(_, _) => true
    case Schedule(order) => (set h | h in order) == PendingHashes(s.books)
    case Receive => s.queue != []
    case Sweep(cutoff, order) => (set h | h in order) == Expired(s.books, cutoff)
    case Advance(i, _, _) => i < |s.threads|
  }

  function Spawn(s: State, t: Thread): State {
    s.(threads := s.threads + [t])
  }

  /** One step of thread t: what it leaves of the shared state, and what it does next. */
  function Move(s: State, t: Thread, outcome: Outcome, now: int): (State, Thread) {
    match t
    case ToMarkRow(tx, victim, at) =>
      (if outcome.Fails? then s else s.(rows := RowReplaced(s.rows, victim, tx.hash, now)),
       ToMarkTracked(tx, victim, at))
    case ToMarkTracked(tx, victim, at) => (s.(books := MarkReplaced(s.books, victim)), ToUpsert(tx, at))
    case ToUpsert(tx, at) =>
      if outcome.Fails? then (s, ToEnqueue([])) else (s.(rows := Upsert(s.rows, tx, at)), ToEnqueue([tx.hash]))
    case ToEnqueue(todo) =>
      if todo == [] then (s, t)
      else if todo[0] in s.inflight || |s.inflight| >= s.capacity then (s, ToEnqueue(todo[1..]))
      else (s.(inflight := s.inflight + {todo[0]}), ToSend(todo))
    case ToSend(todo) =>
      if todo == [] then (s, t)
      else if |s.queue| < s.capacity then (s.(queue := s.queue + [todo[0]]), ToEnqueue(todo[1..]))
      else (s, ToWithdraw(todo))
    case ToWithdraw(todo) =>
      if todo == [] then (s, t) else (s.(inflight := s.inflight - {todo[0]}), ToEnqueue(todo[1..]))
    case ToQuery(hash) => (s, if outcome.Mined? then ToMarkMined(hash, outcome.info) else ToRelease(hash))
    case ToMarkMined(hash, info) =>
      if outcome.Fails? then (s, ToRelease(hash)) else (s.(rows := RowMined(s.rows, hash, info, now)), ToForget(hash))
    case ToForget(hash) => (s.(books := Forget(s.books, hash)), ToRelease(hash))
    case ToRelease(hash) => (s.(inflight := s.inflight - {hash}), ToEnqueue([]))
    case ToMarkDropped(todo) =>
      if todo == [] then (s, t)
      else (if outcome.Fails? then s else s.(rows := RowDropped(s.rows, todo[0], now)), ToMarkDropped(todo[1..]))
  }

  function Step(s: State, a: Action): State {
    if !Enabled(s, a) then s
    else
      match a
      case Deliver(tx, now) =>
        var victim := Victim(s.books, tx);
        Spawn(s.(books := Arrive(s.books, tx, now)),
              if victim != "" then ToMarkRow(tx, victim, now) else ToUpsert(tx, now))
      case Schedule(order) => Spawn(s, ToEnqueue(order))
      case Receive => Spawn(s.(queue := s.queue[1..]), ToQuery(s.queue[0]))
      case Sweep(cutoff, order) => Spawn(s.(books := Expire(s.books, cutoff)), ToMarkDropped(order))
      case Advance(i, outcome, now) =>
        var (t, next) := Move(s, s.threads[i], outcome, now);
        t.(threads := s.threads[i := next])
  }

  function Run(s: State, actions: seq<Action>): State {
    if actions == [] then s else Step(Run(s, actions[..|actions| - 1]), actions[|actions| - 1])
  }

  function Initial(capacity: nat): State {
    State(Books(map[], map[]), map[], {}, [], capacity, [])
  }

  /** The hash that the thread put in flight and has not sent, or took from the queue and has not released. */
  function Held(t: Thread): Option<string> {
    match t
    case ToSend(todo) => if todo != [] then Some(todo[0]) else None
    case ToWithdraw(todo) => if todo != [] then Some(todo[0]) else None
    case ToQuery(hash) => Some(hash)
    case ToMarkMined(hash, _) => Some(hash)
    case ToForget(hash) => Some(hash)
    case ToRelease(hash) => Some(hash)
    case _ => None
  }

  /**
   * A hash in flight is queued, or held by one thread, and never both; nothing else is queued or held; the
   * queue has no duplicates and the cap is kept.
   */
  ghost predicate Flow(inflight: set<string>, queue: seq<string>, capacity: nat, held: seq<Option<string>>) {
    |inflight| <= capacity && NoDuplicates(queue) &&
    (forall h | h in queue :: h in inflight) &&
    (forall i | 0 <= i < |held| && held[i].Some? :: held[i].value in inflight && held[i].value !in queue) &&
    (forall i, j | 0 <= i < j < |held| && held[i].Some? :: held[i] != held[j]) &&
    (forall h | h in inflight :: h in queue || Some(h) in held)
  }

  function AllHeld(threads: seq<Thread>): seq<Option<string>> {
    seq(|threads|, i requires 0 <= i < |threads| => Held(threads[i]))
  }

  /** The flow of hashes is in order and no thread ever found the queue full. */
  ghost predicate Pipeline(s: State) {
    Flow(s.inflight, s.queue, s.capacity, AllHeld(s.threads)) &&
    forall t | t in s.threads :: !t.ToWithdraw? && (t.ToSend? ==> t.todo != [])
  }

  lemma {:induction false} SubsetSize(a: set<string>, b: set<string>)
    requires a <= b
    ensures |a| <= |b|
  {
    if a != {} {
      var x :| x in a;
      SubsetSize(a - {x}, b - {x});
    }
  }

  /** While some hash is held, the queue has room. */
  lemma QueueHasRoom(inflight: set<string>, queue: seq<string>, capacity: nat, held: seq<Option<string>>, i: nat)
    requires Flow(inflight, queue, capacity, held) && i < |held| && held[i].Some?
    ensures |queue| < capacity
  {
    QueueSize(queue);
    var queued := set q | q in queue;
    assert queued + {held[i].value} <= inflight;
    SubsetSize(queued + {held[i].value}, inflight);
  }

  lemma Acquire(inflight: set<string>, queue: seq<string>, capacity: nat, held: seq<Option<string>>, i: nat, h: string)
    requires Flow(inflight, queue, capacity, held) && i < |held| && held[i] == None
    requires h !in inflight && |inflight| < capacity
    ensures Flow(inflight + {h}, queue, capacity, held[i := Some(h)])
  {
    var now := held[i := Some(h)];
    assert now[i] == Some(h);
    forall k | k in inflight + {h}
      ensures k in queue || Some(k) in now
    {
      if k != h && k !in queue {
        var j :| 0 <= j < |held| && held[j] == Some(k);
        assert now[j] == Some(k);
      }
    }
  }

  lemma SendOff(inflight: set<string>, queue: seq<string>, capacity: nat, held: seq<Option<string>>, i: nat)
    requires Flow(inflight, queue, capacity, held) && i < |held| && held[i].Some?
    ensures Flow(inflight, queue + [held[i].value], capacity, held[i := None])
  {
    var now := held[i := None];
    var h := held[i].value;
    assert (queue + [h])[|queue|] == h;
    assert forall k | k in queue + [h] :: k in queue || k == h;
    forall k | k in inflight
      ensures k in queue + [h] || Some(k) in now
    {
      if k != h && k !in queue {
        var j :| 0 <= j < |held| && held[j] == Some(k);
        assert now[j] == Some(k);
      }
    }
  }

  lemma LetGo(inflight: set<string>, queue: seq<string>, capacity: nat, held: seq<Option<string>>, i: nat)
    requires Flow(inflight, queue, capacity, held) && i < |held| && held[i].Some?
    ensures Flow(inflight - {held[i].value}, queue, capacity, held[i := None])
  {
    var now := held[i := None];
    var h := held[i].value;
    SubsetSize(inflight - {h}, inflight);
    forall k | k in inflight - {h}
      ensures k in queue || Some(k) in now
    {
      if k !in queue {
        var j :| 0 <= j < |held| && held[j] == Some(k);
        assert now[j] == Some(k);
      }
    }
  }

  lemma PickUp(inflight: set<string>, queue: seq<string>, capacity: nat, held: seq<Option<string>>)
    requires Flow(inflight, queue, capacity, held) && queue != []
    ensures Flow(inflight, queue[1..], capacity, held + [Some(queue[0])])
  {
    var now := held + [Some(queue[0])];
    assert now[|held|] == Some(queue[0]);
    assert queue == [queue[0]] + queue[1..];
    assert forall k | k in queue :: k == queue[0] || k in queue[1..];
    assert queue[0] !in queue[1..];
    forall k | k in inflight
      ensures k in queue[1..] || Some(k) in now
    {
      if k !in queue {
        var j :| 0 <= j < |held| && held[j] == Some(k);
        assert now[j] == Some(k);
      }
    }
  }

  lemma NewThread(inflight: set<string>, queue: seq<string>, capacity: nat, held: seq<Option<string>>)
    requires Flow(inflight, queue, capacity, held)
    ensures Flow(inflight, queue, capacity, held + [None])
  {
    assert forall o | o in held :: o in held + [None];
  }

  /** A step of a thread that holds a hash sends it, lets it go, or keeps it. */
  lemma HolderMoves(s: State, i: nat, outcome: Outcome, now: int)
    requires Pipeline(s) && i < |s.threads| && Held(s.threads[i]).Some?
    ensures var m := Step(s, Advance(i, outcome, now));
            Flow(m.inflight, m.queue, m.capacity, AllHeld(s.threads)[i := Held(m.threads[i])]) &&
            !m.threads[i].ToWithdraw? && (m.threads[i].ToSend? ==> m.threads[i].todo != [])
  {
    hide Flow, RowReplaced, RowMined, RowDropped, Upsert, MarkReplaced, Forget;
    var t, held := s.threads[i], AllHeld(s.threads);
    assert t in s.threads && held[i] == Held(t) && held[i := Held(t)] == held;
    QueueHasRoom(s.inflight, s.queue, s.capacity, held, i);
    SendOff(s.inflight, s.queue, s.capacity, held, i);
    LetGo(s.inflight, s.queue, s.capacity, held, i);
  }

  /** A step of a thread that holds none puts one in flight or leaves the flow as it is. */
  lemma OtherMoves(s: State, i: nat, outcome: Outcome, now: int)
    requires Pipeline(s) && i < |s.threads| && Held(s.threads[i]).None?
    ensures var m := Step(s, Advance(i, outcome, now));
            Flow(m.inflight, m.queue, m.capacity, AllHeld(s.threads)[i := Held(m.threads[i])]) &&
            !m.threads[i].ToWithdraw? && (m.threads[i].ToSend? ==> m.threads[i].todo != [])
  {
    hide Flow, RowReplaced, RowMined, RowDropped, Upsert, MarkReplaced, Forget;
    var t, held := s.threads[i], AllHeld(s.threads);
    assert t in s.threads && held[i] == Held(t) && held[i := Held(t)] == held;
    if t.ToEnqueue? && t.todo != [] && t.todo[0] !in s.inflight && |s.inflight| < s.capacity {
      Acquire(s.inflight, s.queue, s.capacity, held, i, t.todo[0]);
    }
  }

  /** One thread's step keeps the flow in order and never finds the queue full. */
  lemma MoveKeepsPipeline(s: State, i: nat, outcome: Outcome, now: int)
    requires Pipeline(s) && i < |s.threads|
    ensures Pipeline(Step(s, Advance(i, outcome, now)))
  {
    hide Flow, Held;
    var m := Step(s, Advance(i, outcome, now));
    if Held(s.threads[i]).Some? {
      HolderMoves(s, i, outcome, now);
    } else {
      OtherMoves(s, i, outcome, now);
    }
    hide Move;
    assert AllHeld(m.threads) == AllHeld(s.threads)[i := Held(m.threads[i])];
    forall u | u in m.threads
      ensures !u.ToWithdraw? && (u.ToSend? ==> u.todo != [])
    {
      assert u == m.threads[i] || u in s.threads;
    }
  }

  lemma SpawnKeepsPipeline(s: State, a: Action)
    requires Pipeline(s) && !a.Advance? && Enabled(s, a)
    ensures Pipeline(Step(s, a))
  {
    hide Flow, Arrive, Victim, Expire, PendingHashes, Expired;
    var m := Step(s, a);
    var held := AllHeld(s.threads);
    assert AllHeld(m.threads) == held + [Held(m.threads[|s.threads|])];
    if a.Receive? {
      PickUp(s.inflight, s.queue, s.capacity, held);
    } else {
      NewThread(s.inflight, s.queue, s.capacity, held);
    }
    forall u | u in m.threads
      ensures !u.ToWithdraw? && (u.ToSend? ==> u.todo != [])
    {
      assert u == m.threads[|s.threads|] || u in s.threads;
    }
  }

  lemma CapacityFixed(s: State, a: Action)
    ensures Step(s, a).capacity == s.capacity
  {
  }

  /**
   * In every reachable state the hashes in flight are the disjoint union of the queued ones and those held
   * by threads, their number stays within the cap, and the branch for a full queue is never taken.
   */
  lemma {:induction false} PipelineAlways(capacity: nat, actions: seq<Action>)
    ensures Pipeline(Run(Initial(capacity), actions))
    ensures Run(Initial(capacity), actions).capacity == capacity
  {
    if actions != [] {
      hide Pipeline, Enabled, Move;
      var before, a := actions[..|actions| - 1], actions[|actions| - 1];
      PipelineAlways(capacity, before);
      var s := Run(Initial(capacity), before);
      if Enabled(s, a) {
        if a.Advance? {
          CapacityFixed(s, a);
          MoveKeepsPipeline(s, a.i, a.outcome, a.now);
        } else {
          SpawnKeepsPipeline(s, a);
        }
      }
    }
  }

  /** A delivery in progress will still mark the hash as replaced. */
  predicate OwesMark(t: Thread, h: string) {
    (t.ToMarkRow? || t.ToMarkTracked?) && t.victim == h
  }

  ghost predicate MarkOwed(threads: seq<Thread>, h: string) {
    exists i :: 0 <= i < |threads| && OwesMark(threads[i], h)
  }

  predicate HoldsKey(b: Books, h: string)
    requires h in b.txs
  {
    var key := TrackedKey(b.txs[h]);
    key in b.fromNonce && b.fromNonce[key] == h
  }

  /** The delivered transactions have non-empty hashes, and a hash comes with one sender and nonce. */
  ghost predicate Genuine(origin: string -> (string, uint64), actions: seq<Action>) {
    forall i | 0 <= i < |actions| && actions[i].Deliver? ::
      actions[i].tx.hash != "" && origin(actions[i].tx.hash) == (actions[i].tx.sender, actions[i].tx.nonce)
  }

  /** What is tracked of a hash: its own sender and nonce, and if pending, the key or a mark to come. */
  ghost predicate EntryOk(origin: string -> (string, uint64), b: Books, threads: seq<Thread>, h: string) {
    h in b.txs ==>
      h != "" && origin(h) == (b.txs[h].sender, b.txs[h].nonce) &&
      (b.txs[h].status == Pending ==> HoldsKey(b, h) || MarkOwed(threads, h))
  }

  ghost predicate BooksOk(origin: string -> (string, uint64), b: Books, threads: seq<Thread>) {
    Coherent(b) && forall h :: EntryOk(origin, b, threads, h)
  }

  lemma OwedByMore(threads: seq<Thread>, t: Thread, h: string)
    ensures MarkOwed(threads, h) || OwesMark(t, h) ==> MarkOwed(threads + [t], h)
  {
    var all := threads + [t];
    assert all[|threads|] == t;
    if MarkOwed(threads, h) {
      var i :| 0 <= i < |threads| && OwesMark(threads[i], h);
      assert OwesMark(all[i], h);
    }
  }

  lemma ArriveKeepsBooks(origin: string -> (string, uint64), b: Books, threads: seq<Thread>, tx: Tx, now: int,
                         t: Thread)
    requires BooksOk(origin, b, threads) && tx.hash != "" && origin(tx.hash) == (tx.sender, tx.nonce)
    requires Victim(b, tx) != "" ==> OwesMark(t, Victim(b, tx))
    ensures BooksOk(origin, Arrive(b, tx, now), threads + [t])
  {
    hide FromNonceKey;
    assert EntryOk(origin, b, threads, tx.hash);
    SectionsKeepCoherence(b, tx, now, "", 0);
    var c := Arrive(b, tx, now);
    assert (threads + [t])[|threads|] == t;
    forall h
      ensures EntryOk(origin, c, threads + [t], h)
    {
      assert EntryOk(origin, b, threads, h);
      OwedByMore(threads, t, h);
    }
  }

  lemma OwedByOthers(threads: seq<Thread>, i: nat, t: Thread, h: string)
    requires i < |threads| && (OwesMark(threads[i], h) ==> OwesMark(t, h))
    ensures MarkOwed(threads, h) ==> MarkOwed(threads[i := t], h)
  {
    if MarkOwed(threads, h) {
      var j :| 0 <= j < |threads| && OwesMark(threads[j], h);
      assert OwesMark(threads[i := t][j], h);
    }
  }

  /** A step of a thread that leaves the books alone keeps every mark that it owes. */
  lemma OtherMovesKeepBooks(origin: string -> (string, uint64), b: Books, threads: seq<Thread>, i: nat, t: Thread)
    requires BooksOk(origin, b, threads) && i < |threads|
    requires threads[i].ToMarkRow? ==> t.ToMarkTracked? && t.victim == threads[i].victim
    requires !threads[i].ToMarkTracked?
    ensures BooksOk(origin, b, threads[i := t])
  {
    hide Coherent;
    var later := threads[i := t];
    forall h
      ensures EntryOk(origin, b, later, h)
    {
      assert EntryOk(origin, b, threads, h);
      OwedByOthers(threads, i, t, h);
    }
  }

  lemma MarkKeepsBooks(origin: string -> (string, uint64), b: Books, threads: seq<Thread>, i: nat, t: Thread)
    requires BooksOk(origin, b, threads) && i < |threads| && threads[i].ToMarkTracked?
    ensures BooksOk(origin, MarkReplaced(b, threads[i].victim), threads[i := t])
  {
    hide FromNonceKey;
    var victim := threads[i].victim;
    SectionsKeepCoherence(b, Tx(victim, if victim in b.txs then b.txs[victim].sender else "",
                                if victim in b.txs then b.txs[victim].nonce else 0, None), 0, victim, 0);
    var later := threads[i := t];
    forall h
      ensures EntryOk(origin, MarkReplaced(b, victim), later, h)
    {
      assert EntryOk(origin, b, threads, h);
      if h != victim {
        OwedByOthers(threads, i, t, h);
      }
    }
  }

  lemma ForgetKeepsBooks(origin: string -> (string, uint64), b: Books, threads: seq<Thread>, hash: string, i: nat,
                         t: Thread)
    requires BooksOk(origin, b, threads) && i < |threads| && threads[i].ToForget?
    ensures BooksOk(origin, Forget(b, hash), threads[i := t])
  {
    hide FromNonceKey;
    SectionsKeepCoherence(b, Tx(hash, if hash in b.txs then b.txs[hash].sender else "",
                                if hash in b.txs then b.txs[hash].nonce else 0, None), 0, hash, 0);
    var later := threads[i := t];
    forall h
      ensures EntryOk(origin, Forget(b, hash), later, h)
    {
      assert EntryOk(origin, b, threads, h);
      OwedByOthers(threads, i, t, h);
    }
  }

  lemma ExpireKeepsBooks(origin: string -> (string, uint64), b: Books, threads: seq<Thread>, cutoff: int, t: Thread)
    requires BooksOk(origin, b, threads)
    ensures BooksOk(origin, Expire(b, cutoff), threads + [t])
  {
    hide FromNonceKey;
    SectionsKeepCoherence(b, Tx("", if "" in b.txs then b.txs[""].sender else "",
                                if "" in b.txs then b.txs[""].nonce else 0, None), 0, "", cutoff);
    forall h
      ensures EntryOk(origin, Expire(b, cutoff), threads + [t], h)
    {
      assert EntryOk(origin, b, threads, h);
      OwedByMore(threads, t, h);
    }
  }

  lemma SpawnKeepsBooks(origin: string -> (string, uint64), b: Books, threads: seq<Thread>, t: Thread)
    requires BooksOk(origin, b, threads)
    ensures BooksOk(origin, b, threads + [t])
  {
    hide Coherent;
    forall h
      ensures EntryOk(origin, b, threads + [t], h)
    {
      assert EntryOk(origin, b, threads, h);
      OwedByMore(threads, t, h);
    }
  }

  lemma StepKeepsBooks(origin: string -> (string, uint64), s: State, a: Action)
    requires BooksOk(origin, s.books, s.threads) && Enabled(s, a)
    requires a.Deliver? ==> a.tx.hash != "" && origin(a.tx.hash) == (a.tx.sender, a.tx.nonce)
    ensures BooksOk(origin, Step(s, a).books, Step(s, a).threads)
  {
    hide BooksOk, Arrive, Victim, MarkReplaced, Forget, Expire;
    match a
    case Deliver(tx, now) =>
      var t := if Victim(s.books, tx) != "" then ToMarkRow(tx, Victim(s.books, tx), now) else ToUpsert(tx, now);
      ArriveKeepsBooks(origin, s.books, s.threads, tx, now, t);
    case Schedule(order) => SpawnKeepsBooks(origin, s.books, s.threads, ToEnqueue(order));
    case Receive => SpawnKeepsBooks(origin, s.books, s.threads, ToQuery(s.queue[0]));
    case Sweep(cutoff, order) => ExpireKeepsBooks(origin, s.books, s.threads, cutoff, ToMarkDropped(order));
    case Advance(i, outcome, now) =>
      var (m, next) := Move(s, s.threads[i], outcome, now);
      match s.threads[i] {
        case ToMarkTracked(_, _, _) => MarkKeepsBooks(origin, s.books, s.threads, i, next);
        case ToForget(hash) => ForgetKeepsBooks(origin, s.books, s.threads, hash, i, next);
        case _ => OtherMovesKeepBooks(origin, s.books, s.threads, i, next);
      }
  }

  /**
   * In every reachable state each index entry points to a tracked transaction of its key, and a pending one
   * either holds the key of its sender and nonce or will still be marked as replaced.
   */
  lemma {:induction false} BooksAlwaysOk(origin: string -> (string, uint64), capacity: nat, actions: seq<Action>)
    requires Genuine(origin, actions)
    ensures var s := Run(Initial(capacity), actions); BooksOk(origin, s.books, s.threads)
  {
    if actions != [] {
      hide BooksOk, Enabled, Move;
      var before, a := actions[..|actions| - 1], actions[|actions| - 1];
      assert forall i | 0 <= i < |before| :: before[i] == actions[i];
      BooksAlwaysOk(origin, capacity, before);
      var s := Run(Initial(capacity), before);
      if Enabled(s, a) {
        StepKeepsBooks(origin, s, a);
      }
    } else {
      assert Initial(capacity).books == Books(map[], map[]);
    }
  }

  /** With no delivery between its sections, at most one transaction per sender and nonce is pending. */
  lemma AtMostOnePending(origin: string -> (string, uint64), capacity: nat, actions: seq<Action>, g: string, h: string)
    requires Genuine(origin, actions)
    requires var s := Run(Initial(capacity), actions);
             (forall t | t in s.threads :: !t.ToMarkRow? && !t.ToMarkTracked?) &&
             g in s.books.txs && h in s.books.txs && s.books.txs[g].status == s.books.txs[h].status == Pending &&
             s.books.txs[g].sender == s.books.txs[h].sender && s.books.txs[g].nonce == s.books.txs[h].nonce
    ensures g == h
  {
    hide Run, FromNonceKey, Coherent;
    BooksAlwaysOk(origin, capacity, actions);
    var s := Run(Initial(capacity), actions);
    assert EntryOk(origin, s.books, s.threads, g) && EntryOk(origin, s.books, s.threads, h);
  }

  predicate MovesForward(b: Books, c: Books, h: string) {
    h in b.txs && h in c.txs ==>
      Rank(b.txs[h].status) <= Rank(c.txs[h].status) && (c.txs[h].status == Pending ==> b.txs[h].status == Pending)
  }

  /** While a hash stays tracked, a lock section moves its status only forward. */
  lemma SectionsMoveForward(b: Books, tx: Tx, now: int, hash: string, cutoff: int, h: string)
    ensures MovesForward(b, Arrive(b, tx, now), h) && MovesForward(b, MarkReplaced(b, hash), h)
    ensures MovesForward(b, Forget(b, hash), h) && MovesForward(b, Expire(b, cutoff), h)
  {
    hide FromNonceKey;
  }

  /** While a hash stays tracked, a step moves its status only forward. */
  lemma StepMovesForward(s: State, a: Action, h: string)
    ensures MovesForward(s.books, Step(s, a).books, h)
  {
    hide Victim, Arrive, MarkReplaced, Forget, Expire, RowReplaced, RowMined, RowDropped, Upsert;
    match a
    case Deliver(tx, now) => SectionsMoveForward(s.books, tx, now, "", 0, h);
    case Sweep(cutoff, _) => SectionsMoveForward(s.books, Tx("", "", 0, None), 0, "", cutoff, h);
    case Advance(i, _, _) =>
      if i < |s.threads| && (s.threads[i].ToMarkTracked? || s.threads[i].ToForget?) {
        var hash := if s.threads[i].ToForget? then s.threads[i].hash else s.threads[i].victim;
        SectionsMoveForward(s.books, Tx("", "", 0, None), 0, hash, 0, h);
      }
    case _ =>
  }

  /** While a hash stays tracked through a run, its status goes from pending to dropped to replaced and never back. */
  lemma {:induction false} StatusMovesForward(s: State, actions: seq<Action>, h: string)
    requires forall n | 0 <= n <= |actions| :: h in Run(s, actions[..n]).books.txs
    ensures h in s.books.txs && h in Run(s, actions).books.txs
    ensures Rank(s.books.txs[h].status) <= Rank(Run(s, actions).books.txs[h].status)
    ensures Run(s, actions).books.txs[h].status == Pending ==> s.books.txs[h].status == Pending
  {
    assert actions[..|actions|] == actions && actions[..0] == [];
    assert h in Run(s, actions[..0]).books.txs && h in Run(s, actions[..|actions|]).books.txs;
    if actions != [] {
      var before := actions[..|actions| - 1];
      forall n | 0 <= n <= |before|
        ensures h in Run(s, before[..n]).books.txs
      {
        assert before[..n] == actions[..n];
      }
      StatusMovesForward(s, before, h);
      hide Step;
      StepMovesForward(Run(s, before), actions[|actions| - 1], h);
    }
  }

  /** The first delivery has passed its lock section, the second has marked the first as replaced and stored its row. */
  lemma SecondOvertakesFirst(x: Tx, y: Tx, s: State)
    requires s.books == Books(map[], map[]) && s.rows == map[] && s.threads == []
    requires x.hash != "" && y.hash != "" && x.hash != y.hash && x.sender == y.sender && x.nonce == y.nonce
    ensures var s2 := Step(Step(s, Deliver(x, 0)), Deliver(y, 1));
            var s4 := Step(Step(s2, Advance(1, Succeeds, 1)), Advance(1, Succeeds, 1));
            s4.threads == [ToUpsert(x, 0), ToUpsert(y, 1)] && x.hash in s4.books.txs &&
            s4.books.txs[x.hash].status == Replaced && s4.rows == map[]
  {
    hide FromNonceKey;
    var s1 := Step(s, Deliver(x, 0));
    assert s1.threads == [ToUpsert(x, 0)] && s1.books.fromNonce == map[TxKey(x) := x.hash];
    var s2 := Step(s1, Deliver(y, 1));
    assert s2.threads == [ToUpsert(x, 0), ToMarkRow(y, x.hash, 1)] && x.hash in s2.books.txs;
    var s3 := Step(s2, Advance(1, Succeeds, 1));
    assert s3.threads == [ToUpsert(x, 0), ToMarkTracked(y, x.hash, 1)] && s3.books == s2.books && s3.rows == map[];
  }

  lemma LateUpsert(x: Tx, y: Tx, s: State)
    requires s.threads == [ToUpsert(x, 0), ToUpsert(y, 1)] && s.rows == map[] && x.hash != y.hash
    ensures var t := Step(Step(s, Advance(1, Succeeds, 1)), Advance(0, Succeeds, 1));
            t.threads == [ToEnqueue([x.hash]), ToEnqueue([y.hash])] && t.books == s.books &&
            x.hash in t.rows && t.rows[x.hash].status == Pending
  {
    var u := Step(s, Advance(1, Succeeds, 1));
    assert u.threads == [ToUpsert(x, 0), ToEnqueue([y.hash])] && u.books == s.books;
  }

  /** A run that visits the given states ends in the last of them. */
  lemma {:induction false} RunsTo(s: State, actions: seq<Action>, states: seq<State>)
    requires |states| == |actions| + 1 && states[0] == s
    requires forall i | 0 <= i < |actions| :: states[i + 1] == Step(states[i], actions[i])
    ensures Run(s, actions) == states[|actions|]
  {
    if actions != [] {
      hide Step;
      RunsTo(s, actions[..|actions| - 1], states[..|actions|]);
    }
  }

  /**
   * Two deliveries of one sender and nonce, the first of which stores its row last: its row says pending
   * although the tracker, and the newer delivery, say replaced.
   */
  lemma LateUpsertDisagrees(x: Tx, y: Tx, capacity: nat)
    requires x.hash != "" && y.hash != "" && x.hash != y.hash && x.sender == y.sender && x.nonce == y.nonce
    ensures exists actions ::
              var s := Run(Initial(capacity), actions);
              x.hash in s.rows && x.hash in s.books.txs &&
              s.rows[x.hash].status == Pending && s.books.txs[x.hash].status == Replaced &&
              forall t | t in s.threads :: !t.ToMarkRow? && !t.ToMarkTracked? && !t.ToUpsert?
  {
    hide Step;
    var acts := [Deliver(x, 0), Deliver(y, 1), Advance(1, Succeeds, 1), Advance(1, Succeeds, 1),
                 Advance(1, Succeeds, 1), Advance(0, Succeeds, 1)];
    var s0 := Initial(capacity);
    var s1 := Step(s0, acts[0]);
    var s2 := Step(s1, acts[1]);
    var s3 := Step(s2, acts[2]);
    var s4 := Step(s3, acts[3]);
    var s5 := Step(s4, acts[4]);
    var s6 := Step(s5, acts[5]);
    SecondOvertakesFirst(x, y, s0);
    LateUpsert(x, y, s4);
    RunsTo(s0, acts, [s0, s1, s2, s3, s4, s5, s6]);
    assert Run(s0, acts) == s6;
  }

  /** The steps of one thread with nothing in between; a thread that is done stays as it is. */
  function Alone(s: State, i: nat, outcomes: seq<Outcome>, now: int): State
    decreases |outcomes|
  {
    if outcomes == [] then s else Alone(Step(s, Advance(i, outcomes[0], now)), i, outcomes[1..], now)
  }

  lemma {:induction false} AloneAppend(s: State, i: nat, a: seq<Outcome>, b: seq<Outcome>, now: int)
    ensures Alone(s, i, a + b, now) == Alone(Alone(s, i, a, now), i, b, now)
    decreases |a|
  {
    hide Step;
    if a == [] {
      assert a + b == b;
    } else {
      assert (a + b)[1..] == a[1..] + b;
      AloneAppend(Step(s, Advance(i, a[0], now)), i, a[1..], b, now);
    }
  }

  lemma TwoAlone(s: State, i: nat, o: Outcome, p: Outcome, now: int)
    ensures Alone(s, i, [o], now) == Step(s, Advance(i, o, now))
    ensures Alone(s, i, [o, p], now) == Step(Step(s, Advance(i, o, now)), Advance(i, p, now))
  {
    hide Step;
    assert [o, p][1..] == [p] && [p][1..] == [] && [o][1..] == [];
    assert Alone(s, i, [o, p], now) == Alone(Step(s, Advance(i, o, now)), i, [p], now);
  }

  /** What enqueueing a hash makes of flight and queue. */
  function Enqueued(s: State, hash: string): (set<string>, seq<string>) {
    if hash in s.inflight || |s.inflight| >= s.capacity then (s.inflight, s.queue)
    else (s.inflight + {hash}, s.queue + [hash])
  }

  /** The last two steps of a delivery, when the queue has room for what may be in flight. */
  lemma EnqueueAlone(s: State, i: nat, hash: string, now: int)
    requires i < |s.threads| && s.threads[i] == ToEnqueue([hash])
    requires |s.inflight| < s.capacity ==> |s.queue| < s.capacity
    ensures Alone(s, i, [Succeeds, Succeeds], now)
         == s.(inflight := Enqueued(s, hash).0, queue := Enqueued(s, hash).1, threads := s.threads[i := ToEnqueue([])])
  {
    TwoAlone(s, i, Succeeds, Succeeds, now);
    assert [hash][1..] == [];
    assert Alone(s, i, [Succeeds, Succeeds], now).threads == s.threads[i := ToEnqueue([])];
  }

  function Steps(k: nat): seq<Outcome> {
    seq(k, _ => Succeeds)
  }

  /** What enqueueing the hashes of a list adds to flight and queue. */
  ghost predicate Scheduled(s: State, t: State, order: seq<string>) {
    s.inflight <= t.inflight && s.queue <= t.queue && |t.queue| - |s.queue| == |t.inflight| - |s.inflight| &&
    (forall h | h in t.inflight && h !in s.inflight :: h in order && h in t.queue[|s.queue|..]) &&
    (forall h | h in order :: h in t.inflight || |t.inflight| >= s.capacity) &&
    t == s.(inflight := t.inflight, queue := t.queue, threads := t.threads)
  }

  lemma {:induction false} DoneStays(s: State, i: nat, k: nat, now: int)
    requires i < |s.threads| && s.threads[i] == ToEnqueue([])
    ensures Alone(s, i, Steps(k), now) == s && Scheduled(s, s, []) && s.threads[i := ToEnqueue([])] == s.threads
  {
    if k > 0 {
      assert Steps(k)[1..] == Steps(k - 1);
      assert s.threads[i := ToEnqueue([])] == s.threads;
      DoneStays(s, i, k - 1, now);
    }
  }

  lemma QueueWithinFlight(s: State)
    requires Pipeline(s)
    ensures |s.queue| <= |s.inflight|
  {
    QueueSize(s.queue);
    var queued := set q | q in s.queue;
    SubsetSize(queued, s.inflight);
  }

  lemma UpdateTwice(threads: seq<Thread>, i: nat, a: Thread, b: Thread)
    requires i < |threads|
    ensures threads[i := a][i := b] == threads[i := b]
  {
  }

  /** A full queue, which no run leads to, takes the hash out of flight again. */
  lemma FullQueueWithdraws(s: State, i: nat, hash: string, now: int)
    requires i < |s.threads| && s.threads[i] == ToEnqueue([hash])
    requires hash !in s.inflight && |s.inflight| < s.capacity <= |s.queue|
    ensures Alone(s, i, [Succeeds, Succeeds] + [Succeeds], now) == s.(threads := s.threads[i := ToEnqueue([])])
  {
    hide Alone, RowReplaced, MarkReplaced, Upsert, RowMined, Forget, RowDropped;
    AloneAppend(s, i, [Succeeds, Succeeds], [Succeeds], now);
    TwoAlone(s, i, Succeeds, Succeeds, now);
    var m := s.(inflight := s.inflight + {hash}, threads := s.threads[i := ToSend([hash])]);
    var n := m.(threads := m.threads[i := ToWithdraw([hash])]);
    assert Step(s, Advance(i, Succeeds, now)) == m;
    assert Step(m, Advance(i, Succeeds, now)) == n;
    TwoAlone(n, i, Succeeds, Succeeds, now);
    assert n.inflight - {hash} == s.inflight && [hash][1..] == [];
    UpdateTwice(s.threads, i, ToSend([hash]), ToWithdraw([hash]));
    UpdateTwice(s.threads, i, ToWithdraw([hash]), ToEnqueue([]));
  }

  /** The head of the list enters flight and queue in two steps, or is skipped in one. */
  lemma EnqueueHeadAlone(s: State, i: nat, todo: seq<string>, k: nat, now: int) returns (m: State, left: nat)
    requires i < |s.threads| && todo != [] && s.threads[i] == ToEnqueue(todo) && k >= 2 * |todo|
    requires |s.queue| <= |s.inflight|
    ensures left >= 2 * |todo[1..]| && Alone(s, i, Steps(k), now) == Alone(m, i, Steps(left), now)
    ensures Scheduled(s, m, [todo[0]]) && m.threads == s.threads[i := ToEnqueue(todo[1..])]
    ensures |m.queue| <= |m.inflight|
  {
    m := Step(s, Advance(i, Succeeds, now));
    left := k - 1;
    assert Steps(k)[1..] == Steps(left);
    if !(todo[0] in s.inflight || |s.inflight| >= s.capacity) {
      var sent := Step(m, Advance(i, Succeeds, now));
      assert Steps(left)[1..] == Steps(left - 1);
      assert sent.threads == s.threads[i := ToEnqueue(todo[1..])];
      assert sent.queue[|s.queue|..] == [todo[0]];
      m, left := sent, left - 1;
    }
  }

  lemma ScheduledThen(s: State, m: State, t: State, todo: seq<string>)
    requires todo != [] && Scheduled(s, m, [todo[0]]) && Scheduled(m, t, todo[1..])
    ensures Scheduled(s, t, todo)
  {
    forall h | h in t.inflight && h !in s.inflight
      ensures h in todo && h in t.queue[|s.queue|..]
    {
      var head, tail := m.queue[|s.queue|..], t.queue[|m.queue|..];
      assert t.queue[|s.queue|..] == head + tail;
    }
    SubsetSize(m.inflight, t.inflight);
    assert todo == [todo[0]] + todo[1..];
  }

  lemma {:induction false} EnqueueAllAlone(s: State, i: nat, todo: seq<string>, k: nat, now: int)
    requires i < |s.threads| && s.threads[i] == ToEnqueue(todo) && k >= 2 * |todo| && |s.queue| <= |s.inflight|
    ensures var t := Alone(s, i, Steps(k), now);
            Scheduled(s, t, todo) && t.threads == s.threads[i := ToEnqueue([])]
    decreases |todo|, k
  {
    hide Scheduled, Step;
    if todo != [] {
      var m, left := EnqueueHeadAlone(s, i, todo, k, now);
      EnqueueAllAlone(m, i, todo[1..], left, now);
      ScheduledThen(s, m, Alone(m, i, Steps(left), now), todo);
      UpdateTwice(s.threads, i, ToEnqueue(todo[1..]), ToEnqueue([]));
    } else {
      DoneStays(s, i, k, now);
    }
  }

  /**
   * Scheduling without interleaving: in any map order every pending hash is in flight at the end unless the cap
   * is reached, nothing in flight is lost, and what is new in flight is new in the queue, each once.
   */
  lemma ScheduleAlone(s: State, order: seq<string>, k: nat, now: int)
    requires Pipeline(s) && Enabled(s, Schedule(order)) && k >= 2 * |order|
    ensures var t := Alone(Step(s, Schedule(order)), |s.threads|, Steps(k), now);
            t.books == s.books && t.rows == s.rows && t.threads == s.threads + [ToEnqueue([])] &&
            s.inflight <= t.inflight && s.queue <= t.queue &&
            |t.queue| - |s.queue| == |t.inflight| - |s.inflight| &&
            (forall h | h in t.inflight && h !in s.inflight ::
               h in t.queue[|s.queue|..] && h in s.books.txs && s.books.txs[h].status == Pending) &&
            (forall h | h in s.books.txs && s.books.txs[h].status == Pending ::
               h in t.inflight || |t.inflight| >= s.capacity)
  {
    hide Alone;
    var s1 := Step(s, Schedule(order));
    QueueWithinFlight(s);
    EnqueueAllAlone(s1, |s.threads|, order, k, now);
    assert s1.threads[|s.threads| := ToEnqueue([])] == s.threads + [ToEnqueue([])];
    assert forall h | h in order :: h in PendingHashes(s.books);
    assert forall h | h in PendingHashes(s.books) :: h in order;
  }

  function StatementOutcome(ok: bool): Outcome {
    if ok then Succeeds else Fails
  }

  /** Mark row and entry of the victim; store the row. */
  lemma MarkAlone(s: State, i: nat, tx: Tx, victim: string, at: int, marked: bool, now: int)
    requires i < |s.threads| && s.threads[i] == ToMarkRow(tx, victim, at)
    ensures Alone(s, i, [StatementOutcome(marked), Succeeds], now)
         == s.(books := MarkReplaced(s.books, victim),
               rows := if marked then RowReplaced(s.rows, victim, tx.hash, now) else s.rows,
               threads := s.threads[i := ToUpsert(tx, at)])
  {
    hide MarkReplaced, RowReplaced;
    TwoAlone(s, i, StatementOutcome(marked), Succeeds, now);
    assert Alone(s, i, [StatementOutcome(marked), Succeeds], now).threads == s.threads[i := ToUpsert(tx, at)];
  }

  /** Store the row and, when that succeeds, enqueue the hash. */
  lemma StoreAlone(s: State, i: nat, tx: Tx, at: int, stored: bool, now: int)
    requires i < |s.threads| && s.threads[i] == ToUpsert(tx, at)
    requires |s.inflight| < s.capacity ==> |s.queue| < s.capacity
    ensures Alone(s, i, [StatementOutcome(stored)] + [Succeeds, Succeeds], now)
         == (if stored then
               s.(rows := Upsert(s.rows, tx, at), inflight := Enqueued(s, tx.hash).0, queue := Enqueued(s, tx.hash).1,
                  threads := s.threads[i := ToEnqueue([])])
             else s.(threads := s.threads[i := ToEnqueue([])]))
  {
    hide Upsert;
    AloneAppend(s, i, [StatementOutcome(stored)], [Succeeds, Succeeds], now);
    TwoAlone(s, i, StatementOutcome(stored), Succeeds, now);
    var m := Step(s, Advance(i, StatementOutcome(stored), now));
    if stored {
      EnqueueAlone(m, i, tx.hash, now);
      assert m.threads[i := ToEnqueue([])] == s.threads[i := ToEnqueue([])];
    } else {
      TwoAlone(m, i, Succeeds, Succeeds, now);
      assert m.threads[i := ToEnqueue([])] == m.threads;
    }
  }

  /** The outcomes that a delivery's thread meets after its first lock section. */
  function DeliverySteps(b: Books, tx: Tx, marked: bool, stored: bool): seq<Outcome> {
    (if Victim(b, tx) != "" then [StatementOutcome(marked), Succeeds] else []) +
    ([StatementOutcome(stored)] + [Succeeds, Succeeds])
  }

  /**
   * A delivery without interleaving has the effect that the single-threaded tracker's method has, on books,
   * table, flight and queue, whichever of its statements fail.
   */
  lemma DeliveryAloneIsAfterDelivery(s: State, tx: Tx, now: int, marked: bool, stored: bool)
    requires Pipeline(s)
    ensures var t := Alone(Step(s, Deliver(tx, now)), |s.threads|, DeliverySteps(s.books, tx, marked, stored), now);
            View(t.books, t.rows) == AfterDelivery(View(s.books, s.rows), tx, now, marked, stored) &&
            (if stored && tx.hash !in s.inflight && |s.inflight| < s.capacity then
               t.inflight == s.inflight + {tx.hash} && t.queue == s.queue + [tx.hash]
             else t.inflight == s.inflight && t.queue == s.queue) &&
            t.threads == s.threads + [ToEnqueue([])]
  {
    hide Arrive, Victim, Upsert, RowReplaced, MarkReplaced, Pipeline, Alone;
    var i, v := |s.threads|, Victim(s.books, tx);
    var s1 := Step(s, Deliver(tx, now));
    QueueWithinFlight(s);
    if v != "" {
      AloneAppend(s1, i, [StatementOutcome(marked), Succeeds], [StatementOutcome(stored)] + [Succeeds, Succeeds], now);
      MarkAlone(s1, i, tx, v, now, marked, now);
    } else {
      assert [] + ([StatementOutcome(stored)] + [Succeeds, Succeeds]) ==
        [StatementOutcome(stored)] + [Succeeds, Succeeds];
    }
    var s2 := if v != "" then Alone(s1, i, [StatementOutcome(marked), Succeeds], now) else s1;
    StoreAlone(s2, i, tx, now, stored, now);
    assert s2.threads[i := ToEnqueue([])] == s.threads + [ToEnqueue([])];
  }

  /** The receipt's query and the statement that it may lead to. */
  lemma QueryAlone(s: State, i: nat, hash: string, outcome: Outcome, saved: bool, now: int)
    requires i < |s.threads| && s.threads[i] == ToQuery(hash)
    ensures Alone(s, i, [outcome, StatementOutcome(saved)], now)
            == if outcome.Mined? then
                 s.(rows := if saved then RowMined(s.rows, hash, outcome.info, now) else s.rows,
                    threads := s.threads[i := if saved then ToForget(hash) else ToRelease(hash)])
               else s.(inflight := s.inflight - {hash}, threads := s.threads[i := ToEnqueue([])])
  {
    hide RowMined;
    TwoAlone(s, i, outcome, StatementOutcome(saved), now);
    var m := Step(s, Advance(i, outcome, now));
    UpdateTwice(s.threads, i, m.threads[i], ToForget(hash));
    UpdateTwice(s.threads, i, m.threads[i], ToRelease(hash));
    UpdateTwice(s.threads, i, m.threads[i], ToEnqueue([]));
  }

  /** The removal of a mined transaction and the release of its hash; a thread that is done stays as it is. */
  lemma ReleaseAlone(s: State, i: nat, hash: string, now: int)
    requires i < |s.threads|
    ensures s.threads[i] == ToForget(hash) ==>
              Alone(s, i, [Succeeds, Succeeds], now)
              == s.(books := Forget(s.books, hash), inflight := s.inflight - {hash},
                    threads := s.threads[i := ToEnqueue([])])
    ensures s.threads[i] == ToRelease(hash) ==>
              Alone(s, i, [Succeeds, Succeeds], now)
              == s.(inflight := s.inflight - {hash}, threads := s.threads[i := ToEnqueue([])])
    ensures s.threads[i] == ToEnqueue([]) ==> Alone(s, i, [Succeeds, Succeeds], now) == s
  {
    hide Forget;
    TwoAlone(s, i, Succeeds, Succeeds, now);
    var m := Step(s, Advance(i, Succeeds, now));
    UpdateTwice(s.threads, i, m.threads[i], ToEnqueue([]));
    assert s.threads[i := s.threads[i]] == s.threads;
  }

  /** A receipt handled without interleaving: the worker takes the oldest hash and releases it whatever happens. */
  lemma ReceiptAloneIsAfterMined(s: State, outcome: Outcome, saved: bool, now: int)
    requires s.queue != []
    ensures var steps := [outcome, StatementOutcome(saved)] + [Succeeds, Succeeds];
            var t := Alone(Step(s, Receive), |s.threads|, steps, now);
            View(t.books, t.rows) == (if outcome.Mined? && saved
                                      then AfterMined(View(s.books, s.rows), s.queue[0], outcome.info, now)
                                      else View(s.books, s.rows)) &&
            t.inflight == s.inflight - {s.queue[0]} && t.queue == s.queue[1..] &&
            t.threads == s.threads + [ToEnqueue([])]
  {
    hide Forget, RowMined, Alone, Move;
    var i, h := |s.threads|, s.queue[0];
    var s1 := Step(s, Receive);
    AloneAppend(s1, i, [outcome, StatementOutcome(saved)], [Succeeds, Succeeds], now);
    QueryAlone(s1, i, h, outcome, saved, now);
    var s2 := Alone(s1, i, [outcome, StatementOutcome(saved)], now);
    ReleaseAlone(s2, i, h, now);
    assert s2.threads[i := ToEnqueue([])] == s1.threads[i := ToEnqueue([])] == s.threads + [ToEnqueue([])];
    assert (s.inflight - {h}) - {h} == s.inflight - {h};
  }

  /** The outcomes of a list of statements. */
  function StatementOutcomes(oks: seq<bool>): seq<Outcome> {
    seq(|oks|, k requires 0 <= k < |oks| => StatementOutcome(oks[k]))
  }

  lemma NothingDropped(rows: Rows, now: int)
    ensures RowsDropped(rows, Marked([], []), now) == rows
  {
    assert Marked([], []) == {};
  }

  lemma DropOneFirst(rows: Rows, todo: seq<string>, oks: seq<bool>, now: int)
    requires todo != [] && |oks| == |todo|
    ensures RowsDropped(if oks[0] then RowDropped(rows, todo[0], now) else rows, Marked(todo[1..], oks[1..]), now)
         == RowsDropped(rows, Marked(todo, oks), now)
  {
    var rest, all := Marked(todo[1..], oks[1..]), Marked(todo, oks);
    forall h
      ensures h in all <==> h in rest || (oks[0] && h == todo[0])
    {
      if i :| 0 <= i < |todo[1..]| && oks[1..][i] && todo[1..][i] == h {
        assert oks[i + 1] && todo[i + 1] == h;
      }
      if i :| 0 < i < |todo| && oks[i] && todo[i] == h {
        assert oks[1..][i - 1] && todo[1..][i - 1] == h;
      }
    }
  }

  /** The rows after the statements for a list of hashes, one after the other. */
  lemma {:induction false} DropAlone(s: State, i: nat, todo: seq<string>, oks: seq<bool>, now: int)
    requires i < |s.threads| && s.threads[i] == ToMarkDropped(todo) && |oks| == |todo|
    ensures Alone(s, i, StatementOutcomes(oks), now)
         == s.(rows := RowsDropped(s.rows, Marked(todo, oks), now), threads := s.threads[i := ToMarkDropped([])])
    decreases |todo|
  {
    hide RowsDropped, RowDropped, Marked;
    if todo == [] {
      NothingDropped(s.rows, now);
      assert s.threads[i := ToMarkDropped([])] == s.threads && oks == [];
    } else {
      var m := Step(s, Advance(i, StatementOutcome(oks[0]), now));
      assert StatementOutcomes(oks)[1..] == StatementOutcomes(oks[1..]);
      DropAlone(m, i, todo[1..], oks[1..], now);
      DropOneFirst(s.rows, todo, oks, now);
      UpdateTwice(s.threads, i, m.threads[i], ToMarkDropped([]));
    }
  }

  /**
   * A sweep without interleaving has the effect that the single-threaded tracker's method has, in any map order
   * and whichever of its statements fail.
   */
  lemma SweepAloneIsAfterSweep(s: State, cutoff: int, order: seq<string>, oks: seq<bool>, now: int)
    requires (set h | h in order) == Expired(s.books, cutoff) && |oks| == |order|
    ensures var t := Alone(Step(s, Sweep(cutoff, order)), |s.threads|, StatementOutcomes(oks), now);
            t.books == Expire(s.books, cutoff) && t.rows == RowsDropped(s.rows, Marked(order, oks), now) &&
            (false !in oks ==> View(t.books, t.rows) == AfterSweep(View(s.books, s.rows), cutoff, now)) &&
            t.inflight == s.inflight && t.queue == s.queue && t.threads == s.threads + [ToMarkDropped([])]
  {
    hide Expire, Expired, Alone, RowsDropped;
    var s1 := Step(s, Sweep(cutoff, order));
    DropAlone(s1, |s.threads|, order, oks, now);
    assert s1.threads[|s.threads| := ToMarkDropped([])] == s.threads + [ToMarkDropped([])];
    if false !in oks {
      assert Marked(order, oks) == set h | h in order;
    }
  }
}
