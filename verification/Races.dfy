/**
 * When table and tracker agree under interleaving, internal/mempool/tracker.go: it is decided by the state in
 * which the last statement on a row runs.
 */
module Races {
  import opened Prelude
  import opened Decimal
  import opened Mempool
  import opened Interleaving
  import Agreement

  /** What a thread in mid-operation still owes a hash. */
  datatype Debt = TrackedMark | Removal | RowDrop

  /** Its statement marked the row and it will mark the entry; it will remove the entry; it will mark the row. */
  predicate Carries(t: Thread, d: Debt, h: string) {
    match d
    case TrackedMark => t.ToMarkTracked? && t.victim == h
    case Removal => t.ToForget? && t.hash == h
    case RowDrop => t.ToMarkDropped? && h in t.todo
  }

  ghost predicate Coming(threads: seq<Thread>, d: Debt, h: string) {
    exists i :: 0 <= i < |threads| && Carries(threads[i], d, h)
  }

  /** No thread is half way through an operation that changes both the row and the entry of the hash. */
  ghost predicate Quiet(s: State, h: string) {
    forall d :: !Coming(s.threads, d, h)
  }

  function Tracking(b: Books, h: string): Option<Status> {
    if h in b.txs then Some(b.txs[h].status) else None
  }

  /** The row has the tracked status, or is mined when nothing is tracked. */
  predicate RowAgrees(s: State, h: string) {
    Agreement.SameStatus(Agreement.Ledger(s.books, s.rows, map[]), h)
  }

  /** The next step of this thread is a statement on the row of the hash. */
  predicate Writes(rows: Rows, t: Thread, h: string) {
    match t
    case ToUpsert(tx, _) => tx.hash == h
    case ToMarkRow(_, victim, _) => victim == h && h in rows
    case ToMarkMined(hash, _) => hash == h && h in rows
    case ToMarkDropped(todo) => todo != [] && todo[0] == h && h in rows
    case _ => false
  }

  /**
   * The statement is not overtaken: a pending row is stored while the hash is tracked as pending, a dropped row
   * while it is tracked as dropped, a replaced row while it is tracked at all, and in no case does another
   * thread still owe the entry a mark or its removal. Marking a row as mined is always in time.
   */
  ghost predicate InTime(s: State, t: Thread, h: string) {
    match t
    case ToUpsert(_, _) =>
      Tracking(s.books, h) == Some(Pending) && !Coming(s.threads, TrackedMark, h) && !Coming(s.threads, Removal, h)
    case ToMarkDropped(_) =>
      Tracking(s.books, h) == Some(Dropped) && !Coming(s.threads, TrackedMark, h) && !Coming(s.threads, Removal, h)
    case ToMarkRow(_, _, _) => h in s.books.txs && !Coming(s.threads, Removal, h)
    case _ => true
  }

  predicate WritesRow(s: State, a: Action, h: string) {
    a.Advance? && a.i < |s.threads| && Writes(s.rows, s.threads[a.i], h)
  }

  /**
   * A statement that fails is missed unless the row does not need it: a replacement is needed by a pending or
   * dropped row, a drop by a pending row, when no other statement is going to mark it.
   */
  ghost predicate Missed(s: State, i: nat, h: string)
    requires i < |s.threads|
  {
    h in s.rows &&
    match s.threads[i]
    case ToMarkRow(_, _, _) => s.rows[h].status == Pending || s.rows[h].status == Dropped
    case ToMarkDropped(todo) =>
      s.rows[h].status == Pending && todo != [] && !Coming(s.threads[i := ToMarkDropped(todo[1..])], RowDrop, h)
    case _ => false
  }

  /** What a step makes of the decision so far. */
  ghost predicate Decision(s: State, a: Action, h: string, sofar: bool) {
    if !WritesRow(s, a, h) then sofar
    else if a.outcome.Fails? then sofar && !Missed(s, a.i, h)
    else InTime(s, s.threads[a.i], h)
  }

  /**
   * Whether the last statement that succeeded on the row of the hash was in time, and none that failed since was
   * missed; true when there was none.
   */
  ghost predicate UpToDate(s: State, actions: seq<Action>, h: string) {
    if actions == [] then true
    else
      var before, a := Run(s, actions[..|actions| - 1]), actions[|actions| - 1];
      Decision(before, a, h, UpToDate(s, actions[..|actions| - 1], h))
  }

  /** Row and entry as far as a last statement in time determines them; and as far as a late one does. */
  ghost predicate Kept(s: State, h: string, inTime: bool) {
    h in s.rows ==>
      var k, mark, removal := Tracking(s.books, h), Coming(s.threads, TrackedMark, h), Coming(s.threads, Removal, h);
      match s.rows[h].status
      case Pending =>
        if inTime then
          !mark && !removal && (k == Some(Pending) || (k == Some(Dropped) && Coming(s.threads, RowDrop, h)))
        else k != Some(Pending) || mark || removal
      case Dropped =>
        if inTime then !mark && !removal && k == Some(Dropped)
        else (k != Some(Pending) && k != Some(Dropped)) || mark || removal
      case Replaced =>
        if inTime then !removal && k != None && (k == Some(Replaced) || mark)
        else k == None || removal
      case Mined => inTime && (k == None || removal)
  }

  /** The hashes delivered by a run. */
  function Seen(actions: seq<Action>): set<string> {
    if actions == [] then {}
    else
      var a := actions[|actions| - 1];
      Seen(actions[..|actions| - 1]) + if a.Deliver? then {a.tx.hash} else {}
  }

  /** No hash is delivered twice. */
  ghost predicate DeliverOnce(actions: seq<Action>) {
    forall i, j | 0 <= i < j < |actions| && actions[i].Deliver? && actions[j].Deliver? ::
      actions[i].tx.hash != actions[j].tx.hash
  }

  predicate KnownThread(t: Thread, hashes: set<string>) {
    match t
    case ToMarkRow(tx, _, _) => tx.hash in hashes
    case ToMarkTracked(tx, _, _) => tx.hash in hashes
    case ToUpsert(tx, _) => tx.hash in hashes
    case ToMarkDropped(todo) => forall h | h in todo :: h in hashes
    case _ => true
  }

  /** Rows, entries, deliveries and sweeps are of delivered hashes, and no hash to be dropped is pending. */
  ghost predicate Known(s: State, hashes: set<string>) {
    s.rows.Keys <= hashes && s.books.txs.Keys <= hashes &&
    (forall t | t in s.threads :: KnownThread(t, hashes)) &&
    (forall h :: Coming(s.threads, RowDrop, h) ==> Tracking(s.books, h) != Some(Pending))
  }

  lemma ComingUpdate(threads: seq<Thread>, i: nat, t: Thread, d: Debt, h: string)
    requires i < |threads|
    ensures Coming(threads[i := t], d, h) ==> Coming(threads, d, h) || Carries(t, d, h)
    ensures Carries(t, d, h) ==> Coming(threads[i := t], d, h)
    ensures Coming(threads, d, h) && (Carries(threads[i], d, h) ==> Carries(t, d, h)) ==> Coming(threads[i := t], d, h)
  {
    var later := threads[i := t];
    assert later[i] == t;
    if Coming(threads, d, h) {
      var j :| 0 <= j < |threads| && Carries(threads[j], d, h);
      assert j != i ==> later[j] == threads[j];
    }
    if Coming(later, d, h) {
      var j :| 0 <= j < |later| && Carries(later[j], d, h);
      assert j != i ==> later[j] == threads[j];
    }
  }

  lemma ComingMore(threads: seq<Thread>, t: Thread, d: Debt, h: string)
    ensures Coming(threads + [t], d, h) <==> Coming(threads, d, h) || Carries(t, d, h)
  {
    var later := threads + [t];
    assert later[|threads|] == t;
    if Coming(threads, d, h) {
      var j :| 0 <= j < |threads| && Carries(threads[j], d, h);
      assert later[j] == threads[j];
    }
  }

  lemma CarriesNow(threads: seq<Thread>, i: nat, d: Debt, h: string)
    requires i < |threads| && Carries(threads[i], d, h)
    ensures Coming(threads, d, h)
  {
  }

  /** A statement on the row decides anew. */
  lemma WriteDecides(s: State, i: nat, outcome: Outcome, now: int, h: string, hashes: set<string>)
    requires i < |s.threads| && Writes(s.rows, s.threads[i], h) && !outcome.Fails? && Known(s, hashes)
    ensures Kept(Step(s, Advance(i, outcome, now)), h, InTime(s, s.threads[i], h))
  {
    hide Coming;
    var t := s.threads[i];
    var m := Step(s, Advance(i, outcome, now));
    assert m.threads == s.threads[i := m.threads[i]];
    ComingUpdate(s.threads, i, m.threads[i], TrackedMark, h);
    ComingUpdate(s.threads, i, m.threads[i], Removal, h);
    if t.ToMarkDropped? {
      CarriesNow(s.threads, i, RowDrop, h);
    }
  }

  /** A lock section leaves the decision: it changes the entry only as the last statement foresaw. */
  lemma SectionKeeps(s: State, i: nat, outcome: Outcome, now: int, h: string, inTime: bool)
    requires i < |s.threads| && (s.threads[i].ToMarkTracked? || s.threads[i].ToForget?) && Kept(s, h, inTime)
    ensures Kept(Step(s, Advance(i, outcome, now)), h, inTime)
  {
    hide Coming, FromNonceKey;
    var t := s.threads[i];
    var m := Step(s, Advance(i, outcome, now));
    assert m.threads == s.threads[i := m.threads[i]];
    ComingUpdate(s.threads, i, m.threads[i], TrackedMark, h);
    ComingUpdate(s.threads, i, m.threads[i], Removal, h);
    ComingUpdate(s.threads, i, m.threads[i], RowDrop, h);
    if t.ToMarkTracked? && t.victim == h {
      CarriesNow(s.threads, i, TrackedMark, h);
    }
    if t.ToForget? && t.hash == h {
      CarriesNow(s.threads, i, Removal, h);
    }
  }

  lemma RowUntouched(s: State, i: nat, outcome: Outcome, now: int, h: string)
    requires i < |s.threads| && !s.threads[i].ToMarkTracked? && !s.threads[i].ToForget?
    requires !Writes(s.rows, s.threads[i], h) || outcome.Fails?
    ensures var m := Step(s, Advance(i, outcome, now));
            m.books == s.books && (h in m.rows <==> h in s.rows) && (h in s.rows ==> m.rows[h] == s.rows[h])
  {
  }

  /** A step that is no statement on a row incurs and settles no debt for its hash. */
  lemma DebtUntouched(s: State, i: nat, outcome: Outcome, now: int, h: string, d: Debt)
    requires i < |s.threads| && !s.threads[i].ToMarkTracked? && !s.threads[i].ToForget?
    requires h in s.rows && !Writes(s.rows, s.threads[i], h)
    ensures Coming(Step(s, Advance(i, outcome, now)).threads, d, h) <==> Coming(s.threads, d, h)
  {
    hide Coming;
    var t := s.threads[i];
    var m := Step(s, Advance(i, outcome, now));
    assert m.threads == s.threads[i := m.threads[i]];
    ComingUpdate(s.threads, i, m.threads[i], d, h);
    if t.ToMarkDropped? && t.todo != [] {
      assert t.todo == [t.todo[0]] + t.todo[1..];
    }
    if Carries(t, d, h) {
      CarriesNow(s.threads, i, d, h);
    }
  }

  /** Any other step that is no statement on the row leaves the decision. */
  lemma OtherMoveKeeps(s: State, i: nat, outcome: Outcome, now: int, h: string, inTime: bool)
    requires i < |s.threads| && !s.threads[i].ToMarkTracked? && !s.threads[i].ToForget?
    requires !Writes(s.rows, s.threads[i], h) && Kept(s, h, inTime)
    ensures Kept(Step(s, Advance(i, outcome, now)), h, inTime)
  {
    hide Coming, Step, Writes;
    RowUntouched(s, i, outcome, now, h);
    if h in s.rows {
      DebtUntouched(s, i, outcome, now, h, TrackedMark);
      DebtUntouched(s, i, outcome, now, h, Removal);
      DebtUntouched(s, i, outcome, now, h, RowDrop);
    }
  }

  /** What a thread does next after a statement that failed. */
  lemma FailedStep(s: State, i: nat, outcome: Outcome, now: int, h: string)
    requires i < |s.threads| && Writes(s.rows, s.threads[i], h) && outcome.Fails?
    ensures var m := Step(s, Advance(i, outcome, now));
            m.threads == s.threads[i := m.threads[i]] &&
            match s.threads[i]
            case ToMarkRow(tx, victim, at) => m.threads[i] == ToMarkTracked(tx, victim, at)
            case ToUpsert(_, _) => m.threads[i] == ToEnqueue([])
            case ToMarkMined(hash, _) => m.threads[i] == ToRelease(hash)
            case ToMarkDropped(todo) => todo != [] && m.threads[i] == ToMarkDropped(todo[1..])
            case _ => true
  {
  }

  lemma DropsAreNotPending(s: State, hashes: set<string>, h: string)
    requires Known(s, hashes) && Coming(s.threads, RowDrop, h)
    ensures Tracking(s.books, h) != Some(Pending)
  {
  }

  /** A statement on the row that fails leaves the decision, unless it is missed. */
  lemma FailureDecides(s: State, i: nat, outcome: Outcome, now: int, h: string, inTime: bool, hashes: set<string>)
    requires i < |s.threads| && Writes(s.rows, s.threads[i], h) && outcome.Fails?
    requires Known(s, hashes) && Kept(s, h, inTime)
    ensures Kept(Step(s, Advance(i, outcome, now)), h, inTime && !Missed(s, i, h))
  {
    hide Coming, Step, Known;
    var t := s.threads[i];
    var m := Step(s, Advance(i, outcome, now));
    RowUntouched(s, i, outcome, now, h);
    FailedStep(s, i, outcome, now, h);
    ComingUpdate(s.threads, i, m.threads[i], TrackedMark, h);
    ComingUpdate(s.threads, i, m.threads[i], Removal, h);
    ComingUpdate(s.threads, i, m.threads[i], RowDrop, h);
    if t.ToMarkDropped? {
      CarriesNow(s.threads, i, RowDrop, h);
      DropsAreNotPending(s, hashes, h);
    }
  }

  /** The first section of an operation leaves the decision, unless it delivers the hash again. */
  lemma SpawnKeeps(s: State, a: Action, h: string, inTime: bool, hashes: set<string>)
    requires !a.Advance? && Enabled(s, a) && Known(s, hashes) && (a.Deliver? ==> a.tx.hash !in hashes)
    requires Kept(s, h, inTime)
    ensures Kept(Step(s, a), h, inTime)
  {
    hide Coming;
    var m := Step(s, a);
    ComingMore(s.threads, m.threads[|s.threads|], TrackedMark, h);
    ComingMore(s.threads, m.threads[|s.threads|], Removal, h);
    ComingMore(s.threads, m.threads[|s.threads|], RowDrop, h);
  }

  /** Every step leaves or takes the decision. */
  lemma StepDecides(s: State, a: Action, h: string, sofar: bool, hashes: set<string>)
    requires Enabled(s, a) && Known(s, hashes) && Kept(s, h, sofar) && (a.Deliver? ==> a.tx.hash !in hashes)
    ensures Kept(Step(s, a), h, Decision(s, a, h, sofar))
  {
    hide Kept, InTime, Missed, Writes, Known, Move;
    if !a.Advance? {
      SpawnKeeps(s, a, h, sofar, hashes);
    } else if Writes(s.rows, s.threads[a.i], h) && a.outcome.Fails? {
      FailureDecides(s, a.i, a.outcome, a.now, h, sofar, hashes);
    } else if Writes(s.rows, s.threads[a.i], h) {
      WriteDecides(s, a.i, a.outcome, a.now, h, hashes);
    } else if s.threads[a.i].ToMarkTracked? || s.threads[a.i].ToForget? {
      SectionKeeps(s, a.i, a.outcome, a.now, h, sofar);
    } else {
      OtherMoveKeeps(s, a.i, a.outcome, a.now, h, sofar);
    }
  }

  lemma DropsAreKnown(s: State, hashes: set<string>, h: string)
    requires Known(s, hashes) && Coming(s.threads, RowDrop, h)
    ensures h in hashes
  {
    var i :| 0 <= i < |s.threads| && Carries(s.threads[i], RowDrop, h);
    assert s.threads[i] in s.threads;
  }

  lemma SpawnKnown(s: State, a: Action, hashes: set<string>)
    requires !a.Advance? && Enabled(s, a) && Known(s, hashes) && (a.Deliver? ==> a.tx.hash !in hashes)
    ensures Known(Step(s, a), hashes + if a.Deliver? then {a.tx.hash} else {})
  {
    hide Coming;
    var m := Step(s, a);
    var all := hashes + if a.Deliver? then {a.tx.hash} else {};
    var t := m.threads[|s.threads|];
    forall h
      ensures Coming(m.threads, RowDrop, h) ==> Tracking(m.books, h) != Some(Pending)
    {
      ComingMore(s.threads, t, RowDrop, h);
      if Coming(s.threads, RowDrop, h) {
        DropsAreKnown(s, hashes, h);
      }
      if a.Sweep? && h in a.order {
        assert h in Expired(s.books, a.cutoff);
      }
    }
    forall u | u in m.threads
      ensures KnownThread(u, all)
    {
      assert u in s.threads || u == t;
      if a.Sweep? && u == t {
        assert forall h | h in a.order :: h in Expired(s.books, a.cutoff);
      }
    }
  }

  /** A thread goes on with hashes that it had, and adds nothing to a sweep. */
  lemma NextThreadKnown(s: State, i: nat, outcome: Outcome, now: int, h: string, hashes: set<string>)
    requires i < |s.threads| && KnownThread(s.threads[i], hashes)
    ensures var m := Step(s, Advance(i, outcome, now));
            m.threads == s.threads[i := m.threads[i]] && KnownThread(m.threads[i], hashes) &&
            (Carries(m.threads[i], RowDrop, h) ==> Carries(s.threads[i], RowDrop, h))
  {
    hide RowReplaced, RowMined, RowDropped, Upsert, MarkReplaced, Forget;
  }

  /** It writes rows that exist, or the row of its own delivery. */
  lemma RowsStayKnown(s: State, i: nat, outcome: Outcome, now: int, hashes: set<string>)
    requires i < |s.threads| && KnownThread(s.threads[i], hashes) && s.rows.Keys <= hashes
    ensures Step(s, Advance(i, outcome, now)).rows.Keys <= hashes
  {
    hide MarkReplaced, Forget;
  }

  lemma SectionsTrackNothingNew(b: Books, hash: string, h: string)
    ensures h in MarkReplaced(b, hash).txs || h in Forget(b, hash).txs ==> h in b.txs
  {
    hide FromNonceKey;
  }

  /** It tracks nothing new and makes nothing pending. */
  lemma EntriesStayKnown(s: State, i: nat, outcome: Outcome, now: int, h: string)
    requires i < |s.threads|
    ensures var m := Step(s, Advance(i, outcome, now));
            (h in m.books.txs ==> h in s.books.txs) &&
            (Tracking(m.books, h) == Some(Pending) ==> Tracking(s.books, h) == Some(Pending))
  {
    hide RowReplaced, RowMined, RowDropped, Upsert, MarkReplaced, Forget;
    var t := s.threads[i];
    StepMovesForward(s, Advance(i, outcome, now), h);
    if t.ToMarkTracked? {
      SectionsTrackNothingNew(s.books, t.victim, h);
    } else if t.ToForget? {
      SectionsTrackNothingNew(s.books, t.hash, h);
    }
  }

  lemma MoveKnown(s: State, i: nat, outcome: Outcome, now: int, hashes: set<string>)
    requires i < |s.threads| && Known(s, hashes)
    ensures Known(Step(s, Advance(i, outcome, now)), hashes)
  {
    hide Coming, Step, KnownThread, Carries;
    var m := Step(s, Advance(i, outcome, now));
    assert s.threads[i] in s.threads;
    forall h
      ensures h in m.books.txs ==> h in hashes
      ensures Coming(m.threads, RowDrop, h) ==> Tracking(m.books, h) != Some(Pending)
    {
      NextThreadKnown(s, i, outcome, now, h, hashes);
      EntriesStayKnown(s, i, outcome, now, h);
      ComingUpdate(s.threads, i, m.threads[i], RowDrop, h);
      if Carries(s.threads[i], RowDrop, h) {
        CarriesNow(s.threads, i, RowDrop, h);
      }
    }
    NextThreadKnown(s, i, outcome, now, "", hashes);
    RowsStayKnown(s, i, outcome, now, hashes);
    forall u | u in m.threads
      ensures KnownThread(u, hashes)
    {
      assert u in s.threads || u == m.threads[i];
    }
  }

  lemma {:induction false} SeenIsDelivered(actions: seq<Action>, h: string)
    ensures h in Seen(actions) <==> exists i :: 0 <= i < |actions| && actions[i].Deliver? && actions[i].tx.hash == h
  {
    if actions != [] {
      var before, a := actions[..|actions| - 1], actions[|actions| - 1];
      SeenIsDelivered(before, h);
      assert forall i | 0 <= i < |before| :: before[i] == actions[i];
    }
  }

  lemma Shorter(actions: seq<Action>)
    requires actions != [] && DeliverOnce(actions)
    ensures var a := actions[|actions| - 1];
            DeliverOnce(actions[..|actions| - 1]) && (a.Deliver? ==> a.tx.hash !in Seen(actions[..|actions| - 1]))
  {
    var before, a := actions[..|actions| - 1], actions[|actions| - 1];
    assert forall i | 0 <= i < |before| :: before[i] == actions[i];
    if a.Deliver? {
      SeenIsDelivered(before, a.tx.hash);
    }
  }

  lemma MoreKnown(s: State, hashes: set<string>, more: set<string>)
    requires Known(s, hashes) && hashes <= more
    ensures Known(s, more)
  {
  }

  lemma {:induction false} AlwaysKnown(capacity: nat, actions: seq<Action>)
    requires DeliverOnce(actions)
    ensures Known(Run(Initial(capacity), actions), Seen(actions))
  {
    if actions != [] {
      hide Known, DeliverOnce, Enabled, Move;
      var before, a := actions[..|actions| - 1], actions[|actions| - 1];
      Shorter(actions);
      AlwaysKnown(capacity, before);
      var s := Run(Initial(capacity), before);
      if !Enabled(s, a) {
        MoreKnown(s, Seen(before), Seen(actions));
      } else if a.Advance? {
        MoveKnown(s, a.i, a.outcome, a.now, Seen(before));
      } else {
        SpawnKnown(s, a, Seen(before));
      }
    }
  }

  /** In every state of a run that delivers each hash once, the decision holds. */
  lemma {:induction false} AlwaysDecided(capacity: nat, actions: seq<Action>, h: string)
    requires DeliverOnce(actions)
    ensures Kept(Run(Initial(capacity), actions), h, UpToDate(Initial(capacity), actions, h))
  {
    if actions != [] {
      hide Known, DeliverOnce, Enabled, Move, Kept, InTime, Writes, Missed;
      var before, a := actions[..|actions| - 1], actions[|actions| - 1];
      Shorter(actions);
      AlwaysDecided(capacity, before, h);
      AlwaysKnown(capacity, before);
      var s := Run(Initial(capacity), before);
      if Enabled(s, a) {
        StepDecides(s, a, h, UpToDate(Initial(capacity), before, h), Seen(before));
      }
    }
  }

  /**
   * In any interleaving that delivers each hash once, whichever statements fail, a row whose hash no thread is half
   * way through with agrees with the tracker if and only if it is up to date.
   */
  lemma AgreesIffUpToDate(capacity: nat, actions: seq<Action>, h: string)
    requires DeliverOnce(actions)
    requires h in Run(Initial(capacity), actions).rows && Quiet(Run(Initial(capacity), actions), h)
    ensures RowAgrees(Run(Initial(capacity), actions), h) <==> UpToDate(Initial(capacity), actions, h)
  {
    hide Run, UpToDate, Coming;
    AlwaysDecided(capacity, actions, h);
    var s := Run(Initial(capacity), actions);
    assert !Coming(s.threads, TrackedMark, h) && !Coming(s.threads, Removal, h) && !Coming(s.threads, RowDrop, h);
  }

  /** Every statement on a row succeeds and is in time. */
  ghost predicate EveryWriteInTime(s: State, actions: seq<Action>) {
    forall n, h | 0 <= n < |actions| && WritesRow(Run(s, actions[..n]), actions[n], h) ::
      !actions[n].outcome.Fails? && InTime(Run(s, actions[..n]), Run(s, actions[..n]).threads[actions[n].i], h)
  }

  lemma {:induction false} EveryMeansUpToDate(s: State, actions: seq<Action>, h: string)
    requires EveryWriteInTime(s, actions)
    ensures UpToDate(s, actions, h)
  {
    if actions != [] {
      hide InTime, WritesRow, Missed;
      var before := actions[..|actions| - 1];
      forall n, g | 0 <= n < |before| && WritesRow(Run(s, before[..n]), before[n], g)
        ensures !before[n].outcome.Fails? && InTime(Run(s, before[..n]), Run(s, before[..n]).threads[before[n].i], g)
      {
        assert before[..n] == actions[..n] && before[n] == actions[n];
      }
      EveryMeansUpToDate(s, before, h);
    }
  }

  /** When every statement is in time, table and tracker agree wherever no operation is half way through. */
  lemma AgreeWhenEveryWriteInTime(capacity: nat, actions: seq<Action>, h: string)
    requires DeliverOnce(actions) && EveryWriteInTime(Initial(capacity), actions)
    requires Quiet(Run(Initial(capacity), actions), h)
    ensures RowAgrees(Run(Initial(capacity), actions), h)
  {
    hide Run, UpToDate, EveryWriteInTime, Quiet;
    EveryMeansUpToDate(Initial(capacity), actions, h);
    if h in Run(Initial(capacity), actions).rows {
      AgreesIffUpToDate(capacity, actions, h);
    }
  }
}
