/** No schedule of a backfill gets stuck: whatever has happened so far, it can still be completed. */
module Progress {
  import opened Prelude
  import opened Chains
  import opened LogTable
  import opened Store
  import opened Backfilling
  import Gaps

  /** The state after the actions. */
  function At(plan: Plan, concurrency: nat, base: Db, actions: seq<Action>): State {
    Run(plan, Initial(plan, concurrency, base), actions)
  }

  predicate AtRest(w: Worker) {
    w.Idle? || w.Quit?
  }

  /** Nobody sent an error, closed the channel or cancelled anything in between, and the producer stood still. */
  predicate OnlyWorked(s: State, t: State) {
    t == s.(workers := t.workers, db := t.db, inserted := t.inserted) && |t.workers| == |s.workers|
  }

  lemma {:induction false} LoopOnlyWorks(plan: Plan, s: State, actions: seq<Action>, i: nat)
    requires forall a | a in actions :: Gaps.LoopStep(a, i)
    ensures var t := Run(plan, s, actions);
            OnlyWorked(s, t) && forall j | 0 <= j < |s.workers| && j != i :: t.workers[j] == s.workers[j]
  {
    hide AfterSave, ChunkEnd, BlockRange, Records, InsertAll;
    if actions != [] {
      LoopOnlyWorks(plan, s, actions[..|actions| - 1], i);
      assert Gaps.LoopStep(actions[|actions| - 1], i);
    }
  }

  lemma SavedOrSame(plan: Plan, base: Db, s: State, i: nat, steps: seq<Action>)
    requires Shape(plan, base, s) && i < |s.workers|
    requires steps == if s.workers[i].Saving? then [Save(i)] else []
    ensures i < |Run(plan, s, steps).workers| && !Run(plan, s, steps).workers[i].Saving?
  {
    if s.workers[i].Saving? {
      WorkerSteps(plan, base, s, i);
      assert steps[..0] == [];
    }
  }

  /** A worker can finish its job. */
  lemma WorkerCanRest(plan: Plan, concurrency: nat, base: Db, actions: seq<Action>, i: nat) returns (more: seq<Action>)
    requires plan.Valid() && i < concurrency
    ensures var s, t := At(plan, concurrency, base, actions), At(plan, concurrency, base, actions + more);
            |s.workers| == concurrency && OnlyWorked(s, t) && AtRest(t.workers[i]) &&
            forall j | 0 <= j < concurrency && j != i :: t.workers[j] == s.workers[j]
  {
    hide Run, Initial, Conserved, Stored;
    var s0 := Initial(plan, concurrency, base);
    RunInv(plan, concurrency, base, actions);
    var s := Run(plan, s0, actions);
    more := [];
    if s.workers[i].Saving? {
      more := [Save(i)];
    }
    Gaps.RunAppend(plan, s0, actions, more);
    LoopOnlyWorks(plan, s, more, i);
    RunInv(plan, concurrency, base, actions + more);
    var m := Run(plan, s, more);
    SavedOrSame(plan, base, s, i, more);
    if m.workers[i].Busy? {
      assert m.workers[i] in m.workers;
      var rest := Gaps.WorkerCanFinish(plan, m, i);
      Gaps.RunAppend(plan, s0, actions + more, rest);
      LoopOnlyWorks(plan, m, rest, i);
      assert actions + more + rest == actions + (more + rest);
      more := more + rest;
    }
  }

  lemma AtIsRun(plan: Plan, concurrency: nat, base: Db, actions: seq<Action>)
    requires plan.Valid()
    ensures var s := At(plan, concurrency, base, actions);
            s == Run(plan, Initial(plan, concurrency, base), actions) && |s.workers| == concurrency
  {
    RunInv(plan, concurrency, base, actions);
  }

  /** All of the first n workers can. */
  lemma {:induction false} WorkersCanRest(plan: Plan, concurrency: nat, base: Db, actions: seq<Action>, n: nat)
    returns (more: seq<Action>)
    requires plan.Valid() && n <= concurrency
    ensures var s, t := At(plan, concurrency, base, actions), At(plan, concurrency, base, actions + more);
            |s.workers| == concurrency && OnlyWorked(s, t) && forall j | 0 <= j < n :: AtRest(t.workers[j])
  {
    hide At, AtRest;
    RunInv(plan, concurrency, base, actions);
    if n == 0 {
      more := [];
      assert actions + more == actions;
      AtIsRun(plan, concurrency, base, actions);
    } else {
      var before := WorkersCanRest(plan, concurrency, base, actions, n - 1);
      var last := WorkerCanRest(plan, concurrency, base, actions + before, n - 1);
      more := before + last;
      assert actions + before + last == actions + more;
    }
  }

  /** Nothing went wrong, and nobody is at work. */
  ghost predicate Calm(s: State) {
    !s.failed && !s.interrupted && !s.cancelled && forall w | w in s.workers :: AtRest(w)
  }

  lemma FirstTakes(plan: Plan, base: Db, s: State)
    requires Shape(plan, base, s) && NobodyLeftEarly(s) && Calm(s) && |s.workers| > 0 && s.next <= plan.end
    ensures var t := Run(plan, s, [Take(0)]);
            !t.failed && !t.interrupted && !t.cancelled && s.next < t.next && |t.workers| == |s.workers| &&
            forall j | 0 < j < |s.workers| :: AtRest(t.workers[j])
  {
    assert s.workers[0] in s.workers;
    WorkerSteps(plan, base, s, 0);
    assert [Take(0)][..0] == [];
    assert Run(plan, s, [Take(0)]) == Step(plan, s, Take(0));
  }

  /** The first worker can do all jobs that are left. */
  lemma {:induction false} JobsCanBeDone(plan: Plan, concurrency: nat, base: Db, actions: seq<Action>)
    returns (more: seq<Action>)
    requires plan.Valid() && concurrency > 0 && Calm(At(plan, concurrency, base, actions))
    ensures var t := At(plan, concurrency, base, actions + more);
            Calm(t) && t.next == plan.end + 1
    decreases plan.end + 1 - At(plan, concurrency, base, actions).next
  {
    hide Run, Initial, Conserved, Stored, NobodyLeftEarly;
    var s := At(plan, concurrency, base, actions);
    RunInv(plan, concurrency, base, actions);
    LeftMeansClosed(plan, concurrency, base, actions);
    more := [];
    assert actions + more == actions;
    if s.next <= plan.end {
      FirstTakes(plan, base, s);
      Gaps.RunAppend(plan, Initial(plan, concurrency, base), actions, [Take(0)]);
      var taken := actions + [Take(0)];
      RunInv(plan, concurrency, base, taken);
      var work := WorkerCanRest(plan, concurrency, base, taken, 0);
      var rest := JobsCanBeDone(plan, concurrency, base, taken + work);
      more := [Take(0)] + work + rest;
      assert actions + more == taken + work + rest;
    }
  }

  /** The first n workers can return. */
  lemma {:induction false} WorkersCanLeave(plan: Plan, s: State, n: nat) returns (more: seq<Action>)
    requires s.closed && n <= |s.workers| && forall w | w in s.workers :: AtRest(w)
    ensures var t := Run(plan, s, more);
            t == s.(workers := t.workers) && |t.workers| == |s.workers| &&
            (forall j | 0 <= j < n :: t.workers[j].Quit?) &&
            forall j | n <= j < |s.workers| :: t.workers[j] == s.workers[j]
  {
    more := [];
    if n > 0 {
      hide Enabled, Apply;
      var before := WorkersCanLeave(plan, s, n - 1);
      var t := Run(plan, s, before);
      if t.workers[n - 1].Idle? {
        more := before + [Leave(n - 1)];
        assert more[..|more| - 1] == before;
        Gaps.OneLeaves(plan, t, n - 1);
      } else {
        assert s.workers[n - 1] in s.workers;
        more := before;
      }
    }
  }

  lemma Stopped(plan: Plan, s: State)
    requires s.next > plan.end
    ensures Step(plan, s, Stop) == s.(closed := true)
  {
  }

  /** When all jobs are done, all can return. */
  lemma CanReturn(plan: Plan, base: Db, s: State) returns (more: seq<Action>)
    requires Shape(plan, base, s) && Calm(s) && s.next == plan.end + 1
    ensures var t := Run(plan, s, more);
            Returned(t) && !t.failed && !t.interrupted
  {
    hide Apply;
    var m := Step(plan, s, Stop);
    Stopped(plan, s);
    var leave := WorkersCanLeave(plan, m, |m.workers|);
    more := [Stop] + leave;
    Gaps.RunAppend(plan, s, [Stop], leave);
    assert [Stop][..0] == [];
    assert Run(plan, s, [Stop]) == m;
  }

  /**
   * After any steps of any schedule that brought no error and no interruption there are further steps after which
   * every worker has returned and the backfill is complete.
   */
  lemma BackfillCanComplete(plan: Plan, concurrency: nat, base: Db, actions: seq<Action>) returns (more: seq<Action>)
    requires plan.Valid() && concurrency > 0 && UniqueKeys(Wanted(plan))
    requires var s := Run(plan, Initial(plan, concurrency, base), actions); !s.failed && !s.interrupted
    ensures var t := Run(plan, Initial(plan, concurrency, base), actions + more);
            Returned(t) && !t.failed && !t.interrupted &&
            base.checkpoints <= t.db.checkpoints && Complete(plan, base, t.db)
  {
    hide Run, Initial, Conserved, Stored, Complete, Wanted, UniqueKeys;
    RunInv(plan, concurrency, base, actions);
    var rest := WorkersCanRest(plan, concurrency, base, actions, concurrency);
    var jobs := JobsCanBeDone(plan, concurrency, base, actions + rest);
    var done := actions + rest + jobs;
    RunInv(plan, concurrency, base, done);
    var leave := CanReturn(plan, base, At(plan, concurrency, base, done));
    Gaps.RunAppend(plan, Initial(plan, concurrency, base), done, leave);
    more := rest + jobs + leave;
    assert actions + more == done + leave;
    NilMeansComplete(plan, concurrency, base, actions + more);
  }
}
