/** The logs and checkpoints tables of internal/store/sqlite.go. */
module Store {
  import opened Prelude
  import opened Chains
  import opened LogTable

  datatype Checkpoint = Checkpoint(start: uint64, end: uint64, hash: string)

  /** The stored rows as a value. */
  datatype Db = Db(logs: Table, checkpoints: seq<Checkpoint>)

  /** In insertion order the checkpoints cover lo to hi - 1 from left to right, without gap or overlap. */
  ghost predicate Tiles(cps: seq<Checkpoint>, lo: nat, hi: nat) {
    if cps == [] then lo == hi
    else
      var last := cps[|cps| - 1];
      lo <= last.start <= last.end && hi == last.end + 1 && Tiles(cps[..|cps| - 1], lo, last.start)
  }

  /** Block b lies in checkpoint c. */
  predicate Covers(c: Checkpoint, b: nat) {
    c.start <= b <= c.end
  }

  lemma {:induction false} TilesWithin(cps: seq<Checkpoint>, lo: nat, hi: nat)
    requires Tiles(cps, lo, hi)
    ensures lo <= hi
    ensures forall c | c in cps :: lo <= c.start <= c.end < hi
  {
    if cps != [] {
      var n := |cps| - 1;
      TilesWithin(cps[..n], lo, cps[n].start);
      assert forall c | c in cps :: c in cps[..n] || c == cps[n];
    }
  }

  /** Tiling means that exactly one checkpoint covers each block of the range, and none any other block. */
  lemma {:induction false} TilesCoverOnce(cps: seq<Checkpoint>, lo: nat, hi: nat, b: nat)
    requires Tiles(cps, lo, hi)
    ensures lo <= b < hi <==> exists i :: 0 <= i < |cps| && Covers(cps[i], b)
    ensures forall i, j | 0 <= i < j < |cps| :: !(Covers(cps[i], b) && Covers(cps[j], b))
  {
    TilesWithin(cps, lo, hi);
    if cps != [] {
      var n := |cps| - 1;
      var rest, last := cps[..n], cps[n];
      TilesCoverOnce(rest, lo, last.start, b);
      assert forall i | 0 <= i < n :: cps[i] == rest[i];
      if lo <= b < last.start {
        var i :| 0 <= i < |rest| && Covers(rest[i], b);
        assert Covers(cps[i], b);
      } else if last.start <= b < hi {
        assert Covers(cps[n], b);
      }
    }
  }

  lemma {:induction false} TilesAppend(a: seq<Checkpoint>, b: seq<Checkpoint>, lo: nat, mid: nat, hi: nat)
    requires Tiles(a, lo, mid) && Tiles(b, mid, hi)
    ensures Tiles(a + b, lo, hi)
  {
    if b == [] {
      assert a + b == a;
    } else {
      var n := |b| - 1;
      TilesAppend(a, b[..n], lo, mid, b[n].start);
      TilesWithin(a, lo, mid);
      TilesWithin(b[..n], mid, b[n].start);
      assert (a + b)[..|a + b| - 1] == a + b[..n];
    }
  }

  /** ORDER BY end_block DESC LIMIT 1 may answer this checkpoint. */
  predicate IsNewest(cps: seq<Checkpoint>, cp: Checkpoint) {
    cp in cps && forall c | c in cps :: c.end <= cp.end
  }

  /** The same among the checkpoints that end before a block. */
  predicate IsNewestBefore(cps: seq<Checkpoint>, block: nat, cp: Checkpoint) {
    cp in cps && cp.end < block && forall c | c in cps && c.end < block :: c.end <= cp.end
  }

  /** The newest of tiled checkpoints is the last one, and no other. */
  lemma TiledNewest(cps: seq<Checkpoint>, lo: nat, hi: nat, cp: Checkpoint)
    requires Tiles(cps, lo, hi) && cps != []
    ensures IsNewest(cps, cp) <==> cp == cps[|cps| - 1]
    ensures cps[|cps| - 1].end + 1 == hi
  {
    var rest, last := cps[..|cps| - 1], cps[|cps| - 1];
    TilesWithin(rest, lo, last.start);
    assert forall c | c in cps :: c in rest || c == last;
  }

  /** The one before the last is the only answer to the second query; with one checkpoint there is none. */
  lemma TiledNewestBefore(cps: seq<Checkpoint>, lo: nat, hi: nat, cp: Checkpoint)
    requires Tiles(cps, lo, hi) && cps != []
    ensures var last := cps[|cps| - 1];
            if |cps| == 1 then last.start == lo && forall c | c in cps :: last.start <= c.end
            else cps[|cps| - 2].end + 1 == last.start && cps[|cps| - 2].end < last.start &&
                 cps[|cps| - 2] in cps && (IsNewestBefore(cps, last.start, cp) <==> cp == cps[|cps| - 2])
  {
    var rest, last := cps[..|cps| - 1], cps[|cps| - 1];
    TilesWithin(rest, lo, last.start);
    assert forall c | c in cps :: c in rest || c == last;
    assert forall c | c in rest :: c in cps;
    if |cps| > 1 {
      TiledNewest(rest, lo, last.start, cp);
      assert rest[|rest| - 1] == cps[|cps| - 2];
    }
  }

  /** What is left of the checkpoints after deleting those that start at block b or later. */
  function StartingBefore(cps: seq<Checkpoint>, b: nat): seq<Checkpoint> {
    if cps == [] then []
    else
      var last := cps[|cps| - 1];
      StartingBefore(cps[..|cps| - 1], b) + (if last.start < b then [last] else [])
  }

  lemma {:induction false} StartingBeforeKeepsAll(cps: seq<Checkpoint>, b: nat)
    requires forall c | c in cps :: c.start < b
    ensures StartingBefore(cps, b) == cps
  {
    if cps != [] {
      StartingBeforeKeepsAll(cps[..|cps| - 1], b);
      assert cps == cps[..|cps| - 1] + [cps[|cps| - 1]];
    }
  }

  /** Exactly the checkpoints that start before block b are left, each as often as before, tiled or not. */
  lemma {:induction false} StartingBeforeMeaning(cps: seq<Checkpoint>, b: nat)
    ensures forall c :: c in StartingBefore(cps, b) <==> c in cps && c.start < b
    ensures forall c ::
              multiset(StartingBefore(cps, b))[c] == if c.start < b then multiset(cps)[c] else 0
  {
    if cps != [] {
      var n := |cps| - 1;
      StartingBeforeMeaning(cps[..n], b);
      assert cps == cps[..n] + [cps[n]];
    }
  }

  /** And they keep their order: what is left of a sequence is what is left of its parts. */
  lemma {:induction false} StartingBeforeKeepsOrder(first: seq<Checkpoint>, second: seq<Checkpoint>, b: nat)
    ensures StartingBefore(first + second, b) == StartingBefore(first, b) + StartingBefore(second, b)
    ensures |first| == 1 ==> StartingBefore(first, b) == if first[0].start < b then first else []
  {
    if second == [] {
      assert first + second == first;
    } else {
      var n := |second| - 1;
      StartingBeforeKeepsOrder(first, second[..n], b);
      assert (first + second)[..|first + second| - 1] == first + second[..n];
    }
    if |first| == 1 {
      assert first == [first[0]];
    }
  }

  function RolledBack(db: Db, b: nat): Db {
    Db(Below(db.logs, b), StartingBefore(db.checkpoints, b))
  }

  /** Rolling tiled checkpoints back to the newest one's start removes that checkpoint and nothing else. */
  lemma RollbackRemovesNewest(db: Db, lo: nat, hi: nat)
    requires Tiles(db.checkpoints, lo, hi) && db.checkpoints != []
    ensures var n := |db.checkpoints| - 1;
            RolledBack(db, db.checkpoints[n].start).checkpoints == db.checkpoints[..n] &&
            Tiles(db.checkpoints[..n], lo, db.checkpoints[n].start)
  {
    var n := |db.checkpoints| - 1;
    var rest, last := db.checkpoints[..n], db.checkpoints[n];
    TilesWithin(rest, lo, last.start);
    StartingBeforeKeepsAll(rest, last.start);
  }

  lemma {:induction false} NewestExists(cps: seq<Checkpoint>)
    requires cps != []
    ensures exists cp :: IsNewest(cps, cp)
  {
    var last := cps[|cps| - 1];
    var rest := cps[..|cps| - 1];
    assert cps == rest + [last];
    if rest == [] {
      assert IsNewest(cps, last);
    } else {
      NewestExists(rest);
      var cp :| IsNewest(rest, cp);
      assert IsNewest(cps, if cp.end <= last.end then last else cp);
    }
  }

  lemma {:induction false} NewestBeforeExists(cps: seq<Checkpoint>, block: nat)
    requires exists c | c in cps :: c.end < block
    ensures exists cp :: IsNewestBefore(cps, block, cp)
  {
    var last := cps[|cps| - 1];
    var rest := cps[..|cps| - 1];
    assert cps == rest + [last];
    if exists c | c in rest :: c.end < block {
      NewestBeforeExists(rest, block);
      var cp :| IsNewestBefore(rest, block, cp);
      assert IsNewestBefore(cps, block, if last.end < block && cp.end <= last.end then last else cp);
    } else {
      assert IsNewestBefore(cps, block, last);
    }
  }

  class LogStore {
    var logs: Table
    var checkpoints: seq<Checkpoint>
    /** Whether each coming statement succeeds; every statement after these succeeds. */
    var verdicts: seq<bool>
    ghost var rollbacks: nat

    constructor ()
      ensures Contents() == Db(map[], []) && rollbacks == 0
    {
      logs, checkpoints, verdicts, rollbacks := map[], [], [], 0;
    }

    function Contents(): Db
      reads this
    {
      Db(logs, checkpoints)
    }

    lemma Fields()
      ensures Contents() == Db(logs, checkpoints)
    {
    }

    /** No coming statement fails. */
    predicate Reliable()
      reads this`verdicts
    {
      false !in verdicts
    }

    method Execute() returns (ok: bool)
      modifies this`verdicts
      ensures old(Reliable()) ==> ok && Reliable()
    {
      ok := verdicts == [] || verdicts[0];
      if verdicts != [] {
        verdicts := verdicts[1..];
      }
    }

    /** One transaction: all records or none. */
    method InsertLogs(records: seq<LogRecord>) returns (ok: bool)
      modifies this`logs, this`verdicts
      ensures logs == if ok then InsertAll(old(logs), records) else old(logs)
      ensures old(Reliable()) ==> ok && Reliable()
    {
      if |records| == 0 {
        return true;
      }
      ok := Execute();
      if !ok {
        return;
      }
      var pending := logs;
      for i := 0 to |records|
        invariant pending == InsertAll(logs, records[..i])
        invariant logs == old(logs) && (old(Reliable()) ==> Reliable())
      {
        ok := Execute();
        if !ok {
          return;
        }
        assert records[..i + 1][..i] == records[..i];
        pending := InsertOne(pending, records[i]);
      }
      ok := Execute();
      if ok {
        assert records[..|records|] == records;
        logs := pending;
      }
    }

    method SaveRangeCheckpoint(cp: Checkpoint) returns (ok: bool)
      modifies this`checkpoints, this`verdicts
      ensures checkpoints == if ok then old(checkpoints) + [cp] else old(checkpoints)
      ensures old(Reliable()) ==> ok && Reliable()
    {
      ok := Execute();
      if ok {
        checkpoints := checkpoints + [cp];
      }
    }

    method LastCheckpoint() returns (ok: bool, found: Option<Checkpoint>)
      modifies this`verdicts
      ensures ok ==> (found.None? <==> checkpoints == [])
      ensures ok && found.Some? ==> IsNewest(checkpoints, found.value)
      ensures ok && found.Some? ==>
                found.value in checkpoints && forall c | c in checkpoints :: c.end <= found.value.end
      ensures old(Reliable()) ==> ok && Reliable()
    {
      found := None;
      ok := Execute();
      if ok && checkpoints != [] {
        NewestExists(checkpoints);
        var cp :| cp in checkpoints && IsNewest(checkpoints, cp);
        found := Some(cp);
      }
    }

    method CheckpointBefore(block: uint64) returns (ok: bool, found: Option<Checkpoint>)
      modifies this`verdicts
      ensures ok ==> (found.None? <==> forall c | c in checkpoints :: block <= c.end)
      ensures ok && found.Some? ==> IsNewestBefore(checkpoints, block, found.value)
      ensures ok && found.Some? ==>
                found.value in checkpoints && found.value.end < block &&
                forall c | c in checkpoints && c.end < block :: c.end <= found.value.end
      ensures old(Reliable()) ==> ok && Reliable()
    {
      found := None;
      ok := Execute();
      if ok && exists c | c in checkpoints :: c.end < block {
        NewestBeforeExists(checkpoints, block);
        var cp :| cp in checkpoints && IsNewestBefore(checkpoints, block, cp);
        found := Some(cp);
      }
    }

    /** Two statements, not one transaction: the second can fail after the first took effect. */
    method RollbackFrom(block: uint64) returns (ok: bool)
      modifies this
      ensures ok ==> Contents() == RolledBack(old(Contents()), block)
      ensures ok ==> forall c :: c in checkpoints <==> c in old(checkpoints) && c.start < block
      ensures ok ==> forall c ::
                multiset(checkpoints)[c] == if c.start < block then multiset(old(checkpoints))[c] else 0
      ensures ok ==> forall k ::
                (k in logs <==> k in old(logs) && old(logs)[k].blockNumber < block) &&
                (k in logs ==> logs[k] == old(logs)[k])
      ensures !ok ==> checkpoints == old(checkpoints)
      ensures !ok ==> logs == old(logs) || logs == Below(old(logs), block)
      ensures rollbacks == old(rollbacks) + 1
      ensures old(Reliable()) ==> ok && Reliable()
    {
      rollbacks := rollbacks + 1;
      ok := Execute();
      if !ok {
        return;
      }
      logs := Below(logs, block);
      ok := Execute();
      if !ok {
        return;
      }
      StartingBeforeMeaning(checkpoints, block);
      checkpoints := StartingBefore(checkpoints, block);
    }
  }
}
