/**
 * A chunk whose requests meet different chains, internal/extract/extract.go: its rows come from the chain that
 * answered the logs, its timestamps from those that answered headers, its checkpoint from the last answer.
 */
module Mixed {
  import opened Prelude
  import opened Chains
  import opened LogTable
  import opened Store
  import opened Rpc
  import opened Extract
  import opened Reorg
  import opened Repair

  lemma {:induction false} LogsCarryHashes(filter: Filter, c: seq<Block>, lo: nat, hi: nat)
    ensures forall l | l in LogsBetween(filter, c, lo, hi) ::
              l.blockNumber < |c| && l.blockHash == c[l.blockNumber].hash
    decreases hi
  {
    if lo < hi {
      LogsCarryHashes(filter, c, lo, hi - 1);
    }
  }

  /** The rows that a chunk inserts are of the chain that answered its logs. */
  lemma ChunkRowsAreOfItsLogs(feed: Feed, fates: seq<Fate>, values: map<uint64, Header>, m: Table, n: Table,
                              current: uint64, end: uint64, k: RowKey)
    requires ChunkInserted(feed, fates, values, m, n, current, end) && k in n && k !in m
    ensures n[k].blockNumber < |fates[0].chain| && n[k].blockHash == fates[0].chain[n[k].blockNumber].hash
  {
    var logs := LogsBetween(feed.filter, fates[0].chain, current, end + 1);
    var rows := RowsFor(feed, logs, values);
    InsertAllMeaning(m, rows);
    var i :| 0 <= i < |rows| && rows[i] == n[k];
    LogsCarryHashes(feed.filter, fates[0].chain, current, end + 1);
    assert logs[i] in logs;
  }

  lemma OneMoreTile(before: seq<Checkpoint>, lo: nat, cp: Checkpoint)
    requires Tiles(before, lo, cp.start) && lo <= cp.start <= cp.end
    ensures Tiles(before + [cp], lo, cp.end + 1)
  {
    assert (before + [cp])[..|before|] == before;
  }

  /**
   * When the chain changes between a chunk's request for logs and its last request, the checkpoint vouches for
   * rows of another chain: if the last answer came from b, a pass that meets b finds no reorg, whatever chain
   * the rows are of.
   */
  lemma MixedChunkLooksClean(fates: seq<Fate>, left: seq<Fate>, before: seq<Checkpoint>, after: seq<Checkpoint>,
                             lo: nat, current: uint64, end: uint64, later: seq<Fate>, d: Detection)
    requires ChunkSaved(fates, left, before, after, current, end) && current <= end
    requires Tiles(before, lo, current)
    requires later != [] && later[0].Up? && later[0].chain == fates[|fates| - |left| - 1].chain
    requires Detected(later, after, d)
    ensures d.Clean?
  {
    hide Tiles, Detected;
    var cp := Checkpoint(current, end, LastAnswer(fates, left, end).value.hash);
    TilesWithin(before, lo, current);
    OneMoreTile(before, lo, cp);
    DetectedOnTiles(later, after, lo, end + 1, d);
  }

  /** What a chunk of block 0 inserts when the chain that answers its logs has one matching log there. */
  lemma OneRowInserted(feed: Feed, e: Entry, g: string, fates: seq<Fate>, values: map<uint64, Header>)
    requires feed.filter.Passes(e) && 0 in values
    requires fates != [] && fates[0].Up? && fates[0].chain == [Block(g, "", 0, [e])]
    ensures var row := RowsFor(feed, [Log(e, 0, g)], values)[0];
            row.key == RowKey(feed.chainId, e.txHash, e.logIndex) && row.blockHash == g &&
            ChunkInserted(feed, fates, values, map[], map[row.key := row], 0, 0)
  {
    OneLog(feed.filter, fates[0].chain, e);
    var rows := RowsFor(feed, [Log(e, 0, g)], values);
    assert rows == [rows[0]];
    InsertSingle(map[], rows[0]);
  }

  /** A chunk served by a, b and b: a's row with a's hash, under a checkpoint with b's, and b has no such row. */
  lemma MixedChunkKeepsForeignRow(feed: Feed, e: Entry, g: string, h: string, a: Chain, b: Chain)
    requires feed.filter.Passes(e) && g != h && a == [Block(g, "", 0, [e])] && b == [Block(h, "", 0, [])]
    ensures var fates, values := [Up(a, 1), Up(b, 1), Up(b, 1)], map[0 := HeaderOf(b, 0)];
            var row := RowsFor(feed, [Log(e, 0, g)], values)[0];
            CacheGrew(fates, map[], values) &&
            ChunkInserted(feed, fates, values, map[], map[row.key := row], 0, 0) && row.blockHash == g &&
            ChunkSaved(fates, [], [], [Checkpoint(0, 0, h)], 0, 0) && TableOf(feed, b, 0, 1) == map[]
  {
    hide Records, TableOf, ChunkInserted, RowsFor;
    var fates, values := [Up(a, 1), Up(b, 1), Up(b, 1)], map[0 := HeaderOf(b, 0)];
    NoLogInBlockZero(feed, b);
    OneRowInserted(feed, e, g, fates, values);
    assert fates[1] in fates && HeaderAt(fates[1], 0) == Some(values[0]);
  }

  /** With unique keys an inserted row is there unless its key was taken before. */
  lemma NewRowIsThere(m: Table, rs: seq<LogRecord>, r: LogRecord)
    requires UniqueKeys(rs) && r in rs && r.key !in m
    ensures r.key in InsertAll(m, rs) && InsertAll(m, rs)[r.key] == r
  {
    UniqueKeysKeepEveryRow(rs);
    InsertAllAgrees(m, map[], rs, r.key);
  }

  /** Two inserts on top of one table make the same table exactly when they bring the same new rows. */
  lemma SameInsertIff(m: Table, rows: seq<LogRecord>, want: seq<LogRecord>)
    requires UniqueKeys(rows) && UniqueKeys(want) && forall r | r in want :: r.key !in m
    ensures InsertAll(m, rows) == InsertAll(m, want)
       <==> (forall r | r in rows && r.key !in m :: r in want) && (forall r | r in want :: r in rows)
  {
    hide InsertAll, UniqueKeys;
    var n, t := InsertAll(m, rows), InsertAll(m, want);
    InsertAllMeaning(m, rows);
    InsertAllMeaning(m, want);
    forall r | r in rows && r.key !in m
      ensures r.key in n && n[r.key] == r
    {
      NewRowIsThere(m, rows, r);
    }
    forall r | r in want
      ensures r.key in t && t[r.key] == r
    {
      NewRowIsThere(m, want, r);
    }
    if (forall r | r in rows && r.key !in m :: r in want) && (forall r | r in want :: r in rows) {
      forall k
        ensures k in n <==> k in t
        ensures k in n ==> n[k] == t[k]
      {
        if k in n && k !in m {
          assert n[k] in want;
        }
        if k in t && k !in m {
          assert t[k] in rows;
        }
      }
      assert n.Keys == t.Keys;
    }
  }

  /** When all keys are unique, the later rows are new to the table of the earlier ones. */
  lemma LaterRowsAreNew(a: seq<LogRecord>, b: seq<LogRecord>, r: LogRecord)
    requires UniqueKeys(a + b) && r in b
    ensures r.key !in InsertAll(map[], a)
  {
    hide InsertAll;
    InsertAllMeaning(map[], a);
    var j :| 0 <= j < |b| && b[j] == r;
    assert (a + b)[|a| + j] == r;
    assert forall i | 0 <= i < |a| :: a[i] == (a + b)[i] && a[i].key != r.key;
  }

  lemma LaterKeysAreUnique(a: seq<LogRecord>, b: seq<LogRecord>)
    requires UniqueKeys(a + b)
    ensures UniqueKeys(b)
  {
    assert forall j | 0 <= j < |b| :: b[j] == (a + b)[|a| + j];
  }

  /** The rows of a chain's next blocks have keys of their own. */
  lemma NextRowsAreNew(feed: Feed, b: seq<Block>, start: nat, current: nat, hi: nat)
    requires start <= current <= hi && UniqueKeys(Records(feed, b, start, hi))
    ensures UniqueKeys(Records(feed, b, current, hi))
    ensures forall r | r in Records(feed, b, current, hi) :: r.key !in TableOf(feed, b, start, current)
  {
    hide Records, InsertAll, UniqueKeys;
    RecordsSplit(feed, b, start, current, hi);
    LaterKeysAreUnique(Records(feed, b, start, current), Records(feed, b, current, hi));
    forall r | r in Records(feed, b, current, hi)
      ensures r.key !in TableOf(feed, b, start, current)
    {
      LaterRowsAreNew(Records(feed, b, start, current), Records(feed, b, current, hi), r);
    }
  }

  /**
   * A chunk on top of b's table makes b's table, whichever chains answered, if and only if every row whose key is
   * new is one of b's rows of those blocks, and each of those is among the rows.
   */
  lemma MixedChunkIsExactIff(feed: Feed, b: seq<Block>, fates: seq<Fate>, values: map<uint64, Header>, m: Table,
                             n: Table, start: nat, current: uint64, end: uint64)
    requires start <= current <= end && m == TableOf(feed, b, start, current)
    requires ChunkInserted(feed, fates, values, m, n, current, end)
    requires UniqueKeys(Records(feed, b, start, end + 1))
    requires UniqueKeys(RowsFor(feed, LogsBetween(feed.filter, fates[0].chain, current, end + 1), values))
    ensures var rows := RowsFor(feed, LogsBetween(feed.filter, fates[0].chain, current, end + 1), values);
            var want := Records(feed, b, current, end + 1);
            n == TableOf(feed, b, start, end + 1)
            <==> (forall r | r in rows && r.key !in m :: r in want) && (forall r | r in want :: r in rows)
  {
    hide Records, InsertAll, RowsFor, LogsBetween, UniqueKeys, AllCached, TableOf;
    TableExtends(feed, b, start, current, end + 1);
    NextRowsAreNew(feed, b, start, current, end + 1);
    SameInsertIff(m, RowsFor(feed, LogsBetween(feed.filter, fates[0].chain, current, end + 1), values),
                  Records(feed, b, current, end + 1));
  }

  /** Chains that agree up to hi have the same logs below hi. */
  lemma SharedLogs(filter: Filter, c: seq<Block>, b: seq<Block>, lo: nat, hi: nat)
    requires hi <= |c| && hi <= |b| && c[..hi] == b[..hi]
    ensures LogsBetween(filter, c, lo, hi) == LogsBetween(filter, b, lo, hi)
  {
    LogsOfPrefix(filter, c[..hi], c, lo, hi);
    LogsOfPrefix(filter, b[..hi], b, lo, hi);
  }

  /**
   * If the chain that answered the logs has at the chunk's last block the hash that was saved, and the cached
   * headers are those of the chain b that gave it, the chunk on top of b's table is exact.
   */
  lemma SavedHashMakesExact(feed: Feed, b: seq<Block>, fates: seq<Fate>, values: map<uint64, Header>, m: Table,
                            n: Table, start: nat, current: uint64, end: uint64)
    requires start <= current <= end && m == TableOf(feed, b, start, current) && Reflects(values, b)
    requires ChunkInserted(feed, fates, values, m, n, current, end)
    requires HashLinked(fates[0].chain) && HashLinked(b) && CollisionFree(fates[0].chain, b)
    requires end < |fates[0].chain| && end < |b| && fates[0].chain[end].hash == b[end].hash
    ensures n == TableOf(feed, b, start, end + 1)
  {
    hide Records, InsertAll, RowsFor, LogsBetween, AllCached, TableOf, Reflects, HashLinked, CollisionFree;
    SameHashSamePrefix(fates[0].chain, b, end);
    SharedLogs(feed.filter, fates[0].chain, b, current, end + 1);
    RowsForChain(feed, b, current, end + 1, values);
    TableExtends(feed, b, start, current, end + 1);
  }

  lemma RowsCarryHashes(feed: Feed, b: seq<Block>, lo: nat, hi: nat, r: LogRecord)
    requires r in Records(feed, b, lo, hi)
    ensures lo <= r.blockNumber < hi && r.blockNumber < |b| && r.blockHash == b[r.blockNumber].hash
  {
    var logs := LogsBetween(feed.filter, b, lo, hi);
    LogsCarryHashes(feed.filter, b, lo, hi);
    LogsInRange(feed.filter, b, lo, hi);
    var i :| 0 <= i < |Records(feed, b, lo, hi)| && Records(feed, b, lo, hi)[i] == r;
    assert logs[i] in logs;
  }

  /** Conversely, a chunk that is exact shares with b everything up to the block of any of its new rows. */
  lemma ExactChunkSharesBlocks(feed: Feed, b: seq<Block>, fates: seq<Fate>, values: map<uint64, Header>, m: Table,
                               n: Table, start: nat, current: uint64, end: uint64, k: RowKey)
    requires start <= current <= end && m == TableOf(feed, b, start, current)
    requires ChunkInserted(feed, fates, values, m, n, current, end) && n == TableOf(feed, b, start, end + 1)
    requires HashLinked(fates[0].chain) && HashLinked(b) && CollisionFree(fates[0].chain, b)
    requires k in n && k !in m
    ensures var x := n[k].blockNumber;
            x < |fates[0].chain| && x < |b| && fates[0].chain[..x + 1] == b[..x + 1]
  {
    hide Records, InsertAll, LogsBetween, RowsFor, AllCached, TableOf, HashLinked, CollisionFree;
    ChunkRowsAreOfItsLogs(feed, fates, values, m, n, current, end, k);
    TableExtends(feed, b, start, current, end + 1);
    InsertAllMeaning(m, Records(feed, b, current, end + 1));
    RowsCarryHashes(feed, b, current, end + 1, n[k]);
    SameHashSamePrefix(fates[0].chain, b, n[k].blockNumber);
  }

  /**
   * A chunk whose last block holds one of b's logs is exact if and only if the chain that answered the logs has the
   * saved hash there: a single comparison of hashes would have told.
   */
  lemma ExactIffSavedHash(feed: Feed, b: seq<Block>, fates: seq<Fate>, left: seq<Fate>, values: map<uint64, Header>,
                          before: Db, after: Db, start: nat, current: uint64, end: uint64, r: LogRecord)
    requires start <= current <= end && before.logs == TableOf(feed, b, start, current) && Reflects(values, b)
    requires ChunkInserted(feed, fates, values, before.logs, after.logs, current, end)
    requires ChunkSaved(fates, left, before.checkpoints, after.checkpoints, current, end)
    requires b == fates[|fates| - |left| - 1].chain
    requires HashLinked(fates[0].chain) && HashLinked(b) && CollisionFree(fates[0].chain, b)
    requires UniqueKeys(Records(feed, b, start, end + 1)) && r in Records(feed, b, current, end + 1) &&
             r.blockNumber == end
    ensures after.logs == TableOf(feed, b, start, end + 1)
       <==> end < |fates[0].chain| && fates[0].chain[end].hash == after.checkpoints[|before.checkpoints|].hash
  {
    hide Records, InsertAll, LogsBetween, RowsFor, AllCached, TableOf, HashLinked, CollisionFree, UniqueKeys, Reflects;
    var c := fates[0].chain;
    if end < |c| && c[end].hash == b[end].hash {
      SavedHashMakesExact(feed, b, fates, values, before.logs, after.logs, start, current, end);
    }
    if after.logs == TableOf(feed, b, start, end + 1) {
      NextRowsAreNew(feed, b, start, current, end + 1);
      TableExtends(feed, b, start, current, end + 1);
      NewRowIsThere(before.logs, Records(feed, b, current, end + 1), r);
      ExactChunkSharesBlocks(feed, b, fates, values, before.logs, after.logs, start, current, end, r.key);
      assert c[..end + 1][end] == b[..end + 1][end];
    }
  }
}
