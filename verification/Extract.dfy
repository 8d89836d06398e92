/** The chunked indexing loop of internal/extract/extract.go. */
module Extract {
  import opened Prelude
  import opened Chains
  import opened LogTable
  import opened Columns
  import opened Store
  import opened Rpc
  import opened Chunking

  datatype Failure = GetLogsFailed | DecodeFailed | HeaderFailed | InsertFailed | BlockHashFailed | CheckpointFailed

  class Metrics {
    var processedBlocks: nat
    var processedLogs: nat
    var rpcErrors: nat

    constructor ()
      ensures processedBlocks == processedLogs == rpcErrors == 0
    {
      processedBlocks, processedLogs, rpcErrors := 0, 0, 0;
    }
  }

  /** Cached headers of the blocks of p are those of p. */
  ghost predicate Reflects(values: map<uint64, Header>, p: seq<Block>) {
    forall n | n in values && n < |p| :: values[n] == HeaderOf(p, n)
  }

  /** Headers already fetched while processing one range. */
  class BlockCache {
    var values: map<uint64, Header>

    constructor ()
      ensures values == map[]
    {
      values := map[];
    }

    method Get(client: Client, number: uint64) returns (header: Option<Header>)
      modifies this, client`fates
      ensures if number in old(values) then
                client.fates == old(client.fates) && header == Some(old(values)[number]) && values == old(values)
              else
                client.fates == Rest(old(client.fates)) &&
                header == (if old(client.fates) == [] then None else HeaderAt(old(client.fates)[0], number)) &&
                values == (if header.Some? then old(values)[number := header.value] else old(values))
    {
      if number in values {
        return Some(values[number]);
      }
      header := client.GetBlockByNumber(number);
      if header.Some? {
        values := values[number := header.value];
      }
    }
  }

  /** The fates that are left come after those used up. */
  ghost predicate Later(now: seq<Fate>, before: seq<Fate>) {
    |now| <= |before| && now == before[|before| - |now|..]
  }

  lemma LaterTransitive(a: seq<Fate>, b: seq<Fate>, c: seq<Fate>)
    requires Later(b, a) && Later(c, b)
    ensures Later(c, a)
  {
  }

  lemma LaterReflexive(fates: seq<Fate>)
    ensures Later(fates, fates)
  {
  }

  lemma LaterRest(fates: seq<Fate>)
    ensures Later(Rest(fates), fates) && |Rest(fates)| == if |fates| == 0 then 0 else |fates| - 1
  {
  }

  lemma LaterKeeps(now: seq<Fate>, before: seq<Fate>, confirmations: nat, p: seq<Block>, min: nat, n: nat)
    requires Later(now, before)
    ensures Agree(before, p) ==> Agree(now, p)
    ensures Settled(before, confirmations, p) ==> Settled(now, confirmations, p)
    ensures Steady(before, confirmations) ==> Steady(now, confirmations)
    ensures Tolerant(before, min) ==> Tolerant(now, min)
    ensures Fixed(before, p) ==> Fixed(now, p)
    ensures Reach(before, n) ==> Reach(now, n)
    ensures AllUp(before) ==> AllUp(now)
  {
    var d := |before| - |now|;
    assert forall i | 0 <= i < |now| :: now[i] == before[i + d];
  }

  /** A header within reach is answered, unless the context is cancelled. */
  lemma ReachedHeader(fates: seq<Fate>, coming: seq<Fate>, end: nat, n: nat)
    requires Reach(fates, end) && Later(coming, fates) && n <= end
    ensures coming == [] || HeaderAt(coming[0], n).Some?
    ensures coming == [] ==> Rest(coming) == []
  {
    LaterKeeps(coming, fates, 0, [], 0, end);
  }

  /** The cache keeps what it had, and what is new to it was answered by one of the fates. */
  ghost predicate CacheGrew(fates: seq<Fate>, before: map<uint64, Header>, after: map<uint64, Header>) {
    Submap(before, after) &&
    forall n | n in after && n !in before :: exists f :: f in fates && HeaderAt(f, n) == Some(after[n])
  }

  lemma CacheGrewAgain(fates: seq<Fate>, coming: seq<Fate>, a: map<uint64, Header>, b: map<uint64, Header>,
                       c: map<uint64, Header>)
    requires Later(coming, fates) && CacheGrew(fates, a, b) && CacheGrew(coming, b, c)
    ensures CacheGrew(fates, a, c)
  {
    assert forall f | f in coming :: f in fates;
  }

  /** A cache that reflects p still does when all fates agree with p. */
  lemma CacheReflects(fates: seq<Fate>, before: map<uint64, Header>, after: map<uint64, Header>, p: seq<Block>)
    requires CacheGrew(fates, before, after) && Reflects(before, p) && Agree(fates, p)
    ensures Reflects(after, p)
  {
    forall n | n in after && n < |p|
      ensures after[n] == HeaderOf(p, n)
    {
      if n !in before {
        var f :| f in fates && HeaderAt(f, n) == Some(after[n]);
        assert p <= f.chain;
      }
    }
  }

  function CachedTimestamp(values: map<uint64, Header>, n: nat): nat {
    if n < TWO_64 && n in values then values[n].timestamp else 0
  }

  /** The rows of the logs, with the timestamps of the cached headers. */
  function RowsFor(feed: Feed, logs: seq<Log>, values: map<uint64, Header>): (rows: seq<LogRecord>)
    ensures |rows| == |logs|
  {
    seq(|logs|, i requires 0 <= i < |logs| =>
      RecordOf(feed, logs[i], DecodedOr(feed.decode(logs[i])), CachedTimestamp(values, logs[i].blockNumber)))
  }

  /** No log is of a block beyond n. */
  ghost predicate NumbersUpTo(logs: seq<Log>, n: nat) {
    forall l | l in logs :: l.blockNumber <= n
  }

  ghost predicate AllCached(logs: seq<Log>, values: map<uint64, Header>) {
    forall l | l in logs :: l.blockNumber < TWO_64 && l.blockNumber in values
  }

  /** The row tells the log, its decoded form, and the time of its block. */
  ghost predicate TellsLog(feed: Feed, l: Log, values: map<uint64, Header>, r: LogRecord) {
    r.key == RowKey(feed.chainId, l.entry.txHash, l.entry.logIndex) &&
    r.address == l.entry.address && r.topics == l.entry.topics && r.data == l.entry.data &&
    r.blockNumber == l.blockNumber && r.blockHash == l.blockHash &&
    feed.decode(l) == Some(Decoded(r.eventName, r.args)) &&
    l.blockNumber < TWO_64 && l.blockNumber in values && r.timestamp == values[l.blockNumber].timestamp
  }

  /** One row for each log, in order, with its columns. */
  lemma RowsTellLogs(feed: Feed, logs: seq<Log>, values: map<uint64, Header>)
    requires AllDecodable(feed, logs) && AllCached(logs, values)
    ensures var rows := RowsFor(feed, logs, values);
            forall i | 0 <= i < |logs| :: TellsLog(feed, logs[i], values, rows[i])
  {
  }

  /** A growing cache does not change the rows of logs whose headers it held. */
  lemma RowsForGrew(feed: Feed, logs: seq<Log>, before: map<uint64, Header>, after: map<uint64, Header>)
    requires AllCached(logs, before) && Submap(before, after)
    ensures AllCached(logs, after) && RowsFor(feed, logs, after) == RowsFor(feed, logs, before)
  {
  }

  lemma RowsForOneMore(feed: Feed, logs: seq<Log>, i: nat, values: map<uint64, Header>)
    requires i < |logs|
    ensures var l := logs[i];
            RowsFor(feed, logs[..i + 1], values) == RowsFor(feed, logs[..i], values) +
              [RecordOf(feed, l, DecodedOr(feed.decode(l)), CachedTimestamp(values, l.blockNumber))]
    ensures AllCached(logs[..i], values) && logs[i].blockNumber < TWO_64 && logs[i].blockNumber in values ==>
              AllCached(logs[..i + 1], values)
    ensures AllDecodable(feed, logs[..i]) && feed.decode(logs[i]).Some? ==> AllDecodable(feed, logs[..i + 1])
  {
    assert logs[..i + 1] == logs[..i] + [logs[i]];
  }

  /** With a cache that reflects p, these are the rows of p. */
  lemma RowsForChain(feed: Feed, p: seq<Block>, lo: nat, hi: nat, values: map<uint64, Header>)
    requires hi <= |p| && Reflects(values, p) && AllCached(LogsBetween(feed.filter, p, lo, hi), values)
    ensures RowsFor(feed, LogsBetween(feed.filter, p, lo, hi), values) == Records(feed, p, lo, hi)
  {
    LogsInRange(feed.filter, p, lo, hi);
  }

  lemma NothingCached(feed: Feed, fates: seq<Fate>, values: map<uint64, Header>)
    ensures CacheGrew(fates, values, values) && AllCached([], values) && AllDecodable(feed, []) &&
            RowsFor(feed, [], values) == []
  {
  }

  lemma NotDecodable(feed: Feed, logs: seq<Log>, i: nat)
    requires i < |logs| && feed.decode(logs[i]).None?
    ensures !AllDecodable(feed, logs)
  {
  }

  lemma LaterHead(now: seq<Fate>, before: seq<Fate>)
    requires Later(now, before) && now != []
    ensures now[0] in before
  {
    assert now[0] == before[|before| - |now|];
  }

  /** One lookup of a header: fates used up so far, and what the cache has become. */
  lemma HeaderStep(fates: seq<Fate>, coming: seq<Fate>, left: seq<Fate>, a: map<uint64, Header>, b: map<uint64, Header>,
                   c: map<uint64, Header>, n: uint64)
    requires Later(coming, fates) && CacheGrew(fates, a, b)
    requires if n in b then left == coming && c == b
             else left == Rest(coming) &&
                  c == if coming != [] && HeaderAt(coming[0], n).Some? then b[n := HeaderAt(coming[0], n).value] else b
    ensures Later(left, fates) && CacheGrew(fates, a, c) && Submap(b, c)
  {
    hide Later, Rest, HeaderAt;
    LaterRest(coming);
    LaterTransitive(fates, coming, left);
    forall k | k in c && k !in a
      ensures exists f :: f in fates && HeaderAt(f, k) == Some(c[k])
    {
      if k in b {
        var f :| f in fates && HeaderAt(f, k) == Some(b[k]);
        assert HeaderAt(f, k) == Some(c[k]);
      } else {
        LaterHead(coming, fates);
        assert HeaderAt(coming[0], k) == Some(c[k]);
      }
    }
  }

  /** One row for each log, whichever chains answer the requests for headers. */
  method BuildRecords(feed: Feed, client: Client, cache: BlockCache, logs: seq<Log>, ghost end: nat)
    returns (err: Option<Failure>, records: seq<LogRecord>)
    requires NumbersUpTo(logs, TWO_64 - 1)
    modifies cache, client`fates
    ensures Later(client.fates, old(client.fates)) && CacheGrew(old(client.fates), old(cache.values), cache.values)
    ensures err.None? ==>
              AllDecodable(feed, logs) && AllCached(logs, cache.values) && records == RowsFor(feed, logs, cache.values)
    ensures err.None? ==>
              |records| == |logs| &&
              forall i | 0 <= i < |logs| :: TellsLog(feed, logs[i], cache.values, records[i])
    ensures |old(client.fates)| <= |client.fates| + |logs|
    ensures err.Some? ==> err.value.HeaderFailed? || (err.value.DecodeFailed? && !AllDecodable(feed, logs))
    ensures Reach(old(client.fates), end) && NumbersUpTo(logs, end) ==>
              err.None? || err.value.DecodeFailed? || client.fates == []
  {
    hide RowsFor, AllCached, Later, CacheGrew, AllDecodable, Reach, TellsLog;
    records := [];
    LaterReflexive(client.fates);
    NothingCached(feed, client.fates, cache.values);
    if |logs| == 0 {
      assert logs == [];
      return None, [];
    }
    assert logs[..0] == [];
    for i := 0 to |logs|
      invariant Later(client.fates, old(client.fates)) && |old(client.fates)| <= |client.fates| + i
      invariant CacheGrew(old(client.fates), old(cache.values), cache.values)
      invariant AllDecodable(feed, logs[..i]) && AllCached(logs[..i], cache.values)
      invariant records == RowsFor(feed, logs[..i], cache.values)
    {
      var l := logs[i];
      var decoded := feed.decode(l);
      if decoded.None? {
        NotDecodable(feed, logs, i);
        return Some(DecodeFailed), [];
      }
      ghost var coming, values := client.fates, cache.values;
      var header := cache.Get(client, l.blockNumber);
      LaterRest(coming);
      HeaderStep(old(client.fates), coming, client.fates, old(cache.values), values, cache.values, l.blockNumber);
      if Reach(old(client.fates), end) && l.blockNumber <= end {
        ReachedHeader(old(client.fates), coming, end, l.blockNumber);
      }
      RowsForGrew(feed, logs[..i], values, cache.values);
      if header.None? {
        return Some(HeaderFailed), [];
      }
      RowsForOneMore(feed, logs, i, cache.values);
      records := records + [RecordOf(feed, l, decoded.value, header.value.timestamp)];
    }
    assert logs[..|logs|] == logs;
    RowsTellLogs(feed, logs, cache.values);
    return None, records;
  }

  /** Each checkpoint carries the hash that p has at its last block. */
  ghost predicate EndHashes(cps: seq<Checkpoint>, p: seq<Block>) {
    forall c | c in cps :: c.end < |p| && c.hash == p[c.end].hash
  }

  /** The checkpoints added since `before`. */
  function Added(before: seq<Checkpoint>, after: seq<Checkpoint>): seq<Checkpoint>
    requires |before| <= |after|
  {
    after[|before|..]
  }

  /** New checkpoints tile from to next - 1, after the old ones. */
  ghost predicate Tiled(before: seq<Checkpoint>, after: seq<Checkpoint>, from: nat, next: nat) {
    before <= after && Tiles(Added(before, after), from, next)
  }

  /** The tiles carry p's hashes, and the logs of p from `from` to reach - 1 were inserted. */
  ghost predicate Indexed(feed: Feed, p: seq<Block>, before: Db, after: Db, from: nat, next: nat, reach: nat) {
    Tiled(before.checkpoints, after.checkpoints, from, next) &&
    EndHashes(Added(before.checkpoints, after.checkpoints), p) &&
    from <= next <= reach && after.logs == InsertAll(before.logs, Records(feed, p, from, reach))
  }

  lemma TiledNothing(cps: seq<Checkpoint>, from: nat)
    ensures Tiled(cps, cps, from, from)
  {
  }

  /** What an indexed stretch adds to the checkpoints. */
  lemma AddedTiles(feed: Feed, p: seq<Block>, before: Db, after: Db, from: nat, next: nat, reach: nat)
    requires Indexed(feed, p, before, after, from, next, reach)
    ensures var added := Added(before.checkpoints, after.checkpoints);
            after.checkpoints == before.checkpoints + added && Tiles(added, from, next) && EndHashes(added, p)
  {
  }

  lemma TileOneMore(before: seq<Checkpoint>, mid: seq<Checkpoint>, after: seq<Checkpoint>, cp: Checkpoint, from: nat)
    requires Tiled(before, mid, from, cp.start) && cp.start <= cp.end
    requires after == mid + [cp]
    ensures Tiled(before, after, from, cp.end + 1)
    ensures Added(before, after) == Added(before, mid) + [cp]
  {
    assert Added(before, after) == Added(before, mid) + [cp];
    TilesWithin(Added(before, mid), from, cp.start);
    assert Added(before, after)[..|Added(before, after)| - 1] == Added(before, mid);
  }

  /** One more chunk of logs on top of a contiguous stretch. */
  lemma IndexOneMore(feed: Feed, p: seq<Block>, before: Table, now: Table, from: nat, mid: nat, hi: nat)
    requires from <= mid <= hi
    requires now == InsertAll(before, Records(feed, p, from, mid))
    ensures InsertAll(now, Records(feed, p, mid, hi)) == InsertAll(before, Records(feed, p, from, hi))
  {
    RecordsSplit(feed, p, from, mid, hi);
    InsertAllAppend(before, Records(feed, p, from, mid), Records(feed, p, mid, hi));
  }

  lemma IndexedNothing(feed: Feed, p: seq<Block>, db: Db, from: nat)
    ensures Indexed(feed, p, db, db, from, from, from) && Records(feed, p, from, from) == []
  {
  }

  lemma EndHashesConcat(a: seq<Checkpoint>, b: seq<Checkpoint>, p: seq<Block>)
    requires EndHashes(a, p) && EndHashes(b, p)
    ensures EndHashes(a + b, p)
  {
  }

  lemma EndHashesOne(cp: Checkpoint, p: seq<Block>)
    requires cp.end < |p| && cp.hash == p[cp.end].hash
    ensures EndHashes([cp], p)
  {
  }

  /** The step from one stretch to a longer one, for logs and checkpoints together. */
  lemma IndexedOneMore(feed: Feed, p: seq<Block>, before: Db, mid: Db, after: Db, from: nat, cp: Checkpoint)
    requires from <= cp.start <= cp.end < |p| && cp.hash == p[cp.end].hash
    requires Indexed(feed, p, before, mid, from, cp.start, cp.start)
    requires after.logs == InsertAll(mid.logs, Records(feed, p, cp.start, cp.end + 1))
    ensures after.checkpoints == mid.checkpoints ==> Indexed(feed, p, before, after, from, cp.start, cp.end + 1)
    ensures after.checkpoints == mid.checkpoints + [cp] ==>
              Indexed(feed, p, before, after, from, cp.end + 1, cp.end + 1)
    ensures |Records(feed, p, from, cp.end + 1)| ==
              |Records(feed, p, from, cp.start)| + |Records(feed, p, cp.start, cp.end + 1)|
  {
    hide InsertAll, Records, EndHashes, Tiled;
    IndexOneMore(feed, p, before.logs, mid.logs, from, cp.start, cp.end + 1);
    RecordsSplit(feed, p, from, cp.start, cp.end + 1);
    if after.checkpoints == mid.checkpoints + [cp] {
      TileOneMore(before.checkpoints, mid.checkpoints, after.checkpoints, cp, from);
      EndHashesOne(cp, p);
      EndHashesConcat(Added(before.checkpoints, mid.checkpoints), [cp], p);
    }
  }

  /** The header of block n that the last of the fates used up answers. */
  function LastAnswer(before: seq<Fate>, after: seq<Fate>, n: nat): Option<Header> {
    if |after| < |before| then HeaderAt(before[|before| - |after| - 1], n) else None
  }

  /** The checkpoint of a chunk carries the hash that the last answer gave for its last block. */
  ghost predicate ChunkSaved(fates: seq<Fate>, left: seq<Fate>, before: seq<Checkpoint>, after: seq<Checkpoint>,
                             current: uint64, end: uint64)
  {
    LastAnswer(fates, left, end).Some? &&
    after == before + [Checkpoint(current, end, LastAnswer(fates, left, end).value.hash)]
  }

  /** An answer that is the last after a part of the fates is the last after all of them. */
  lemma SavedLater(fates: seq<Fate>, coming: seq<Fate>, left: seq<Fate>, before: seq<Checkpoint>,
                   after: seq<Checkpoint>, current: uint64, end: uint64)
    requires Later(coming, fates) && ChunkSaved(coming, left, before, after, current, end)
    ensures ChunkSaved(fates, left, before, after, current, end)
  {
    assert coming[|coming| - |left| - 1] == fates[|fates| - |left| - 1];
  }

  /** Ask for the chunk's last block, save the checkpoint with its hash, and count the chunk. */
  method SaveChunk(client: Client, store: LogStore, metrics: Metrics, chunker: Chunker, current: uint64, end: uint64,
                   count: nat)
    returns (err: Option<Failure>)
    requires current <= end
    modifies client`fates, store`checkpoints, store`verdicts, metrics, chunker
    ensures client.fates == Rest(old(client.fates))
    ensures err.Some? ==>
              (err.value.BlockHashFailed? || err.value.CheckpointFailed?) && store.checkpoints == old(store.checkpoints)
    ensures err.None? ==>
              ChunkSaved(old(client.fates), client.fates, old(store.checkpoints), store.checkpoints, current, end)
    ensures chunker.current == if err.None? then Grow(chunker.max, old(chunker.current)) else old(chunker.current)
    ensures metrics.processedBlocks == old(metrics.processedBlocks) + (if err.None? then end - current + 1 else 0)
    ensures metrics.processedLogs == old(metrics.processedLogs) + (if err.None? then count else 0)
    ensures metrics.rpcErrors == old(metrics.rpcErrors)
    ensures Reach(old(client.fates), end) && old(store.Reliable()) ==>
              (err.None? || client.fates == []) && store.Reliable()
  {
    hide Reach, LogStore.Reliable, HeaderOf, Grow, Chunker.Valid;
    ghost var fates := client.fates;
    if Reach(fates, end) {
      LaterReflexive(fates);
      ReachedHeader(fates, fates, end, end);
    }
    var header := client.GetBlockByNumber(end);
    if header.None? {
      return Some(BlockHashFailed);
    }
    var saved := store.SaveRangeCheckpoint(Checkpoint(current, end, header.value.hash));
    if !saved {
      return Some(CheckpointFailed);
    }
    metrics.processedBlocks := metrics.processedBlocks + (end - current + 1);
    metrics.processedLogs := metrics.processedLogs + count;
    chunker.OnSuccess();
    return None;
  }

  /** Store the logs of blocks current..end and then their checkpoint. */
  method IndexChunk(feed: Feed, client: Client, store: LogStore, metrics: Metrics, chunker: Chunker, cache: BlockCache,
                    current: uint64, end: uint64, logs: seq<Log>)
    returns (err: Option<Failure>, ghost inserted: bool)
    requires current <= end && NumbersUpTo(logs, TWO_64 - 1)
    modifies cache, client`fates, store`logs, store`checkpoints, store`verdicts, metrics, chunker
    ensures Later(client.fates, old(client.fates)) && CacheGrew(old(client.fates), old(cache.values), cache.values)
    ensures |old(client.fates)| <= |client.fates| + |logs| + 1
    ensures inserted <==> err.None? || err.value.BlockHashFailed? || err.value.CheckpointFailed?
    ensures err.Some? ==> !err.value.GetLogsFailed?
    ensures inserted ==>
              AllCached(logs, cache.values) &&
              store.logs == InsertAll(old(store.logs), RowsFor(feed, logs, cache.values))
    ensures !inserted ==> store.logs == old(store.logs)
    ensures err.Some? ==> store.checkpoints == old(store.checkpoints)
    ensures err.None? ==>
              ChunkSaved(old(client.fates), client.fates, old(store.checkpoints), store.checkpoints, current, end)
    ensures chunker.current == if err.None? then Grow(chunker.max, old(chunker.current)) else old(chunker.current)
    ensures metrics.processedBlocks == old(metrics.processedBlocks) + (if err.None? then end - current + 1 else 0)
    ensures metrics.processedLogs == old(metrics.processedLogs) + (if err.None? then |logs| else 0)
    ensures metrics.rpcErrors == old(metrics.rpcErrors)
    ensures Reach(old(client.fates), end) && AllDecodable(feed, logs) && NumbersUpTo(logs, end) &&
            old(store.Reliable()) ==>
              (err.None? || client.fates == []) && store.Reliable()
  {
    hide *;
    inserted := false;
    ghost var fates := client.fates;
    var records;
    err, records := BuildRecords(feed, client, cache, logs, end);
    if err.Some? {
      return;
    }
    var ok := store.InsertLogs(records);
    if !ok {
      return Some(InsertFailed), false;
    }
    inserted := true;
    ghost var coming, cps := client.fates, store.checkpoints;
    LaterRest(coming);
    LaterTransitive(fates, coming, Rest(coming));
    LaterKeeps(coming, fates, 0, [], 0, end);
    err := SaveChunk(client, store, metrics, chunker, current, end, |records|);
    if err.None? {
      SavedLater(fates, coming, client.fates, cps, store.checkpoints, current, end);
    }
  }

  /** The size of the next chunk and its last block; none of the sums wraps. */
  method NextChunk(chunker: Chunker, current: uint64, to: uint64) returns (size: uint64, end: uint64)
    requires chunker.Valid() && current <= to && to + 1 < TWO_64
    ensures size == Min(chunker.current, to - current + 1) && size >= 1
    ensures end == current + size - 1 && current <= end <= to
  {
    hide Wrap;
    size := chunker.Current();
    NoWrap(to - current);
    NoWrap(to - current + 1);
    var remaining := Wrap(Wrap(to - current) + 1);
    if size > remaining {
      size := remaining;
    }
    NoWrap(current + size);
    NoWrap(current + size - 1);
    end := Wrap(Wrap(current + size) - 1);
  }

  /** A range of at most min blocks is not refused. */
  lemma OnlyLongRangesAreRefused(fates: seq<Fate>, filter: Filter, from: nat, to: nat, min: nat)
    requires fates != [] && LogsAt(fates[0], filter, from, to).TooManyResults? && Tolerant(fates, min)
    ensures to - from + 1 > min
  {
  }

  /** When the node always answers, a request fails only after the context was cancelled, and all logs decode. */
  lemma GoodAnswer(feed: Feed, fates: seq<Fate>, from: nat, end: nat, to: nat)
    requires from <= end <= to && Reach(fates, to) && TotalDecoder(feed)
    ensures fates != [] ==> !LogsAt(fates[0], feed.filter, from, end).Failed?
    ensures fates != [] && LogsAt(fates[0], feed.filter, from, end).Logs? ==>
              AllDecodable(feed, LogsAt(fates[0], feed.filter, from, end).logs)
    ensures Reach(Rest(fates), end) && (fates == [] ==> Rest(fates) == [])
  {
    hide TotalDecoder, LogsBetween, AllDecodable;
    if fates != [] {
      AnswersAreDecodable(feed, fates[0].chain, from, end + 1);
    }
  }

  /** Logs inserted up to `reach`, then again from an earlier block on, make the same table as one pass. */
  lemma ResumeSameLogs(feed: Feed, p: seq<Block>, m: Table, from: nat, next: nat, reach: nat, end: nat)
    requires from <= next <= reach <= end
    ensures InsertAll(InsertAll(m, Records(feed, p, from, reach)), Records(feed, p, next, end))
         == InsertAll(m, Records(feed, p, from, end))
  {
    hide Records, InsertAll;
    RecordsSplit(feed, p, from, next, reach);
    RecordsSplit(feed, p, next, reach, end);
    RecordsSplit(feed, p, from, reach, end);
    ReinsertIsIdempotent(m, Records(feed, p, from, next), Records(feed, p, next, reach), Records(feed, p, reach, end));
  }

  /**
   * A run that stops after any step and is run again from its first block without a checkpoint ends with
   * the same logs and the same tiling as a run that was never interrupted.
   */
  lemma ResumeEqualsUninterrupted(feed: Feed, p: seq<Block>, before: Db, mid: Db, after: Db,
                                  from: nat, next: nat, reach: nat, end: nat)
    requires Indexed(feed, p, before, mid, from, next, reach) && reach <= end
    requires Indexed(feed, p, mid, after, next, end, end)
    ensures Indexed(feed, p, before, after, from, end, end)
  {
    hide Records, InsertAll, Tiles, EndHashes;
    ResumeSameLogs(feed, p, before.logs, from, next, reach, end);
    var first, second := Added(before.checkpoints, mid.checkpoints), Added(mid.checkpoints, after.checkpoints);
    assert Added(before.checkpoints, after.checkpoints) == first + second;
    TilesAppend(first, second, from, next, end);
    EndHashesConcat(first, second, p);
  }

  datatype ChunkResult = Refused | Stored(end: uint64) | Stopped(failure: Failure)

  /** The rows inserted for a chunk are those of the logs that the first of the fates answered. */
  ghost predicate ChunkInserted(feed: Feed, fates: seq<Fate>, values: map<uint64, Header>, before: Table, after: Table,
                                current: uint64, end: uint64)
  {
    fates != [] && fates[0].Up? &&
    var logs := LogsBetween(feed.filter, fates[0].chain, current, end + 1);
    AllCached(logs, values) && after == InsertAll(before, RowsFor(feed, logs, values))
  }

  /** The number of logs that the first of the fates answers for a chunk. */
  ghost function ChunkLogs(feed: Feed, fates: seq<Fate>, current: uint64, end: uint64): nat {
    if fates != [] && fates[0].Up? then |LogsBetween(feed.filter, fates[0].chain, current, end + 1)| else 0
  }

  lemma LogsAnswered(feed: Feed, fates: seq<Fate>, current: uint64, end: uint64, logs: seq<Log>)
    requires current <= end && fates != [] && LogsAt(fates[0], feed.filter, current, end) == Logs(logs)
    ensures |logs| == ChunkLogs(feed, fates, current, end)
    ensures NumbersUpTo(logs, end) && NumbersUpTo(logs, TWO_64 - 1)
  {
    hide LogsBetween;
    LogsInRange(feed.filter, fates[0].chain, current, end + 1);
  }

  lemma LogsInserted(feed: Feed, fates: seq<Fate>, values: map<uint64, Header>, m: Table, logs: seq<Log>,
                     current: uint64, end: uint64)
    requires current <= end && fates != [] && LogsAt(fates[0], feed.filter, current, end) == Logs(logs)
    requires AllCached(logs, values)
    ensures ChunkInserted(feed, fates, values, m, InsertAll(m, RowsFor(feed, logs, values)), current, end)
  {
  }

  /** What the requests after the one for the logs used up is part of what the whole chunk used up. */
  lemma ChunkAfterLogs(fates: seq<Fate>, left: seq<Fate>, a: map<uint64, Header>, b: map<uint64, Header>,
                       before: seq<Checkpoint>, after: seq<Checkpoint>, current: uint64, end: uint64)
    requires fates != [] && Later(left, Rest(fates)) && CacheGrew(Rest(fates), a, b)
    ensures Later(left, fates) && |left| < |fates| && CacheGrew(fates, a, b)
    ensures ChunkSaved(Rest(fates), left, before, after, current, end) ==>
              ChunkSaved(fates, left, before, after, current, end)
  {
    hide ChunkSaved;
    LaterRest(fates);
    if ChunkSaved(Rest(fates), left, before, after, current, end) {
      SavedLater(fates, Rest(fates), left, before, after, current, end);
    }
    LaterTransitive(fates, Rest(fates), left);
    assert CacheGrew(fates, a, a);
    CacheGrewAgain(fates, Rest(fates), a, a, b);
  }

  /** The counters, tables and answers left at one moment of the loop. */
  datatype Tally = Tally(fates: seq<Fate>, requests: nat, errors: nat, blocks: nat, logs: nat, chunk: uint64, db: Db,
                         values: map<uint64, Header>)

  ghost function TallyOf(client: Client, store: LogStore, metrics: Metrics, chunker: Chunker, cache: BlockCache): Tally
    reads client, store, metrics, chunker, cache
  {
    Tally(client.fates, client.logRequests, metrics.rpcErrors, metrics.processedBlocks, metrics.processedLogs,
          chunker.current, Db(store.logs, store.checkpoints), cache.values)
  }

  /** What a pass of the loop does, whichever chains answer. */
  ghost predicate PassEffect(feed: Feed, min: uint64, max: uint64, s: Tally, t: Tally, r: ChunkResult, inserted: bool,
                             current: uint64, end: uint64, to: uint64)
  {
    Later(t.fates, s.fates) && CacheGrew(s.fates, s.values, t.values) && t.requests == s.requests + 1 &&
    |s.fates| <= |t.fates| + (if r.Refused? then 1 else 2 + ChunkLogs(feed, s.fates, current, end)) &&
    current <= end <= to && end - current + 1 == Min(s.chunk, to - current + 1) &&
    (r.Refused? ==> !inserted && s.fates != [] && LogsAt(s.fates[0], feed.filter, current, end).TooManyResults?) &&
    (r.Stored? ==> inserted) &&
    (r.Refused? ==> t.chunk == Shrink(min, s.chunk)) && (r.Stored? ==> t.chunk == Grow(max, s.chunk)) &&
    (r.Stopped? ==> t.chunk == s.chunk) &&
    (if inserted then ChunkInserted(feed, s.fates, t.values, s.db.logs, t.db.logs, current, end)
     else t.db.logs == s.db.logs) &&
    (if r.Stored? then ChunkSaved(s.fates, t.fates, s.db.checkpoints, t.db.checkpoints, current, end)
     else t.db.checkpoints == s.db.checkpoints) &&
    t.blocks == s.blocks + (if r.Stored? then end - current + 1 else 0) &&
    t.logs == s.logs + (if r.Stored? then ChunkLogs(feed, s.fates, current, end) else 0) &&
    t.errors == s.errors + (if r.Refused? || (r.Stopped? && r.failure.GetLogsFailed?) then 1 else 0)
  }

  /**
   * One pass through the loop: ask for the chunk at `current`, then shrink the chunk or store it. The rows
   * come from the chain that answered the logs and the checkpoint's hash from the one that answered last.
   */
  method TryChunk(feed: Feed, client: Client, store: LogStore, metrics: Metrics, chunker: Chunker, cache: BlockCache,
                  current: uint64, to: uint64)
    returns (r: ChunkResult, ghost inserted: bool, ghost end: uint64)
    requires chunker.Valid() && current <= to && to + 1 < TWO_64
    modifies cache, client`fates, client`logRequests, store`logs, store`checkpoints, store`verdicts, metrics, chunker
    ensures PassEffect(feed, chunker.min, chunker.max, old(TallyOf(client, store, metrics, chunker, cache)),
                       TallyOf(client, store, metrics, chunker, cache), r, inserted, current, end, to)
    ensures r.Stored? ==> r.end == end
    ensures !r.Stopped? ==> |client.fates| < |old(client.fates)|
    ensures Reach(old(client.fates), to) && TotalDecoder(feed) && old(store.Reliable()) ==>
              (r.Stopped? ==> client.fates == []) && store.Reliable()
  {
    hide InsertAll, RowsFor, AllCached, CacheGrew, AllDecodable, Reach, TotalDecoder, ChunkInserted, ChunkSaved,
         ChunkLogs, Grow, Shrink, LogsBetween, Rest, Later;
    inserted := false;
    var size, last := NextChunk(chunker, current, to);
    end := last;
    ghost var fates := client.fates;
    var reply := client.GetLogs(feed.filter, current, last);
    LaterRest(fates);
    NothingCached(feed, fates, cache.values);
    if Reach(fates, to) && TotalDecoder(feed) {
      GoodAnswer(feed, fates, current, last, to);
    }
    match reply {
      case TooManyResults =>
        metrics.rpcErrors := metrics.rpcErrors + 1;
        chunker.OnError();
        return Refused, false, end;
      case Failed =>
        metrics.rpcErrors := metrics.rpcErrors + 1;
        return Stopped(GetLogsFailed), false, end;
      case Logs(logs) =>
        LogsAnswered(feed, fates, current, last, logs);
        ghost var values, m, cps := cache.values, store.logs, store.checkpoints;
        var err;
        err, inserted := IndexChunk(feed, client, store, metrics, chunker, cache, current, last, logs);
        ChunkAfterLogs(fates, client.fates, values, cache.values, cps, store.checkpoints, current, last);
        if inserted {
          LogsInserted(feed, fates, cache.values, m, logs, current, last);
        }
        return if err.Some? then Stopped(err.value) else Stored(last), inserted, end;
    }
  }

  lemma SameNumber(feed: Feed, p: seq<Block>, lo: nat, hi: nat)
    ensures |Records(feed, p, lo, hi)| == |LogsBetween(feed.filter, p, lo, hi)|
  {
  }

  /** Seen from a chain p that all answers share, the rows are p's, and their number too. */
  lemma InsertedOfChain(feed: Feed, p: seq<Block>, fates: seq<Fate>, values: map<uint64, Header>, m: Table, n: Table,
                        current: uint64, end: uint64)
    requires Agree(fates, p) && current <= end < |p| && Reflects(values, p)
    requires ChunkInserted(feed, fates, values, m, n, current, end)
    ensures n == InsertAll(m, Records(feed, p, current, end + 1))
    ensures ChunkLogs(feed, fates, current, end) == |Records(feed, p, current, end + 1)|
  {
    hide InsertAll, Records, LogsBetween, RowsFor, AllCached, Reflects;
    LogsOfPrefix(feed.filter, p, fates[0].chain, current, end + 1);
    RowsForChain(feed, p, current, end + 1, values);
    SameNumber(feed, p, current, end + 1);
  }

  /** The hash that the last answer gave is p's. */
  lemma HashOfChain(p: seq<Block>, fates: seq<Fate>, left: seq<Fate>, end: uint64)
    requires Agree(fates, p) && end < |p| && Later(left, fates) && LastAnswer(fates, left, end).Some?
    ensures LastAnswer(fates, left, end).value.hash == p[end].hash
  {
  }

  /** A chunk on top of a stretch of p makes a longer stretch of p. */
  lemma IndexedChunk(feed: Feed, p: seq<Block>, fates: seq<Fate>, left: seq<Fate>, values: map<uint64, Header>,
                     before: Db, mid: Db, after: Db, from: nat, current: uint64, end: uint64)
    requires Agree(fates, p) && from <= current <= end < |p| && Reflects(values, p) && Later(left, fates)
    requires Indexed(feed, p, before, mid, from, current, current)
    requires ChunkInserted(feed, fates, values, mid.logs, after.logs, current, end)
    ensures after.checkpoints == mid.checkpoints ==> Indexed(feed, p, before, after, from, current, end + 1)
    ensures ChunkSaved(fates, left, mid.checkpoints, after.checkpoints, current, end) ==>
              Indexed(feed, p, before, after, from, end + 1, end + 1)
    ensures |Records(feed, p, from, end + 1)| ==
              |Records(feed, p, from, current)| + ChunkLogs(feed, fates, current, end)
  {
    hide InsertAll, Records, LogsBetween, RowsFor, AllCached, Reflects, Indexed, ChunkInserted, Agree, Later, ChunkLogs,
         LastAnswer;
    InsertedOfChain(feed, p, fates, values, mid.logs, after.logs, current, end);
    IndexedOneMore(feed, p, before, mid, after, from, Checkpoint(current, end, p[end].hash));
    if LastAnswer(fates, left, end).Some? {
      HashOfChain(p, fates, left, end);
    }
  }

  /** A request is paid for by a lower level when refused and by the blocks of the chunk when answered. */
  lemma PassBudget(r: ChunkResult, fates: seq<Fate>, filter: Filter, min: uint64, max: uint64, chunk: uint64,
                   later: uint64, current: uint64, end: uint64)
    requires InBounds(min, max, chunk) && current <= end && end - current + 1 <= chunk
    requires r.Refused? ==> fates != [] && LogsAt(fates[0], filter, current, end).TooManyResults?
    requires later == match r
                      case Refused => Shrink(min, chunk)
                      case Stored(_) => Grow(max, chunk)
                      case Stopped(_) => chunk
    ensures InBounds(min, max, later) && (r.Stopped? ==> later == chunk)
    ensures Tolerant(fates, min) && r.Refused? ==> 1 + Level(min, later) <= Level(min, chunk)
    ensures r.Stored? ==> Level(min, later) <= Level(min, chunk) + 1
    ensures r.Stored? ==> end - current + 1 <= later
  {
    hide Level, Grow, Shrink, Headroom, Tolerant, LogsAt;
    LevelSteps(min, max, chunk);
    StepsStayInBounds(min, max, chunk);
    if r.Refused? && Tolerant(fates, min) {
      OnlyLongRangesAreRefused(fates, filter, current, end, min);
    }
  }

  /** A chunk's checkpoint is one tile more. */
  lemma TiledChunk(fates: seq<Fate>, left: seq<Fate>, before: seq<Checkpoint>, mid: seq<Checkpoint>,
                   after: seq<Checkpoint>, from: nat, current: uint64, end: uint64)
    requires Tiled(before, mid, from, current) && current <= end
    requires ChunkSaved(fates, left, mid, after, current, end)
    ensures Tiled(before, after, from, end + 1) && |after| == |mid| + 1
  {
    hide Tiled, LastAnswer;
    TileOneMore(before, mid, after, Checkpoint(current, end, LastAnswer(fates, left, end).value.hash), from);
  }

  /** What one pass adds: nothing, rows, or rows and a tile; with answers that share p, rows and tiles of p. */
  lemma PassExtends(feed: Feed, p: seq<Block>, fates: seq<Fate>, left: seq<Fate>, a: map<uint64, Header>,
                    b: map<uint64, Header>, before: Db, mid: Db, after: Db, from: nat, current: uint64, end: uint64,
                    inserted: bool, stored: bool)
    requires from <= current <= end && CacheGrew(fates, a, b) && Later(left, fates)
    requires Tiled(before.checkpoints, mid.checkpoints, from, current)
    requires if inserted then ChunkInserted(feed, fates, b, mid.logs, after.logs, current, end)
             else after.logs == mid.logs
    requires if stored then inserted && ChunkSaved(fates, left, mid.checkpoints, after.checkpoints, current, end)
             else after.checkpoints == mid.checkpoints
    ensures var next := if stored then end + 1 else current;
            Tiled(before.checkpoints, after.checkpoints, from, next) &&
            |after.checkpoints| == |mid.checkpoints| + (if stored then 1 else 0)
    ensures Agree(fates, p) && end < |p| && Reflects(a, p) && Indexed(feed, p, before, mid, from, current, current) ==>
              var next := if stored then end + 1 else current;
              Reflects(b, p) && Indexed(feed, p, before, after, from, next, if inserted then end + 1 else current) &&
              |Records(feed, p, from, next)|
                == |Records(feed, p, from, current)| + (if stored then ChunkLogs(feed, fates, current, end) else 0)
  {
    hide Tiled, Indexed, Agree, Reflects, CacheGrew, ChunkInserted, ChunkSaved, ChunkLogs, Records, Later, InsertAll;
    if stored {
      TiledChunk(fates, left, before.checkpoints, mid.checkpoints, after.checkpoints, from, current, end);
    }
    if Agree(fates, p) && end < |p| && Reflects(a, p) && Indexed(feed, p, before, mid, from, current, current) {
      CacheReflects(fates, a, b, p);
      if inserted {
        IndexedChunk(feed, p, fates, left, b, before, mid, after, from, current, end);
      } else {
        assert after == mid;
      }
    }
  }

  lemma EmptyCacheReflects(p: seq<Block>)
    ensures Reflects(map[], p)
  {
  }

  /** The logs of p up to some block, and those that a chunk behind it is answered with, are logs of the range. */
  lemma LogsOfRange(feed: Feed, p: seq<Block>, fates: seq<Fate>, from: nat, current: uint64, end: uint64, top: nat)
    requires Agree(fates, p) && from <= current <= end < top <= |p|
    ensures |Records(feed, p, from, current)| + ChunkLogs(feed, fates, current, end) <= |Records(feed, p, from, top)|
  {
    hide Records, LogsBetween;
    RecordsSplit(feed, p, from, current, top);
    RecordsSplit(feed, p, current, end + 1, top);
    if fates != [] && fates[0].Up? {
      LogsOfPrefix(feed.filter, p, fates[0].chain, current, end + 1);
      SameNumber(feed, p, current, end + 1);
    }
  }

  /** The loop at block `current`, seen from p: what is stored and cached, the logs counted and the answers used. */
  ghost predicate Traced(feed: Feed, p: seq<Block>, before: Db, db: Db, values: map<uint64, Header>, from: nat,
                         current: nat, logs: int, used: int, requests: int)
  {
    Indexed(feed, p, before, db, from, current, current) && Reflects(values, p) &&
    logs == |Records(feed, p, from, current)| && used <= 2 * requests + logs
  }

  lemma NothingTraced(feed: Feed, p: seq<Block>, db: Db, from: nat)
    ensures Traced(feed, p, db, db, map[], from, from, 0, 0, 0)
  {
    IndexedNothing(feed, p, db, from);
    EmptyCacheReflects(p);
  }

  lemma TracedEnd(feed: Feed, p: seq<Block>, before: Db, db: Db, values: map<uint64, Header>, from: nat, current: nat,
                  logs: int, used: int, requests: int)
    requires Traced(feed, p, before, db, values, from, current, logs, used, requests)
    ensures Indexed(feed, p, before, db, from, current, current) && logs == |Records(feed, p, from, current)|
    ensures used <= 2 * requests + logs
  {
  }

  lemma TracedTiles(feed: Feed, p: seq<Block>, before: Db, db: Db, values: map<uint64, Header>, from: nat, current: nat,
                    logs: int, used: int, requests: int)
    requires Traced(feed, p, before, db, values, from, current, logs, used, requests)
    ensures Tiled(before.checkpoints, db.checkpoints, from, current)
  {
  }

  lemma TracedPass(feed: Feed, p: seq<Block>, fates: seq<Fate>, left: seq<Fate>, a: map<uint64, Header>,
                   b: map<uint64, Header>, before: Db, mid: Db, after: Db, from: nat, current: uint64, end: uint64,
                   inserted: bool, r: ChunkResult, top: nat, logs: int, used: int, requests: int)
    requires from <= current <= end < top <= |p| && CacheGrew(fates, a, b) && Later(left, fates) && Agree(fates, p)
    requires Traced(feed, p, before, mid, a, from, current, logs, used, requests)
    requires if inserted then ChunkInserted(feed, fates, b, mid.logs, after.logs, current, end)
             else after.logs == mid.logs && !r.Stored?
    requires if r.Stored? then ChunkSaved(fates, left, mid.checkpoints, after.checkpoints, current, end)
             else after.checkpoints == mid.checkpoints
    requires |fates| <= |left| + (if r.Refused? then 1 else 2 + ChunkLogs(feed, fates, current, end))
    ensures var next := if r.Stored? then end + 1 else current;
            var logs' := logs + (if r.Stored? then ChunkLogs(feed, fates, current, end) else 0);
            var used' := used + |fates| - |left|;
            Indexed(feed, p, before, after, from, next, if inserted then end + 1 else current) &&
            logs' == |Records(feed, p, from, next)| && used' <= 2 * (requests + 1) + |Records(feed, p, from, top)| &&
            (!r.Stopped? && (inserted <==> r.Stored?) ==>
               Traced(feed, p, before, after, b, from, next, logs', used', requests + 1))
  {
    hide Tiled, Agree, Reflects, CacheGrew, ChunkInserted, ChunkSaved, ChunkLogs, Records, Later, InsertAll, EndHashes;
    TracedTiles(feed, p, before, mid, a, from, current, logs, used, requests);
    PassExtends(feed, p, fates, left, a, b, before, mid, after, from, current, end, inserted, r.Stored?);
    LogsOfRange(feed, p, fates, from, current, end, top);
  }

  /** A pass of the loop keeps the tiling, whichever chains answer. */
  lemma TiledPass(fates: seq<Fate>, left: seq<Fate>, before: seq<Checkpoint>, mid: seq<Checkpoint>,
                  after: seq<Checkpoint>, from: nat, current: uint64, end: uint64, stored: bool)
    requires Tiled(before, mid, from, current) && current <= end
    requires if stored then ChunkSaved(fates, left, mid, after, current, end) else after == mid
    ensures Tiled(before, after, from, if stored then end + 1 else current)
    ensures |after| == |mid| + (if stored then 1 else 0)
  {
    hide Tiled, ChunkSaved;
    if stored {
      TiledChunk(fates, left, before, mid, after, from, current, end);
    }
  }

  /** The loop at block `current`, whichever chains answer. */
  ghost predicate InLoop(min: uint64, max: uint64, s: Tally, t: Tally, from: nat, current: nat) {
    InBounds(min, max, t.chunk) && Later(t.fates, s.fates) && from <= current &&
    Tiled(s.db.checkpoints, t.db.checkpoints, from, current) && t.blocks == s.blocks + (current - from) &&
    t.errors - s.errors + |t.db.checkpoints| - |s.db.checkpoints| == t.requests - s.requests &&
    (Tolerant(s.fates, min) ==>
       t.requests - s.requests + Level(min, t.chunk) <= Level(min, s.chunk) + 2 * (current - from))
  }

  /** The loop after it ended at block `next` with rows up to `reach`, without failure or with one. */
  ghost predicate LoopEnded(feed: Feed, p: seq<Block>, min: uint64, max: uint64, s: Tally, t: Tally, from: nat, to: nat,
                            next: nat, reach: nat, err: Option<Failure>)
  {
    InBounds(min, max, t.chunk) && Later(t.fates, s.fates) &&
    from <= next <= reach <= Max(from, to + 1) && reach - next <= t.chunk &&
    (err.None? ==> next == reach == Max(from, to + 1)) &&
    Tiled(s.db.checkpoints, t.db.checkpoints, from, next) && t.blocks == s.blocks + (next - from) &&
    (Agree(s.fates, p) && to < |p| ==>
       Indexed(feed, p, s.db, t.db, from, next, reach) && t.logs == s.logs + |Records(feed, p, from, next)| &&
       |s.fates| - |t.fates| <= 2 * (t.requests - s.requests) + |Records(feed, p, from, Max(from, to + 1))|) &&
    t.errors - s.errors + |t.db.checkpoints| - |s.db.checkpoints|
      + (if err.None? || err.value.GetLogsFailed? then 0 else 1) == t.requests - s.requests &&
    (Tolerant(s.fates, min) ==>
       t.requests - s.requests + Level(min, t.chunk)
         <= Level(min, s.chunk) + 2 * (next - from) + (if err.None? then 0 else 1))
  }

  lemma LoopStarts(feed: Feed, p: seq<Block>, min: uint64, max: uint64, s: Tally, from: nat)
    requires InBounds(min, max, s.chunk) && s.values == map[]
    ensures InLoop(min, max, s, s, from, from) && Traced(feed, p, s.db, s.db, s.values, from, from, 0, 0, 0)
  {
    LaterReflexive(s.fates);
    TiledNothing(s.db.checkpoints, from);
    NothingTraced(feed, p, s.db, from);
  }

  /** A pass that does not stop keeps the loop's bookkeeping, whichever chains answer. */
  lemma PassStaysInLoop(feed: Feed, min: uint64, max: uint64, s: Tally, mid: Tally, t: Tally, from: nat, r: ChunkResult,
                        inserted: bool, current: uint64, end: uint64, to: uint64)
    requires InLoop(min, max, s, mid, from, current) && !r.Stopped?
    requires PassEffect(feed, min, max, mid, t, r, inserted, current, end, to)
    ensures InLoop(min, max, s, t, from, if r.Stored? then end + 1 else current)
    ensures r.Stored? ==> end - current + 1 <= t.chunk
  {
    hide Tiled, CacheGrew, ChunkInserted, ChunkSaved, ChunkLogs, Later, Level, Grow, Shrink, LogsAt, Tolerant, Headroom;
    LaterTransitive(s.fates, mid.fates, t.fates);
    LaterKeeps(mid.fates, s.fates, 0, [], min, 0);
    PassBudget(r, mid.fates, feed.filter, min, max, mid.chunk, t.chunk, current, end);
    TiledPass(mid.fates, t.fates, s.db.checkpoints, mid.db.checkpoints, t.db.checkpoints, from, current, end,
              r.Stored?);
  }

  /** What a pass means for rows, checkpoints and answers. */
  lemma PassMeans(feed: Feed, min: uint64, max: uint64, s: Tally, t: Tally, r: ChunkResult, inserted: bool,
                  current: uint64, end: uint64, to: uint64)
    requires PassEffect(feed, min, max, s, t, r, inserted, current, end, to)
    ensures Later(t.fates, s.fates) && CacheGrew(s.fates, s.values, t.values) && current <= end <= to
    ensures t.requests == s.requests + 1
    ensures |s.fates| <= |t.fates| + (if r.Refused? then 1 else 2 + ChunkLogs(feed, s.fates, current, end))
    ensures if inserted then ChunkInserted(feed, s.fates, t.values, s.db.logs, t.db.logs, current, end)
            else t.db.logs == s.db.logs && !r.Stored?
    ensures if r.Stored? then ChunkSaved(s.fates, t.fates, s.db.checkpoints, t.db.checkpoints, current, end)
            else t.db.checkpoints == s.db.checkpoints
    ensures t.logs == s.logs + (if r.Stored? then ChunkLogs(feed, s.fates, current, end) else 0)
    ensures !r.Stopped? ==> (inserted <==> r.Stored?)
  {
    hide Later, CacheGrew, ChunkInserted, ChunkSaved, ChunkLogs, LogsAt, Grow, Shrink;
  }

  lemma StaysValid(min: uint64, max: uint64, s: Tally, t: Tally, from: nat, current: nat)
    requires InLoop(min, max, s, t, from, current)
    ensures InBounds(min, max, t.chunk) && Later(t.fates, s.fates)
  {
  }

  /** Seen from a chain that all answers share, it keeps what is traced. */
  lemma PassStaysTraced(feed: Feed, p: seq<Block>, min: uint64, max: uint64, s: Tally, mid: Tally, t: Tally, from: nat,
                        r: ChunkResult, inserted: bool, current: uint64, end: uint64, to: uint64)
    requires Agree(s.fates, p) && to < |p| && from <= current && Later(mid.fates, s.fates)
    requires Traced(feed, p, s.db, mid.db, mid.values, from, current, mid.logs - s.logs, |s.fates| - |mid.fates|,
                    mid.requests - s.requests)
    requires PassEffect(feed, min, max, mid, t, r, inserted, current, end, to)
    ensures var next := if r.Stored? then end + 1 else current;
            Indexed(feed, p, s.db, t.db, from, next, if inserted then end + 1 else current) &&
            t.logs - s.logs == |Records(feed, p, from, next)| &&
            |s.fates| - |t.fates| <= 2 * (t.requests - s.requests) + |Records(feed, p, from, to + 1)| &&
            (!r.Stopped? ==> Traced(feed, p, s.db, t.db, t.values, from, next, t.logs - s.logs, |s.fates| - |t.fates|,
                                    t.requests - s.requests))
  {
    hide *;
    PassMeans(feed, min, max, mid, t, r, inserted, current, end, to);
    LaterKeeps(mid.fates, s.fates, 0, p, 0, 0);
    TracedPass(feed, p, mid.fates, t.fates, mid.values, t.values, s.db, mid.db, t.db, from, current, end, inserted, r,
               to + 1, mid.logs - s.logs, |s.fates| - |mid.fates|, mid.requests - s.requests);
  }

  /** The loop ends when everything is indexed. */
  lemma LoopDone(feed: Feed, p: seq<Block>, min: uint64, max: uint64, s: Tally, t: Tally, from: nat, to: nat,
                 current: nat)
    requires from <= current && current > to && (current == from || current <= to + 1)
    requires InLoop(min, max, s, t, from, current)
    requires Agree(s.fates, p) && to < |p| ==>
               Traced(feed, p, s.db, t.db, t.values, from, current, t.logs - s.logs, |s.fates| - |t.fates|,
                      t.requests - s.requests)
    ensures LoopEnded(feed, p, min, max, s, t, from, to, current, current, None)
  {
    hide Tiled, Agree, Records, Later, Indexed, Level, Tolerant, Headroom, Reflects;
  }

  /** The loop stops at a failure. */
  lemma LoopStops(feed: Feed, p: seq<Block>, min: uint64, max: uint64, s: Tally, mid: Tally, t: Tally, from: nat,
                  r: ChunkResult, inserted: bool, current: uint64, end: uint64, to: uint64)
    requires InLoop(min, max, s, mid, from, current) && r.Stopped?
    requires Agree(s.fates, p) && to < |p| ==>
               Traced(feed, p, s.db, mid.db, mid.values, from, current, mid.logs - s.logs, |s.fates| - |mid.fates|,
                      mid.requests - s.requests)
    requires PassEffect(feed, min, max, mid, t, r, inserted, current, end, to)
    ensures LoopEnded(feed, p, min, max, s, t, from, to, current, if inserted then end + 1 else current,
                      Some(r.failure))
  {
    hide Tiled, Agree, CacheGrew, ChunkInserted, ChunkSaved, ChunkLogs, Records, Later, Traced, Indexed, LogsAt, Grow,
         Shrink, InsertAll, Level, Tolerant, Headroom;
    LaterTransitive(s.fates, mid.fates, t.fates);
    if Agree(s.fates, p) && to < |p| {
      PassStaysTraced(feed, p, min, max, s, mid, t, from, r, inserted, current, end, to);
    }
  }

  /** The tally outside the loop, without its cache. */
  ghost function Tallied(client: Client, store: LogStore, metrics: Metrics, chunker: Chunker): Tally
    reads client, store, metrics, chunker
  {
    Tally(client.fates, client.logRequests, metrics.rpcErrors, metrics.processedBlocks, metrics.processedLogs,
          chunker.current, Db(store.logs, store.checkpoints), map[])
  }

  lemma EndedWithoutCache(feed: Feed, p: seq<Block>, min: uint64, max: uint64, s: Tally, t: Tally, from: nat, to: nat,
                          next: nat, reach: nat, err: Option<Failure>)
    requires LoopEnded(feed, p, min, max, s, t, from, to, next, reach, err)
    ensures LoopEnded(feed, p, min, max, s.(values := map[]), t.(values := map[]), from, to, next, reach, err)
  {
  }

  /** The fields of the tally, and what validity of the chunker says of it. */
  lemma TallyFields(client: Client, store: LogStore, metrics: Metrics, chunker: Chunker, cache: BlockCache)
    ensures var t := TallyOf(client, store, metrics, chunker, cache);
            t.fates == client.fates && t.values == cache.values &&
            t.(values := map[]) == Tallied(client, store, metrics, chunker) &&
            (chunker.Valid() <==> InBounds(chunker.min, chunker.max, t.chunk))
  {
  }

  /** The loop over the chunks. */
  method IndexRange(feed: Feed, client: Client, store: LogStore, metrics: Metrics, chunker: Chunker, from: uint64,
                    to: uint64, ghost p: seq<Block>)
    returns (err: Option<Failure>, ghost next: nat, ghost reach: nat)
    requires chunker.Valid()
    requires to + 1 < TWO_64
    modifies client`fates, client`logRequests, store`logs, store`checkpoints, store`verdicts, metrics, chunker
    ensures LoopEnded(feed, p, chunker.min, chunker.max, old(Tallied(client, store, metrics, chunker)),
                      Tallied(client, store, metrics, chunker), from, to, next, reach, err)
    ensures Reach(old(client.fates), to) && TotalDecoder(feed) && old(store.Reliable()) ==>
              (err.Some? ==> client.fates == []) && store.Reliable()
  {
    hide *;
    var cache := new BlockCache();
    var current := from;
    ghost var good := Agree(client.fates, p) && to < |p|;
    ghost var trusty := Reach(client.fates, to) && TotalDecoder(feed) && store.Reliable();
    ghost var s := TallyOf(client, store, metrics, chunker, cache);
    ghost var t := s;
    next, reach := from, from;
    TallyFields(client, store, metrics, chunker, cache);
    LoopStarts(feed, p, chunker.min, chunker.max, s, from);
    while current <= to
      invariant from <= current == next == reach && (current == from || current <= to + 1) && chunker.Valid()
      invariant t == TallyOf(client, store, metrics, chunker, cache)
      invariant InLoop(chunker.min, chunker.max, s, t, from, current)
      invariant Later(client.fates, s.fates)
      invariant good ==> Traced(feed, p, s.db, t.db, t.values, from, current, t.logs - s.logs,
                                |s.fates| - |t.fates|, t.requests - s.requests)
      invariant trusty ==> store.Reliable()
      decreases |client.fates|
    {
      TallyFields(client, store, metrics, chunker, cache);
      LaterKeeps(client.fates, s.fates, 0, p, 0, to);
      ghost var mid := t;
      var r;
      ghost var inserted, end;
      r, inserted, end := TryChunk(feed, client, store, metrics, chunker, cache, current, to);
      t := TallyOf(client, store, metrics, chunker, cache);
      TallyFields(client, store, metrics, chunker, cache);
      PassMeans(feed, chunker.min, chunker.max, mid, t, r, inserted, current, end, to);
      if inserted {
        reach := end + 1;
      }
      if r.Stopped? {
        LoopStops(feed, p, chunker.min, chunker.max, s, mid, t, from, r, inserted, current, end, to);
        EndedWithoutCache(feed, p, chunker.min, chunker.max, s, t, from, to, next, reach, Some(r.failure));
        return Some(r.failure), next, reach;
      }
      PassStaysInLoop(feed, chunker.min, chunker.max, s, mid, t, from, r, inserted, current, end, to);
      if good {
        PassStaysTraced(feed, p, chunker.min, chunker.max, s, mid, t, from, r, inserted, current, end, to);
      }
      StaysValid(chunker.min, chunker.max, s, t, from, if r.Stored? then end + 1 else current);
      if r.Stored? {
        NoWrap(r.end + 1);
        current := Wrap(r.end + 1);
        next := current;
      }
    }
    LoopDone(feed, p, chunker.min, chunker.max, s, t, from, to, current);
    TallyFields(client, store, metrics, chunker, cache);
    EndedWithoutCache(feed, p, chunker.min, chunker.max, s, t, from, to, next, reach, None);
    return None, next, reach;
  }

  /**
   * Index blocks from..to in chunks. `p` is any chain that all answers turn out to share up to `to`;
   * `next` is the first block without a checkpoint afterwards and `reach` the first without logs.
   */
  method ProcessRangeAdaptive(feed: Feed, client: Client, store: LogStore, metrics: Metrics, chunker: Chunker,
                              from: uint64, to: uint64, ghost p: seq<Block>)
    returns (err: Option<Failure>, ghost next: nat, ghost reach: nat)
    requires chunker.Valid()
    requires to + 1 < TWO_64
    modifies client`fates, client`logRequests, store`logs, store`checkpoints, store`verdicts, metrics, chunker
    ensures chunker.Valid() && Later(client.fates, old(client.fates))
    ensures from <= next <= reach <= Max(from, to + 1) && reach - next <= chunker.current <= chunker.max
    ensures err.None? ==> next == reach == Max(from, to + 1)
    ensures Tiled(old(store.checkpoints), store.checkpoints, from, next)
    ensures metrics.processedBlocks == old(metrics.processedBlocks) + (next - from)
    ensures Agree(old(client.fates), p) && to < |p| ==>
              Indexed(feed, p, old(store.Contents()), store.Contents(), from, next, reach) &&
              metrics.processedLogs == old(metrics.processedLogs) + |Records(feed, p, from, next)|
    ensures Agree(old(client.fates), p) && to < |p| && KeysIdentify(feed.filter, p, from, reach) ==>
              ColumnsStored(feed, p, old(store.logs), store.logs, from, reach)
    ensures metrics.rpcErrors - old(metrics.rpcErrors) + |store.checkpoints| - |old(store.checkpoints)|
              + (if err.None? || err.value.GetLogsFailed? then 0 else 1)
         == client.logRequests - old(client.logRequests)
    ensures Agree(old(client.fates), p) && to < |p| ==>
              |old(client.fates)| <= |client.fates| + 2 * (client.logRequests - old(client.logRequests)) +
                                     |Records(feed, p, from, Max(from, to + 1))|
    ensures Reach(old(client.fates), to) && TotalDecoder(feed) && old(store.Reliable()) ==>
              (err.Some? ==> client.fates == []) && store.Reliable()
    ensures Tolerant(old(client.fates), chunker.min) ==>
              client.logRequests - old(client.logRequests) + Level(chunker.min, chunker.current)
                <= Level(chunker.min, old(chunker.current)) + 2 * (next - from) + (if err.None? then 0 else 1)
  {
    hide InsertAll, Records, Level, Headroom, Reach, TotalDecoder, Agree, Tolerant, Later, Tiled, KeysIdentify,
         ColumnsStored, LogStore.Reliable;
    ghost var m := store.logs;
    err, next, reach := IndexRange(feed, client, store, metrics, chunker, from, to, p);
    if KeysIdentify(feed.filter, p, from, reach) {
      IndexingStoresColumns(feed, p, m, from, reach);
    }
  }
}
