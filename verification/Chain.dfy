/** Chains of hash-linked blocks, the log filter, and the table rows a chain gives rise to. */
module Chains {
  import opened Prelude

  type byte = x: int | 0 <= x < 256
  type Address = a: seq<byte> | |a| == 20 witness seq(20, _ => 0)
  type Topic = t: seq<byte> | |t| == 32 witness seq(32, _ => 0)

  /** One event emitted by a transaction. */
  datatype Entry = Entry(address: Address, topics: seq<Topic>, data: string, txHash: string, logIndex: nat)

  datatype Block = Block(hash: string, parent: string, timestamp: nat, entries: seq<Entry>)

  /** What the node answers for one event: the entry and the block that holds it. */
  datatype Log = Log(entry: Entry, blockNumber: nat, blockHash: string)

  /** The address and first-topic conditions of a getLogs request; an empty list matches everything. */
  datatype Filter = Filter(addresses: seq<Address>, topics: seq<Topic>) {
    predicate Passes(e: Entry) {
      (addresses == [] || e.address in addresses) &&
      (topics == [] || (e.topics != [] && e.topics[0] in topics))
    }
  }

  datatype Decoded = Decoded(eventName: string, args: string)

  /** What is indexed: the chain's identifier, the filter, and the decoder, which may fail on a log. */
  datatype Feed = Feed(chainId: uint64, filter: Filter, decode: Log -> Option<Decoded>)

  datatype RowKey = RowKey(chainId: uint64, txHash: string, logIndex: nat)

  datatype LogRecord = LogRecord(key: RowKey, address: Address, eventName: string, blockNumber: nat,
                                 blockHash: string, timestamp: nat, args: string, topics: seq<Topic>, data: string)

  /** Block i of a chain has number i. */
  ghost predicate HashLinked(c: seq<Block>) {
    forall i | 0 < i < |c| :: c[i].parent == c[i - 1].hash
  }

  /** Blocks of the two chains with the same hash are the same block. */
  ghost predicate CollisionFree(c: seq<Block>, d: seq<Block>) {
    forall i, j | 0 <= i < |c| && 0 <= j < |d| && c[i].hash == d[j].hash :: c[i] == d[j]
  }

  /** Equal hashes at one height mean equal chains up to that height. */
  lemma {:induction false} SameHashSamePrefix(c: seq<Block>, d: seq<Block>, n: nat)
    requires HashLinked(c) && HashLinked(d) && CollisionFree(c, d)
    requires n < |c| && n < |d| && c[n].hash == d[n].hash
    ensures c[..n + 1] == d[..n + 1]
  {
    if n == 0 {
      assert c[0] == d[0];
    } else {
      assert c[n].parent == c[n - 1].hash && d[n].parent == d[n - 1].hash;
      SameHashSamePrefix(c, d, n - 1);
      assert c[..n + 1] == c[..n] + [c[n]] && d[..n + 1] == d[..n] + [d[n]];
    }
  }

  function Matching(filter: Filter, entries: seq<Entry>): seq<Entry> {
    if entries == [] then []
    else (if filter.Passes(entries[0]) then [entries[0]] else []) + Matching(filter, entries[1..])
  }

  /** Exactly the entries that pass are left, each as often as before. */
  lemma {:induction false} MatchingMeaning(filter: Filter, entries: seq<Entry>, e: Entry)
    ensures multiset(Matching(filter, entries))[e] == if filter.Passes(e) then multiset(entries)[e] else 0
    ensures e in Matching(filter, entries) <==> e in entries && filter.Passes(e)
  {
    if entries != [] {
      MatchingMeaning(filter, entries[1..], e);
      assert entries == [entries[0]] + entries[1..];
    }
  }

  /** And they keep their order: what is left of a sequence is what is left of its parts. */
  lemma {:induction false} MatchingKeepsOrder(filter: Filter, first: seq<Entry>, second: seq<Entry>)
    ensures Matching(filter, first + second) == Matching(filter, first) + Matching(filter, second)
  {
    hide Filter.Passes;
    if first == [] {
      assert first + second == second;
    } else {
      MatchingKeepsOrder(filter, first[1..], second);
      assert (first + second)[1..] == first[1..] + second;
    }
  }

  /** The matching logs of block n, none when the chain does not reach n. */
  function BlockLogs(filter: Filter, c: seq<Block>, n: nat): seq<Log> {
    if n < |c| then
      var es := Matching(filter, c[n].entries);
      seq(|es|, i requires 0 <= i < |es| => Log(es[i], n, c[n].hash))
    else []
  }

  /** The matching logs of blocks lo to hi - 1, in order. */
  function LogsBetween(filter: Filter, c: seq<Block>, lo: nat, hi: nat): seq<Log> {
    if hi <= lo then [] else LogsBetween(filter, c, lo, hi - 1) + BlockLogs(filter, c, hi - 1)
  }

  lemma BlockLogsMeaning(filter: Filter, c: seq<Block>, n: nat, l: Log)
    ensures l in BlockLogs(filter, c, n) <==>
              n < |c| && l.blockNumber == n && l.blockHash == c[n].hash && l.entry in c[n].entries &&
              filter.Passes(l.entry)
  {
    hide Filter.Passes;
    if n < |c| {
      var es := Matching(filter, c[n].entries);
      MatchingMeaning(filter, c[n].entries, l.entry);
      if l.entry in es {
        var i :| 0 <= i < |es| && es[i] == l.entry;
        assert BlockLogs(filter, c, n)[i] == Log(l.entry, n, c[n].hash);
      }
    }
  }

  /** Of the blocks asked for, exactly the events that pass are answered, with their block's number and hash. */
  lemma {:induction false} LogsMeaning(filter: Filter, c: seq<Block>, lo: nat, hi: nat, l: Log)
    ensures l in LogsBetween(filter, c, lo, hi) <==>
              lo <= l.blockNumber < hi && l.blockNumber < |c| && l.blockHash == c[l.blockNumber].hash &&
              l.entry in c[l.blockNumber].entries && filter.Passes(l.entry)
    decreases hi
  {
    hide BlockLogs, Filter.Passes;
    if lo < hi {
      LogsMeaning(filter, c, lo, hi - 1, l);
      BlockLogsMeaning(filter, c, hi - 1, l);
      var before, last := LogsBetween(filter, c, lo, hi - 1), BlockLogs(filter, c, hi - 1);
      assert l in before + last <==> l in before || l in last;
    }
  }

  /** The row stored for a decoded log. */
  function RecordOf(feed: Feed, l: Log, d: Decoded, timestamp: nat): LogRecord {
    LogRecord(RowKey(feed.chainId, l.entry.txHash, l.entry.logIndex), l.entry.address, d.eventName,
              l.blockNumber, l.blockHash, timestamp, d.args, l.entry.topics, l.entry.data)
  }

  function DecodedOr(d: Option<Decoded>): Decoded {
    if d.Some? then d.value else Decoded("", "")
  }

  function TimestampAt(c: seq<Block>, n: nat): nat {
    if n < |c| then c[n].timestamp else 0
  }

  /** The rows of blocks lo to hi - 1. */
  function Records(feed: Feed, c: seq<Block>, lo: nat, hi: nat): (rs: seq<LogRecord>)
    ensures |rs| == |LogsBetween(feed.filter, c, lo, hi)|
  {
    var ls := LogsBetween(feed.filter, c, lo, hi);
    seq(|ls|, i requires 0 <= i < |ls| =>
      RecordOf(feed, ls[i], DecodedOr(feed.decode(ls[i])), TimestampAt(c, ls[i].blockNumber)))
  }

  ghost predicate AllDecodable(feed: Feed, ls: seq<Log>) {
    forall l | l in ls :: feed.decode(l).Some?
  }

  /** The decoder fails on no log that passes the filter. */
  ghost predicate TotalDecoder(feed: Feed) {
    forall l: Log | feed.filter.Passes(l.entry) :: feed.decode(l).Some?
  }

  /** A total decoder decodes every log that the node answers. */
  lemma AnswersAreDecodable(feed: Feed, c: seq<Block>, lo: nat, hi: nat)
    requires TotalDecoder(feed)
    ensures AllDecodable(feed, LogsBetween(feed.filter, c, lo, hi))
  {
    hide LogsBetween, Filter.Passes;
    var ls := LogsBetween(feed.filter, c, lo, hi);
    forall l | l in ls
      ensures feed.decode(l).Some?
    {
      LogsMeaning(feed.filter, c, lo, hi, l);
    }
  }

  /** Logs come from the blocks asked for, as far as the chain reaches. */
  lemma {:induction false} LogsInRange(filter: Filter, c: seq<Block>, lo: nat, hi: nat)
    ensures forall l | l in LogsBetween(filter, c, lo, hi) :: lo <= l.blockNumber < hi && l.blockNumber < |c|
    decreases hi
  {
    if lo < hi {
      LogsInRange(filter, c, lo, hi - 1);
    }
  }

  lemma RecordsInRange(feed: Feed, c: seq<Block>, lo: nat, hi: nat)
    ensures forall r | r in Records(feed, c, lo, hi) :: lo <= r.blockNumber < hi
  {
    LogsInRange(feed.filter, c, lo, hi);
  }

  lemma {:induction false} LogsSplit(filter: Filter, c: seq<Block>, lo: nat, mid: nat, hi: nat)
    requires lo <= mid <= hi
    ensures LogsBetween(filter, c, lo, hi) == LogsBetween(filter, c, lo, mid) + LogsBetween(filter, c, mid, hi)
    decreases hi
  {
    if mid < hi {
      LogsSplit(filter, c, lo, mid, hi - 1);
      var last := BlockLogs(filter, c, hi - 1);
      assert LogsBetween(filter, c, lo, hi) == LogsBetween(filter, c, lo, hi - 1) + last;
      assert LogsBetween(filter, c, mid, hi) == LogsBetween(filter, c, mid, hi - 1) + last;
    }
  }

  lemma RecordsSplit(feed: Feed, c: seq<Block>, lo: nat, mid: nat, hi: nat)
    requires lo <= mid <= hi
    ensures Records(feed, c, lo, hi) == Records(feed, c, lo, mid) + Records(feed, c, mid, hi)
  {
    LogsSplit(feed.filter, c, lo, mid, hi);
  }

  lemma {:induction false} LogsOfPrefix(filter: Filter, p: seq<Block>, c: seq<Block>, lo: nat, hi: nat)
    requires p <= c && hi <= |p|
    ensures LogsBetween(filter, p, lo, hi) == LogsBetween(filter, c, lo, hi)
    decreases hi
  {
    if lo < hi {
      LogsOfPrefix(filter, p, c, lo, hi - 1);
      assert p[hi - 1] == c[hi - 1];
      assert BlockLogs(filter, p, hi - 1) == BlockLogs(filter, c, hi - 1);
    }
  }

  /** Chains that agree below hi have the same rows below hi. */
  lemma RecordsOfPrefix(feed: Feed, p: seq<Block>, c: seq<Block>, lo: nat, hi: nat)
    requires p <= c && hi <= |p|
    ensures Records(feed, p, lo, hi) == Records(feed, c, lo, hi)
  {
    LogsOfPrefix(feed.filter, p, c, lo, hi);
    LogsInRange(feed.filter, p, lo, hi);
  }
}
