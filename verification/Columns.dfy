/** The columns of stored rows, in terms of the events of the blocks: internal/extract/extract.go:115-151. */
module Columns {
  import opened Prelude
  import opened Chains
  import opened LogTable

  /** Of the events of blocks from to reach - 1 that pass, no two share transaction hash and log index. */
  ghost predicate KeysIdentify(filter: Filter, p: seq<Block>, from: nat, reach: nat) {
    forall i, j, e, f |
      from <= i < reach && i < |p| && e in p[i].entries && filter.Passes(e) &&
      from <= j < reach && j < |p| && f in p[j].entries && filter.Passes(f) &&
      e.txHash == f.txHash && e.logIndex == f.logIndex ::
      i == j && e == f
  }

  /** The row tells the event, its decoded form, and its block. */
  ghost predicate Tells(r: LogRecord, e: Entry, d: Decoded, n: nat, b: Block) {
    r.address == e.address && r.topics == e.topics && r.data == e.data &&
    r.eventName == d.eventName && r.args == d.args &&
    r.blockNumber == n && r.blockHash == b.hash && r.timestamp == b.timestamp
  }

  /** Event e of block n gets this key. */
  ghost predicate KeyOf(feed: Feed, p: seq<Block>, k: RowKey, n: nat, e: Entry)
    requires n < |p|
  {
    e in p[n].entries && feed.filter.Passes(e) && k == RowKey(feed.chainId, e.txHash, e.logIndex)
  }

  /**
   * Rows stay as they were. Every event of blocks from to reach - 1 that passes has a row under its chain,
   * transaction and index; a new row tells its event, and every new row is of such an event.
   */
  ghost predicate ColumnsStored(feed: Feed, p: seq<Block>, before: Table, after: Table, from: nat, reach: nat) {
    Submap(before, after) &&
    (forall n, e | from <= n < reach && n < |p| && e in p[n].entries && feed.filter.Passes(e) ::
       var k := RowKey(feed.chainId, e.txHash, e.logIndex);
       k in after &&
       (k !in before && feed.decode(Log(e, n, p[n].hash)).Some? ==>
          Tells(after[k], e, feed.decode(Log(e, n, p[n].hash)).value, n, p[n]))) &&
    (forall k | k in after && k !in before :: exists n, e :: from <= n < reach && n < |p| && KeyOf(feed, p, k, n, e))
  }

  /** The record that indexing makes of an event. */
  lemma RecordOfEvent(feed: Feed, p: seq<Block>, from: nat, reach: nat, n: nat, e: Entry)
    requires from <= n < reach && n < |p| && e in p[n].entries && feed.filter.Passes(e)
    ensures exists r ::
              r in Records(feed, p, from, reach) && KeyOf(feed, p, r.key, n, e) &&
              (feed.decode(Log(e, n, p[n].hash)).Some? ==>
                 Tells(r, e, feed.decode(Log(e, n, p[n].hash)).value, n, p[n]))
  {
    hide LogsBetween;
    var l := Log(e, n, p[n].hash);
    LogsMeaning(feed.filter, p, from, reach, l);
    var ls := LogsBetween(feed.filter, p, from, reach);
    var i :| 0 <= i < |ls| && ls[i] == l;
    var r := Records(feed, p, from, reach)[i];
    assert r in Records(feed, p, from, reach);
  }

  lemma EventOfRecord(feed: Feed, p: seq<Block>, from: nat, reach: nat, r: LogRecord)
    requires r in Records(feed, p, from, reach)
    ensures exists n, e ::
              from <= n < reach && n < |p| && KeyOf(feed, p, r.key, n, e) &&
              (feed.decode(Log(e, n, p[n].hash)).Some? ==>
                 Tells(r, e, feed.decode(Log(e, n, p[n].hash)).value, n, p[n]))
  {
    hide LogsBetween;
    var ls := LogsBetween(feed.filter, p, from, reach);
    var i :| 0 <= i < |ls| && Records(feed, p, from, reach)[i] == r;
    LogsMeaning(feed.filter, p, from, reach, ls[i]);
    assert KeyOf(feed, p, r.key, ls[i].blockNumber, ls[i].entry);
  }

  /** When keys identify events, a new row under the key of an event tells that event. */
  lemma NewRowTells(feed: Feed, p: seq<Block>, from: nat, reach: nat, n: nat, e: Entry, r: LogRecord)
    requires KeysIdentify(feed.filter, p, from, reach) && r in Records(feed, p, from, reach)
    requires from <= n < reach && n < |p| && KeyOf(feed, p, r.key, n, e)
    ensures feed.decode(Log(e, n, p[n].hash)).Some? ==>
              Tells(r, e, feed.decode(Log(e, n, p[n].hash)).value, n, p[n])
  {
    hide Records, Tells, Filter.Passes;
    EventOfRecord(feed, p, from, reach, r);
  }

  /** When keys identify events, indexing stores exactly these columns. */
  lemma IndexingStoresColumns(feed: Feed, p: seq<Block>, m: Table, from: nat, reach: nat)
    requires KeysIdentify(feed.filter, p, from, reach)
    ensures ColumnsStored(feed, p, m, InsertAll(m, Records(feed, p, from, reach)), from, reach)
  {
    hide Records, InsertAll, Tells, KeysIdentify, Filter.Passes;
    var rs := Records(feed, p, from, reach);
    var after := InsertAll(m, rs);
    InsertAllMeaning(m, rs);
    forall n, e | from <= n < reach && n < |p| && e in p[n].entries && feed.filter.Passes(e)
      ensures var k := RowKey(feed.chainId, e.txHash, e.logIndex);
              k in after &&
              (k !in m && feed.decode(Log(e, n, p[n].hash)).Some? ==>
                 Tells(after[k], e, feed.decode(Log(e, n, p[n].hash)).value, n, p[n]))
    {
      RecordOfEvent(feed, p, from, reach, n, e);
      var k := RowKey(feed.chainId, e.txHash, e.logIndex);
      if k !in m {
        NewRowTells(feed, p, from, reach, n, e, after[k]);
      }
    }
    forall k | k in after && k !in m
      ensures exists n, e :: from <= n < reach && n < |p| && KeyOf(feed, p, k, n, e)
    {
      EventOfRecord(feed, p, from, reach, after[k]);
    }
  }
}
