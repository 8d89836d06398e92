/** The log table as a value: insert-if-absent, deletion by block, and how they compose. */
module LogTable {
  import opened Prelude
  import opened Chains

  type Table = map<RowKey, LogRecord>

  /** INSERT ... ON CONFLICT DO NOTHING */
  function InsertOne(m: Table, r: LogRecord): Table {
    if r.key in m then m else m[r.key := r]
  }

  function InsertAll(m: Table, rs: seq<LogRecord>): Table {
    if rs == [] then m else InsertOne(InsertAll(m, rs[..|rs| - 1]), rs[|rs| - 1])
  }

  /** The rows of blocks below b. */
  function Below(m: Table, b: nat): Table {
    map k | k in m && m[k].blockNumber < b :: m[k]
  }

  /** The table that one insert of blocks lo to hi - 1 of a chain makes from nothing. */
  function TableOf(feed: Feed, c: seq<Block>, lo: nat, hi: nat): Table {
    InsertAll(map[], Records(feed, c, lo, hi))
  }

  lemma {:induction false} InsertAllAppend(m: Table, a: seq<LogRecord>, b: seq<LogRecord>)
    ensures InsertAll(InsertAll(m, a), b) == InsertAll(m, a + b)
  {
    if b == [] {
      assert a + b == a;
    } else {
      InsertAllAppend(m, a, b[..|b| - 1]);
      assert (a + b)[..|a + b| - 1] == a + b[..|b| - 1];
    }
  }

  /** Old rows stay, inserted keys are present, and a new row is one of those inserted. */
  lemma {:induction false} InsertAllMeaning(m: Table, rs: seq<LogRecord>)
    ensures Submap(m, InsertAll(m, rs))
    ensures forall r | r in rs :: r.key in InsertAll(m, rs)
    ensures forall k | k in InsertAll(m, rs) && k !in m :: InsertAll(m, rs)[k] in rs && InsertAll(m, rs)[k].key == k
  {
    if rs != [] {
      InsertAllMeaning(m, rs[..|rs| - 1]);
      assert rs == rs[..|rs| - 1] + [rs[|rs| - 1]];
    }
  }

  lemma {:induction false} NotYetInserted(m: Table, rs: seq<LogRecord>, k: RowKey)
    requires k !in m && forall j | 0 <= j < |rs| :: rs[j].key != k
    ensures k !in InsertAll(m, rs)
  {
    if rs != [] {
      NotYetInserted(m, rs[..|rs| - 1], k);
    }
  }

  /** Of several inserted rows with one key the first is kept, unless the key was there already. */
  lemma {:induction false} FirstRowWins(m: Table, rs: seq<LogRecord>, i: nat)
    requires i < |rs| && rs[i].key !in m && forall j | 0 <= j < i :: rs[j].key != rs[i].key
    ensures rs[i].key in InsertAll(m, rs) && InsertAll(m, rs)[rs[i].key] == rs[i]
  {
    var n := |rs| - 1;
    if i < n {
      FirstRowWins(m, rs[..n], i);
    } else {
      NotYetInserted(m, rs[..n], rs[i].key);
    }
  }

  lemma {:induction false} InsertPresent(m: Table, rs: seq<LogRecord>)
    requires forall r | r in rs :: r.key in m
    ensures InsertAll(m, rs) == m
  {
    if rs != [] {
      InsertPresent(m, rs[..|rs| - 1]);
    }
  }

  /** A row new to the table is the same row whatever else the table held. */
  lemma {:induction false} InsertAllAgrees(m: Table, n: Table, rs: seq<LogRecord>, k: RowKey)
    requires k !in m && k !in n
    ensures k in InsertAll(m, rs) <==> k in InsertAll(n, rs)
    ensures k in InsertAll(m, rs) ==> InsertAll(m, rs)[k] == InsertAll(n, rs)[k]
  {
    if rs != [] {
      InsertAllAgrees(m, n, rs[..|rs| - 1], k);
    }
  }

  lemma TableMeaning(feed: Feed, c: seq<Block>, lo: nat, hi: nat)
    ensures forall k | k in TableOf(feed, c, lo, hi) ::
              lo <= TableOf(feed, c, lo, hi)[k].blockNumber < hi && TableOf(feed, c, lo, hi)[k].key == k
    ensures forall r | r in Records(feed, c, lo, hi) :: r.key in TableOf(feed, c, lo, hi)
  {
    InsertAllMeaning(map[], Records(feed, c, lo, hi));
    RecordsInRange(feed, c, lo, hi);
  }

  lemma TableExtends(feed: Feed, c: seq<Block>, lo: nat, mid: nat, hi: nat)
    requires lo <= mid <= hi
    ensures TableOf(feed, c, lo, hi) == InsertAll(TableOf(feed, c, lo, mid), Records(feed, c, mid, hi))
    ensures Submap(TableOf(feed, c, lo, mid), TableOf(feed, c, lo, hi))
  {
    RecordsSplit(feed, c, lo, mid, hi);
    InsertAllAppend(map[], Records(feed, c, lo, mid), Records(feed, c, mid, hi));
    InsertAllMeaning(TableOf(feed, c, lo, mid), Records(feed, c, mid, hi));
  }

  /** Deleting the rows from block r on undoes every insert from block r on. */
  lemma BelowUndoesInsert(feed: Feed, c: seq<Block>, lo: nat, r: nat, hi: nat)
    requires lo <= r <= hi
    ensures Below(TableOf(feed, c, lo, hi), r) == TableOf(feed, c, lo, r)
  {
    TableExtends(feed, c, lo, r, hi);
    TableMeaning(feed, c, lo, r);
    var low, high := TableOf(feed, c, lo, r), TableOf(feed, c, lo, hi);
    InsertAllMeaning(low, Records(feed, c, r, hi));
    RecordsInRange(feed, c, r, hi);
    forall k | k in Below(high, r)
      ensures k in low
    {
    }
    assert Below(high, r).Keys == low.Keys;
  }

  /** Indexing more blocks keeps a table between two tables of the same chain. */
  lemma InsertKeepsBetween(feed: Feed, c: seq<Block>, m: Table, lo: nat, r: nat, hi: nat, top: nat)
    requires lo <= r <= hi <= top
    requires Submap(TableOf(feed, c, lo, r), m) && Submap(m, TableOf(feed, c, lo, top))
    ensures var n := InsertAll(m, Records(feed, c, r, hi));
            Submap(TableOf(feed, c, lo, hi), n) && Submap(n, TableOf(feed, c, lo, top))
  {
    var rs := Records(feed, c, r, hi);
    var n := InsertAll(m, rs);
    var low, mid, high := TableOf(feed, c, lo, r), TableOf(feed, c, lo, hi), TableOf(feed, c, lo, top);
    TableExtends(feed, c, lo, r, hi);
    TableExtends(feed, c, lo, hi, top);
    InsertAllMeaning(m, rs);
    InsertAllMeaning(low, rs);
    forall k | k in mid
      ensures k in n && n[k] == mid[k]
    {
      if k !in m {
        InsertAllAgrees(low, m, rs, k);
      }
    }
    forall k | k in n
      ensures k in high && n[k] == high[k]
    {
      if k !in m {
        InsertAllAgrees(low, m, rs, k);
      }
    }
  }

  /**
   * Indexing blocks r to hi - 1 on top of a table gives exactly the chain's table if and only if the
   * table held every row below r and no row that is not the chain's.
   */
  lemma IndexingIsExactIff(feed: Feed, c: seq<Block>, m: Table, lo: nat, r: nat, hi: nat)
    requires lo <= r <= hi
    ensures InsertAll(m, Records(feed, c, r, hi)) == TableOf(feed, c, lo, hi)
       <==> Submap(TableOf(feed, c, lo, r), m) && Submap(m, TableOf(feed, c, lo, hi))
  {
    var rs := Records(feed, c, r, hi);
    var n, low, high := InsertAll(m, rs), TableOf(feed, c, lo, r), TableOf(feed, c, lo, hi);
    InsertAllMeaning(m, rs);
    TableExtends(feed, c, lo, r, hi);
    if Submap(low, m) && Submap(m, high) {
      InsertKeepsBetween(feed, c, m, lo, r, hi, hi);
      assert n.Keys == high.Keys;
    }
    if n == high {
      TableMeaning(feed, c, lo, r);
      RecordsInRange(feed, c, r, hi);
      forall k | k in low
        ensures k in m && low[k] == m[k]
      {
        assert n[k].blockNumber < r;
      }
    }
  }

  /** Inserting a stretch again, with more after it, changes nothing but the addition. */
  lemma ReinsertIsIdempotent(m: Table, a: seq<LogRecord>, b: seq<LogRecord>, c: seq<LogRecord>)
    ensures InsertAll(InsertAll(m, a + b), b + c) == InsertAll(m, a + b + c)
  {
    var n := InsertAll(m, a + b);
    InsertAllMeaning(m, a + b);
    InsertAllAppend(n, b, c);
    InsertPresent(n, b);
    InsertAllAppend(m, a + b, c);
  }

  /** No two rows of the stretch share a key. */
  ghost predicate UniqueKeys(rs: seq<LogRecord>) {
    forall i, j | 0 <= i < j < |rs| :: rs[i].key != rs[j].key
  }

  /** When keys are unique within the chain, insert-if-absent loses no row of it. */
  lemma {:induction false} UniqueKeysKeepEveryRow(rs: seq<LogRecord>)
    requires UniqueKeys(rs)
    ensures forall r | r in rs :: r.key in InsertAll(map[], rs) && InsertAll(map[], rs)[r.key] == r
  {
    if rs != [] {
      var rest := rs[..|rs| - 1];
      UniqueKeysKeepEveryRow(rest);
      InsertAllMeaning(map[], rest);
      assert rs == rest + [rs[|rs| - 1]];
    }
  }
}
