/** The mempool table of internal/store/sqlite.go and the tracker's books of internal/mempool/tracker.go, as values. */
module Mempool {
  import opened Prelude
  import opened Decimal

  datatype Status = Pending | Mined | Replaced | Dropped

  datatype Tx = Tx(hash: string, sender: string, nonce: uint64, firstSeen: Option<int>)

  datatype MinedInfo = MinedInfo(blockNumber: uint64, blockHash: string, txIndex: uint64)

  datatype Row = Row(sender: string, nonce: uint64, firstSeen: int, lastSeen: int, status: Status,
                     replacedBy: Option<string>, mined: Option<MinedInfo>)

  type Rows = map<string, Row>

  function FirstSeen(tx: Tx, now: int): int {
    if tx.firstSeen.Some? then tx.firstSeen.value else now
  }

  /** INSERT ... ON CONFLICT DO UPDATE: a known hash gets a new time and status and keeps the rest. */
  function Upsert(rows: Rows, tx: Tx, now: int): Rows {
    rows[tx.hash :=
      if tx.hash in rows then rows[tx.hash].(lastSeen := now, status := Pending)
      else Row(tx.sender, tx.nonce, FirstSeen(tx, now), now, Pending, None, None)]
  }

  function RowMined(rows: Rows, hash: string, info: MinedInfo, now: int): Rows {
    if hash in rows then rows[hash := rows[hash].(status := Mined, mined := Some(info), lastSeen := now)] else rows
  }

  function RowReplaced(rows: Rows, hash: string, winner: string, now: int): Rows {
    if hash in rows then
      rows[hash := rows[hash].(status := Replaced, replacedBy := Some(winner), lastSeen := now)]
    else rows
  }

  function RowDropped(rows: Rows, hash: string, now: int): Rows {
    if hash in rows then rows[hash := rows[hash].(status := Dropped, lastSeen := now)] else rows
  }

  datatype Tracked = Tracked(sender: string, nonce: uint64, firstSeen: int, lastSeen: int, status: Status)

  /** The tracker's two maps: transactions by hash, and the latest hash of each sender and nonce. */
  datatype Books = Books(txs: map<string, Tracked>, fromNonce: map<string, string>)

  function TxKey(tx: Tx): string {
    FromNonceKey(tx.sender, tx.nonce)
  }

  function TrackedKey(t: Tracked): string {
    FromNonceKey(t.sender, t.nonce)
  }

  /** The hash that a delivery replaces, empty when there is none. */
  function Victim(b: Books, tx: Tx): string {
    var key := TxKey(tx);
    if key in b.fromNonce && b.fromNonce[key] != tx.hash then b.fromNonce[key] else ""
  }

  /** The first lock section of a delivery. */
  function Arrive(b: Books, tx: Tx, now: int): Books {
    Books(b.txs[tx.hash :=
            if tx.hash in b.txs then b.txs[tx.hash].(lastSeen := now)
            else Tracked(tx.sender, tx.nonce, FirstSeen(tx, now), now, Pending)],
          b.fromNonce[TxKey(tx) := tx.hash])
  }

  /** The second lock section of a delivery, entered only with a victim. */
  function MarkReplaced(b: Books, victim: string): Books {
    if victim in b.txs then b.(txs := b.txs[victim := b.txs[victim].(status := Replaced)]) else b
  }

  /** The lock section that ends the tracking of a mined transaction. */
  function Forget(b: Books, hash: string): Books {
    if hash in b.txs then
      var key := TrackedKey(b.txs[hash]);
      Books(b.txs - {hash}, if key in b.fromNonce && b.fromNonce[key] == hash then b.fromNonce - {key} else b.fromNonce)
    else b
  }

  /** Pending entries first seen before the cutoff. */
  function Expired(b: Books, cutoff: int): set<string> {
    set h | h in b.txs && b.txs[h].status == Pending && b.txs[h].firstSeen < cutoff
  }

  /** The lock section of the sweep. */
  function Expire(b: Books, cutoff: int): Books {
    b.(txs := map h | h in b.txs ::
         if h in Expired(b, cutoff) then b.txs[h].(status := Dropped) else b.txs[h])
  }

  function PendingHashes(b: Books): set<string> {
    set h | h in b.txs && b.txs[h].status == Pending
  }

  /** The rows after marking every hash of the set as dropped. */
  function RowsDropped(rows: Rows, hashes: set<string>, now: int): Rows {
    map h | h in rows :: if h in hashes then rows[h].(status := Dropped, lastSeen := now) else rows[h]
  }

  /** Books and table together. */
  datatype View = View(books: Books, rows: Rows)

  /** A whole delivery by one thread; the flags say whether marking the victim's row and storing the row succeed. */
  function AfterDelivery(s: View, tx: Tx, now: int, marked: bool, stored: bool): View {
    var v := Victim(s.books, tx);
    var b := Arrive(s.books, tx, now);
    var rows := if v != "" && marked then RowReplaced(s.rows, v, tx.hash, now) else s.rows;
    View(if v != "" then MarkReplaced(b, v) else b, if stored then Upsert(rows, tx, now) else rows)
  }

  /** A whole handling of a receipt that says mined. */
  function AfterMined(s: View, hash: string, info: MinedInfo, now: int): View {
    View(Forget(s.books, hash), RowMined(s.rows, hash, info, now))
  }

  /** A whole sweep. */
  function AfterSweep(s: View, cutoff: int, now: int): View {
    View(Expire(s.books, cutoff), RowsDropped(s.rows, Expired(s.books, cutoff), now))
  }

  /** Another hash than the delivered one that held the key of its sender and nonce. */
  ghost predicate HeldKey(b: Books, tx: Tx, h: string) {
    var key := tx.sender + ":" + Dec(tx.nonce);
    h != tx.hash && h != "" && key in b.fromNonce && b.fromNonce[key] == h
  }

  /**
   * What a delivery does to the tracked entries, field by field: a new hash is first seen when the delivery
   * says, or now; a known one is seen again; the hash that held the key is replaced; and the key changes hands.
   */
  lemma EntriesAfterDelivery(s: View, tx: Tx, now: int, marked: bool, stored: bool, h: string)
    ensures var b, c := s.books, AfterDelivery(s, tx, now, marked, stored).books;
            (h in c.txs <==> h in b.txs || h == tx.hash) &&
            c.fromNonce == b.fromNonce[tx.sender + ":" + Dec(tx.nonce) := tx.hash] &&
            (h in c.txs && h !in b.txs ==>
               var e := c.txs[h];
               e.sender == tx.sender && e.nonce == tx.nonce && e.lastSeen == now && e.status == Pending &&
               e.firstSeen == match tx.firstSeen
                              case Some(at) => at
                              case None => now) &&
            (h in b.txs ==>
               var was, e := b.txs[h], c.txs[h];
               e.sender == was.sender && e.nonce == was.nonce && e.firstSeen == was.firstSeen &&
               e.lastSeen == (if h == tx.hash then now else was.lastSeen) &&
               e.status == (if HeldKey(b, tx, h) then Replaced else was.status))
  {
    hide Dec;
  }

  /** What it does to the rows, and what remains when one of its statements fails. */
  lemma RowsAfterDelivery(s: View, tx: Tx, now: int, marked: bool, stored: bool, h: string)
    ensures var rows := AfterDelivery(s, tx, now, marked, stored).rows;
            (h in rows <==> h in s.rows || (h == tx.hash && stored)) &&
            (h in rows && h !in s.rows ==>
               var r := rows[h];
               r.sender == tx.sender && r.nonce == tx.nonce && r.lastSeen == now && r.status == Pending &&
               r.replacedBy.None? && r.mined.None? &&
               r.firstSeen == match tx.firstSeen
                              case Some(at) => at
                              case None => now) &&
            (h in s.rows ==>
               var was, r := s.rows[h], rows[h];
               r.sender == was.sender && r.nonce == was.nonce && r.firstSeen == was.firstSeen && r.mined == was.mined &&
               if h == tx.hash && stored then
                 r.lastSeen == now && r.status == Pending && r.replacedBy == was.replacedBy
               else if HeldKey(s.books, tx, h) && marked then
                 r.lastSeen == now && r.status == Replaced && r.replacedBy == Some(tx.hash)
               else r == was)
  {
    hide Dec;
  }

  /** A mined transaction is tracked no longer, its key is free if it held it, and its row tells where it was mined. */
  lemma AfterMinedMeaning(s: View, hash: string, info: MinedInfo, now: int, h: string, key: string)
    ensures var t := AfterMined(s, hash, info, now);
            (h in t.books.txs <==> h in s.books.txs && h != hash) &&
            (h in t.books.txs ==> t.books.txs[h] == s.books.txs[h]) &&
            (key in t.books.fromNonce <==>
               key in s.books.fromNonce &&
               !(hash in s.books.txs && s.books.fromNonce[key] == hash &&
                 key == s.books.txs[hash].sender + ":" + Dec(s.books.txs[hash].nonce))) &&
            (key in t.books.fromNonce ==> t.books.fromNonce[key] == s.books.fromNonce[key]) &&
            (h in t.rows <==> h in s.rows) &&
            (h in s.rows ==>
               var was, r := s.rows[h], t.rows[h];
               if h != hash then r == was
               else r.sender == was.sender && r.nonce == was.nonce && r.firstSeen == was.firstSeen &&
                    r.replacedBy == was.replacedBy && r.lastSeen == now && r.status == Mined &&
                    r.mined.Some? && r.mined.value.blockNumber == info.blockNumber &&
                    r.mined.value.blockHash == info.blockHash && r.mined.value.txIndex == info.txIndex)
  {
    hide Dec;
  }

  /** A sweep drops exactly the pending entries first seen before the cutoff, and marks their rows. */
  lemma AfterSweepMeaning(s: View, cutoff: int, now: int, h: string)
    ensures var t := AfterSweep(s, cutoff, now);
            var expired := h in s.books.txs && s.books.txs[h].status == Pending && s.books.txs[h].firstSeen < cutoff;
            (h in t.books.txs <==> h in s.books.txs) && (h in t.rows <==> h in s.rows) &&
            t.books.fromNonce == s.books.fromNonce &&
            (h in s.books.txs ==>
               var was, e := s.books.txs[h], t.books.txs[h];
               e.sender == was.sender && e.nonce == was.nonce && e.firstSeen == was.firstSeen &&
               e.lastSeen == was.lastSeen && e.status == (if expired then Dropped else was.status)) &&
            (h in s.rows ==>
               var was, r := s.rows[h], t.rows[h];
               r.sender == was.sender && r.nonce == was.nonce && r.firstSeen == was.firstSeen &&
               r.mined == was.mined && r.replacedBy == was.replacedBy &&
               if expired then r.status == Dropped && r.lastSeen == now
               else r.status == was.status && r.lastSeen == was.lastSeen)
  {
  }

  /**
   * A transaction delivered for the first time and swept later is dropped if and only if the delivery's first-seen
   * time, or else the time of the delivery, lies before the cutoff. Delivering it again in between changes nothing.
   */
  lemma DroppedByFirstSeen(s: View, tx: Tx, now: int, marked: bool, stored: bool, again: Tx, next: int, cutoff: int,
                           later: int)
    requires tx.hash !in s.books.txs && again.hash == tx.hash
    ensures var t := AfterDelivery(s, tx, now, marked, stored);
            var seen := match tx.firstSeen
                        case Some(at) => at
                        case None => now;
            var swept := AfterSweep(t, cutoff, later).books.txs;
            var sweptAgain := AfterSweep(AfterDelivery(t, again, next, marked, stored), cutoff, later).books.txs;
            tx.hash in swept && swept[tx.hash].status == (if seen < cutoff then Dropped else Pending) &&
            tx.hash in sweptAgain && sweptAgain[tx.hash].status == (if seen < cutoff then Dropped else Pending)
  {
    hide Dec, AfterDelivery, AfterSweep;
    var t := AfterDelivery(s, tx, now, marked, stored);
    EntriesAfterDelivery(s, tx, now, marked, stored, tx.hash);
    EntriesAfterDelivery(t, again, next, marked, stored, tx.hash);
    AfterSweepMeaning(t, cutoff, later, tx.hash);
    AfterSweepMeaning(AfterDelivery(t, again, next, marked, stored), cutoff, later, tx.hash);
  }

  /** Each index entry points to a tracked transaction of that sender and nonce. */
  ghost predicate Coherent(b: Books) {
    forall k | k in b.fromNonce :: b.fromNonce[k] in b.txs && TrackedKey(b.txs[b.fromNonce[k]]) == k
  }

  /** A hash determines its sender and nonce. */
  ghost predicate Consistent(b: Books, tx: Tx) {
    tx.hash in b.txs ==> b.txs[tx.hash].sender == tx.sender && b.txs[tx.hash].nonce == tx.nonce
  }

  lemma SectionsKeepCoherence(b: Books, tx: Tx, now: int, hash: string, cutoff: int)
    requires Coherent(b) && Consistent(b, tx)
    ensures Coherent(Arrive(b, tx, now)) && Coherent(MarkReplaced(b, hash))
    ensures Coherent(Forget(b, hash)) && Coherent(Expire(b, cutoff))
  {
    hide FromNonceKey;
    assert forall k | k in b.fromNonce :: b.fromNonce[k] in b.txs;
  }

  /** Pending, then dropped, then replaced: the only order in which a tracked status moves. */
  function Rank(s: Status): nat {
    match s
    case Pending => 0
    case Dropped => 1
    case _ => 2
  }

  /** Sweeping twice with one cutoff is sweeping once, and nothing but expired pending entries changes. */
  lemma ExpireIsIdempotent(b: Books, cutoff: int)
    ensures Expire(Expire(b, cutoff), cutoff) == Expire(b, cutoff) && Expired(Expire(b, cutoff), cutoff) == {}
    ensures forall h | h in b.txs ::
              Expire(b, cutoff).txs[h] ==
              if b.txs[h].status == Pending && b.txs[h].firstSeen < cutoff then b.txs[h].(status := Dropped)
              else b.txs[h]
  {
  }

  class MempoolTable {
    var rows: Rows
    /** Whether each coming statement succeeds; after these every statement succeeds. */
    var verdicts: seq<bool>

    constructor ()
      ensures rows == map[] && verdicts == []
    {
      rows, verdicts := map[], [];
    }

    /** Whether the k-th coming statement succeeds. */
    predicate Succeeds(k: nat)
      reads this`verdicts
    {
      k >= |verdicts| || verdicts[k]
    }

    method Execute() returns (ok: bool)
      modifies this`verdicts
      ensures ok == old(Succeeds(0)) && verdicts == if old(verdicts) == [] then [] else old(verdicts)[1..]
    {
      ok := verdicts == [] || verdicts[0];
      if verdicts != [] {
        verdicts := verdicts[1..];
      }
    }

    method UpsertMempoolTx(tx: Tx, now: int) returns (ok: bool)
      modifies this
      ensures rows == if ok then Upsert(old(rows), tx, now) else old(rows)
      ensures ok == old(Succeeds(0)) && verdicts == if old(verdicts) == [] then [] else old(verdicts)[1..]
    {
      ok := Execute();
      if ok {
        rows := Upsert(rows, tx, now);
      }
    }

    method MarkMempoolMined(hash: string, info: MinedInfo, now: int) returns (ok: bool)
      modifies this
      ensures rows == if ok then RowMined(old(rows), hash, info, now) else old(rows)
      ensures ok == old(Succeeds(0)) && verdicts == if old(verdicts) == [] then [] else old(verdicts)[1..]
    {
      ok := Execute();
      if ok {
        rows := RowMined(rows, hash, info, now);
      }
    }

    method MarkMempoolReplaced(hash: string, winner: string, now: int) returns (ok: bool)
      modifies this
      ensures rows == if ok then RowReplaced(old(rows), hash, winner, now) else old(rows)
      ensures ok == old(Succeeds(0)) && verdicts == if old(verdicts) == [] then [] else old(verdicts)[1..]
    {
      ok := Execute();
      if ok {
        rows := RowReplaced(rows, hash, winner, now);
      }
    }

    method MarkMempoolDropped(hash: string, now: int) returns (ok: bool)
      modifies this
      ensures rows == if ok then RowDropped(old(rows), hash, now) else old(rows)
      ensures ok == old(Succeeds(0)) && verdicts == if old(verdicts) == [] then [] else old(verdicts)[1..]
    {
      ok := Execute();
      if ok {
        rows := RowDropped(rows, hash, now);
      }
    }
  }
}
