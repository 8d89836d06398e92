/** The tracker run by one thread, internal/mempool/tracker.go. */
module Tracking {
  import opened Prelude
  import opened Mempool
  import opened Decimal

  datatype ReceiptAnswer = QueryFailed | NotMined | MinedIn(info: MinedInfo)

  /** A sequence without duplicates has as many elements as their set. */
  lemma {:induction false} QueueSize(q: seq<string>)
    requires NoDuplicates(q)
    ensures |(set h | h in q)| == |q|
  {
    if q != [] {
      var rest := q[..|q| - 1];
      QueueSize(rest);
      assert q == rest + [q[|q| - 1]];
      assert (set h | h in q) == (set h | h in rest) + {q[|q| - 1]};
    }
  }

  /** The entries after marking those of the set as dropped. */
  function EntriesDropped(txs: map<string, Tracked>, hashes: set<string>): map<string, Tracked> {
    map h | h in txs :: if h in hashes then txs[h].(status := Dropped) else txs[h]
  }

  lemma NoEntryDropped(txs: map<string, Tracked>)
    ensures EntriesDropped(txs, {}) == txs
  {
  }

  lemma DropOneEntry(txs: map<string, Tracked>, done: set<string>, hash: string)
    requires hash in txs && hash !in done
    ensures hash in EntriesDropped(txs, done) && EntriesDropped(txs, done)[hash] == txs[hash]
    ensures EntriesDropped(txs, done + {hash}) == EntriesDropped(txs, done)[hash := txs[hash].(status := Dropped)]
  {
  }

  lemma ExpireDropsEntries(b: Books, cutoff: int)
    ensures Expire(b, cutoff) == b.(txs := EntriesDropped(b.txs, Expired(b, cutoff)))
  {
  }

  /** The hashes of the list whose statement succeeds. */
  function Marked(order: seq<string>, verdicts: seq<bool>): set<string> {
    set i | 0 <= i < |order| && (i >= |verdicts| || verdicts[i]) :: order[i]
  }

  lemma NothingMarked(rows: Rows, order: seq<string>, verdicts: seq<bool>, now: int)
    ensures RowsDropped(rows, Marked(order[..0], verdicts), now) == rows
  {
    assert Marked(order[..0], verdicts) == {};
  }

  lemma MarkOneMore(rows: Rows, order: seq<string>, i: nat, verdicts: seq<bool>, now: int)
    requires i < |order|
    ensures var before, after := RowsDropped(rows, Marked(order[..i], verdicts), now),
                                 RowsDropped(rows, Marked(order[..i + 1], verdicts), now);
            after == if i >= |verdicts| || verdicts[i] then RowDropped(before, order[i], now) else before
  {
    var a, b := Marked(order[..i], verdicts), Marked(order[..i + 1], verdicts);
    assert order[..i + 1] == order[..i] + [order[i]];
    assert b == if i >= |verdicts| || verdicts[i] then a + {order[i]} else a;
  }

  /** Without failures every hash of the list is marked. */
  lemma AllMarked(order: seq<string>)
    ensures Marked(order, []) == set h | h in order
  {
  }

  class Tracker {
    const store: MempoolTable
    const droppedTTL: int
    const receiptWorkers: int
    const maxInflight: nat
    var txs: map<string, Tracked>
    var fromNonce: map<string, string>
    var inflight: set<string>
    var receiptC: seq<string>

    function Records(): Books
      reads this
    {
      Books(txs, fromNonce)
    }

    function Contents(): View
      reads this, store
    {
      View(Records(), store.rows)
    }

    /** Without threads in between, the hashes in flight are the queued ones, each queued once. */
    ghost predicate Valid()
      reads this
    {
      maxInflight > 0 && NoDuplicates(receiptC) && inflight == (set h | h in receiptC) && |inflight| <= maxInflight
    }

    constructor (store: MempoolTable, droppedTTL: int, receiptWorkers: int, maxInflight: int)
      ensures Valid() && this.store == store && Records() == Books(map[], map[])
      ensures this.droppedTTL == if droppedTTL <= 0 then 600_000_000_000 else droppedTTL
      ensures this.receiptWorkers == if receiptWorkers <= 0 then 4 else receiptWorkers
      ensures this.maxInflight == if maxInflight <= 0 then 10000 else maxInflight
    {
      this.store := store;
      this.droppedTTL := if droppedTTL <= 0 then 600_000_000_000 else droppedTTL;
      this.receiptWorkers := if receiptWorkers <= 0 then 4 else receiptWorkers;
      this.maxInflight := if maxInflight <= 0 then 10000 else maxInflight;
      txs, fromNonce, inflight, receiptC := map[], map[], {}, [];
    }

    /** The first lock section of a delivery. */
    method ArriveLocked(tx: Tx, now: int) returns (replaced: string)
      modifies this`txs, this`fromNonce
      ensures Records() == Arrive(old(Records()), tx, now) && replaced == Victim(old(Records()), tx)
      ensures tx.hash in txs && txs[tx.hash].lastSeen == now
      ensures tx.hash in old(txs) ==> txs[tx.hash] == old(txs)[tx.hash].(lastSeen := now)
      ensures tx.hash !in old(txs) ==>
                txs[tx.hash].status == Pending &&
                txs[tx.hash].firstSeen == if tx.firstSeen.Some? then tx.firstSeen.value else now
    {
      hide Dec;
      var nonceText := FmtUint64(tx.nonce);
      var key := tx.sender + ":" + nonceText;
      replaced := "";
      if key in fromNonce && fromNonce[key] != tx.hash {
        replaced := fromNonce[key];
      }
      fromNonce := fromNonce[key := tx.hash];
      if tx.hash in txs {
        txs := txs[tx.hash := txs[tx.hash].(lastSeen := now)];
      } else {
        var firstSeen := if tx.firstSeen.Some? then tx.firstSeen.value else now;
        txs := txs[tx.hash := Tracked(tx.sender, tx.nonce, firstSeen, now, Pending)];
      }
    }

    /** The second lock section of a delivery. */
    method MarkReplacedLocked(replaced: string)
      modifies this`txs
      ensures Records() == MarkReplaced(old(Records()), replaced)
    {
      if replaced in txs {
        txs := txs[replaced := txs[replaced].(status := Replaced)];
      }
    }

    /** Put a hash in flight and in the queue unless it is in flight already or the cap is reached. */
    method EnqueueReceipt(hash: string)
      requires Valid()
      modifies this`inflight, this`receiptC
      ensures Valid()
      ensures var added := hash !in old(inflight) && |old(inflight)| < maxInflight;
              inflight == (if added then old(inflight) + {hash} else old(inflight)) &&
              receiptC == (if added then old(receiptC) + [hash] else old(receiptC))
    {
      if hash in inflight {
        return;
      }
      if |inflight| >= maxInflight {
        return;
      }
      QueueSize(receiptC);
      inflight := inflight + {hash};
      if |receiptC| < maxInflight {
        receiptC := receiptC + [hash];
      } else {
        inflight := inflight - {hash};
      }
    }

    /** Books, table and queue after a delivery, whichever of its statements fail. */
    method HandleTx(tx: Tx, now: int) returns (ok: bool)
      requires Valid()
      modifies this, store
      ensures Valid()
      ensures ok == old(store.Succeeds(if Victim(Records(), tx) == "" then 0 else 1))
      ensures Contents() == AfterDelivery(old(Contents()), tx, now, old(store.Succeeds(0)), ok)
      ensures tx.hash in txs && txs[tx.hash].lastSeen == now
      ensures tx.hash in old(txs) ==>
                txs[tx.hash].firstSeen == old(txs)[tx.hash].firstSeen &&
                txs[tx.hash].status == old(txs)[tx.hash].status
      ensures tx.hash !in old(txs) ==>
                txs[tx.hash].status == Pending &&
                txs[tx.hash].firstSeen == if tx.firstSeen.Some? then tx.firstSeen.value else now
      ensures old(inflight) <= inflight <= old(inflight) + {tx.hash}
      ensures ok ==> tx.hash in inflight || |inflight| == maxInflight
      ensures !ok ==> inflight == old(inflight) && receiptC == old(receiptC)
    {
      hide Victim, Arrive, MarkReplaced, Upsert, RowReplaced;
      EntriesAfterDelivery(Contents(), tx, now, store.Succeeds(0), true, tx.hash);
      EntriesAfterDelivery(Contents(), tx, now, store.Succeeds(0), false, tx.hash);
      var replaced := ArriveLocked(tx, now);
      if replaced != "" {
        var _ := store.MarkMempoolReplaced(replaced, tx.hash, now);
        MarkReplacedLocked(replaced);
      }
      ok := store.UpsertMempoolTx(tx, now);
      if !ok {
        return;
      }
      EnqueueReceipt(tx.hash);
    }

    /** The pending hashes, in the map's order, which is any order. */
    method CollectPending() returns (pending: seq<string>)
      ensures forall h :: h in pending <==> h in PendingHashes(Records())
      ensures forall h :: h in pending <==> h in txs && txs[h].status == Pending
    {
      pending := [];
      var unseen := txs.Keys;
      while unseen != {}
        invariant unseen <= txs.Keys
        invariant forall h :: h in pending <==> h in PendingHashes(Records()) - unseen
        decreases |unseen|
      {
        var hash :| hash in unseen;
        if txs[hash].status == Pending {
          pending := pending + [hash];
        }
        unseen := unseen - {hash};
      }
    }

    /** Every pending transaction ends up in flight, unless the cap is reached; nothing in flight is lost. */
    method ScheduleReceipts()
      requires Valid()
      modifies this`inflight, this`receiptC
      ensures Valid()
      ensures old(inflight) <= inflight
      ensures (forall h | h in txs && txs[h].status == Pending :: h in inflight) || |inflight| == maxInflight
      ensures forall h | h in inflight && h !in old(inflight) :: h in txs && txs[h].status == Pending
      ensures old(receiptC) <= receiptC
    {
      var pending := CollectPending();
      hide PendingHashes, NoDuplicates;
      for i := 0 to |pending|
        invariant Valid() && old(inflight) <= inflight && old(receiptC) <= receiptC
        invariant forall h | h in inflight && h !in old(inflight) :: h in pending
        invariant |inflight| == maxInflight || forall j | 0 <= j < i :: pending[j] in inflight
      {
        assert pending[i] in pending;
        EnqueueReceipt(pending[i]);
      }
    }

    method HandleReceipt(hash: string, answer: ReceiptAnswer, now: int)
      modifies this`txs, this`fromNonce, this`inflight, store
      ensures inflight == old(inflight) - {hash}
      ensures !answer.MinedIn? ==> store.verdicts == old(store.verdicts) && Contents() == old(Contents())
      ensures answer.MinedIn? ==>
                Contents() == if old(store.Succeeds(0)) then AfterMined(old(Contents()), hash, answer.info, now)
                              else old(Contents())
    {
      if answer.MinedIn? {
        var ok := store.MarkMempoolMined(hash, answer.info, now);
        if ok {
          if hash in txs {
            var tracked := txs[hash];
            txs := txs - {hash};
            var nonceText := FmtUint64(tracked.nonce);
            var key := tracked.sender + ":" + nonceText;
            if key in fromNonce && fromNonce[key] == hash {
              fromNonce := fromNonce - {key};
            }
          }
        }
      }
      inflight := inflight - {hash};
    }

    /** A worker takes the oldest queued hash, asks for its receipt, and releases it whatever the answer. */
    method ReceiveAndHandle(answer: ReceiptAnswer, now: int)
      requires Valid() && receiptC != []
      modifies this, store
      ensures Valid() && receiptC == old(receiptC)[1..] && inflight == old(inflight) - {old(receiptC)[0]}
      ensures answer.MinedIn? ==>
                Contents() ==
                  if old(store.Succeeds(0)) then AfterMined(old(Contents()), old(receiptC)[0], answer.info, now)
                  else old(Contents())
      ensures !answer.MinedIn? ==> store.verdicts == old(store.verdicts) && Contents() == old(Contents())
    {
      var hash := receiptC[0];
      receiptC := receiptC[1..];
      HandleReceipt(hash, answer, now);
    }

    /** The lock section of the sweep; the hashes to mark come in the map's order, which is any order. */
    method MarkExpired(cutoff: int) returns (dropped: seq<string>)
      modifies this`txs
      ensures Records() == Expire(old(Records()), cutoff)
      ensures (set h | h in dropped) == Expired(old(Records()), cutoff)
    {
      hide EntriesDropped;
      dropped := [];
      var unseen := txs.Keys;
      ghost var entries, expired := txs, Expired(Records(), cutoff);
      NoEntryDropped(entries);
      assert expired - unseen == {};
      while unseen != {}
        invariant unseen <= entries.Keys
        invariant txs == EntriesDropped(entries, expired - unseen)
        invariant (set h | h in dropped) == expired - unseen
        decreases |unseen|
      {
        var hash :| hash in unseen;
        DropOneEntry(entries, expired - unseen, hash);
        if txs[hash].status == Pending && txs[hash].firstSeen < cutoff {
          dropped := dropped + [hash];
          txs := txs[hash := txs[hash].(status := Dropped)];
          assert expired - (unseen - {hash}) == (expired - unseen) + {hash};
        } else {
          assert expired - (unseen - {hash}) == expired - unseen;
        }
        unseen := unseen - {hash};
      }
      assert expired - unseen == expired;
      ExpireDropsEntries(old(Records()), cutoff);
    }

    /** `order` is the order in which the hashes are marked in the table; a statement that fails is skipped. */
    method DropExpired(now: int) returns (ghost order: seq<string>)
      modifies this`txs, store
      ensures Records() == Expire(old(Records()), now - droppedTTL)
      ensures (set h | h in order) == Expired(old(Records()), now - droppedTTL)
      ensures txs.Keys == old(txs).Keys
      ensures forall h | h in txs ::
                txs[h].firstSeen == old(txs)[h].firstSeen &&
                txs[h].status ==
                  if old(txs)[h].status == Pending && old(txs)[h].firstSeen < now - droppedTTL then Dropped
                  else old(txs)[h].status
      ensures store.rows == RowsDropped(old(store.rows), Marked(order, old(store.verdicts)), now)
      ensures old(store.verdicts) == [] ==> Contents() == AfterSweep(old(Contents()), now - droppedTTL, now)
    {
      hide RowsDropped, Marked;
      ghost var rows, verdicts := store.rows, store.verdicts;
      var cutoff := now - droppedTTL;
      var dropped := MarkExpired(cutoff);
      NothingMarked(rows, dropped, verdicts, now);
      for i := 0 to |dropped|
        invariant Records() == Expire(old(Records()), cutoff)
        invariant store.verdicts == verdicts[Min(i, |verdicts|)..]
        invariant store.rows == RowsDropped(rows, Marked(dropped[..i], verdicts), now)
      {
        MarkOneMore(rows, dropped, i, verdicts, now);
        var _ := store.MarkMempoolDropped(dropped[i], now);
      }
      assert dropped[..|dropped|] == dropped;
      order := dropped;
      AllMarked(order);
    }
  }
}
