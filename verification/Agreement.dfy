/**
 * Tracker and table together, for runs of one thread in which every statement succeeds. Each operation is
 * what the tracker's method of that name ensures.
 */
module Agreement {
  import opened Prelude
  import opened Decimal
  import opened Mempool
  import opened Tracking

  datatype Op =
    | Deliver(tx: Tx, now: int)
    | Receipt(hash: string, answer: ReceiptAnswer, now: int)
    | Sweep(cutoff: int, now: int)

  /** The tracker's books, the table, and the place of each hash in the order of first deliveries. */
  datatype Ledger = Ledger(books: Books, rows: Rows, order: map<string, nat>)

  function Do(l: Ledger, op: Op): Ledger {
    var s := View(l.books, l.rows);
    match op
    case Deliver(tx, now) =>
      var t := AfterDelivery(s, tx, now, true, true);
      Ledger(t.books, t.rows, if tx.hash in l.order then l.order else l.order[tx.hash := |l.order|])
    case Receipt(hash, answer, now) =>
      if answer.MinedIn? then
        var t := AfterMined(s, hash, answer.info, now);
        Ledger(t.books, t.rows, l.order)
      else l
    case Sweep(cutoff, now) =>
      var t := AfterSweep(s, cutoff, now);
      Ledger(t.books, t.rows, l.order)
  }

  function DoAll(ops: seq<Op>): Ledger {
    if ops == [] then Ledger(Books(map[], map[]), map[], map[])
    else Do(DoAll(ops[..|ops| - 1]), ops[|ops| - 1])
  }

  /** No hash is empty and none is delivered twice. */
  ghost predicate DeliverOnce(ops: seq<Op>) {
    (forall i | 0 <= i < |ops| && ops[i].Deliver? :: ops[i].tx.hash != "") &&
    (forall i, j | 0 <= i < j < |ops| && ops[i].Deliver? && ops[j].Deliver? :: ops[i].tx.hash != ops[j].tx.hash)
  }

  /** The row has the tracked status; a row no longer tracked is mined. */
  predicate SameStatus(l: Ledger, h: string) {
    h in l.rows ==> l.rows[h].status == if h in l.books.txs then l.books.txs[h].status else Mined
  }

  /** A replaced row names a later delivery of the same sender and nonce. */
  predicate Linked(l: Ledger, h: string) {
    h in l.rows && h in l.order && l.rows[h].status == Replaced ==>
      l.rows[h].replacedBy.Some? &&
      var w := l.rows[h].replacedBy.value;
      w in l.rows && w in l.order && l.rows[w].sender == l.rows[h].sender && l.rows[w].nonce == l.rows[h].nonce &&
      l.order[h] < l.order[w]
  }

  /** A delivered hash, and no other, has a row; what is tracked of it is what the row says. */
  predicate Recorded(l: Ledger, h: string) {
    (h in l.rows <==> h in l.order) && (h in l.order ==> l.order[h] < |l.order|) &&
    (h in l.books.txs ==>
       h in l.rows && l.books.txs[h].sender == l.rows[h].sender && l.books.txs[h].nonce == l.rows[h].nonce)
  }

  ghost predicate Agrees(l: Ledger) {
    "" !in l.rows && Coherent(l.books) && forall h :: Recorded(l, h) && SameStatus(l, h) && Linked(l, h)
  }

  /** The hash that a delivery replaces is tracked, has a row, and has the same sender and nonce. */
  lemma VictimIsTracked(l: Ledger, tx: Tx)
    requires Agrees(l)
    ensures var v := Victim(l.books, tx);
            v != "" ==> v != tx.hash && v in l.books.txs && v in l.rows && v in l.order &&
                        l.rows[v].sender == tx.sender && l.rows[v].nonce == tx.nonce
  {
    hide Dec, Linked, SameStatus;
    var v := Victim(l.books, tx);
    if v != "" {
      var t := l.books.txs[v];
      KeyIsInjective(t.sender, t.nonce, tx.sender, tx.nonce);
      assert Recorded(l, v);
    }
  }

  /** What a first delivery changes, hash by hash: the victim, if any, and the new hash. */
  lemma DeliverEffect(l: Ledger, tx: Tx, now: int, h: string)
    requires Agrees(l) && tx.hash != "" && tx.hash !in l.order
    ensures var v, m := Victim(l.books, tx), Do(l, Deliver(tx, now));
            if h == tx.hash then
              h in m.rows && h in m.books.txs && h in m.order && m.order[h] == |l.order| &&
              m.rows[h].status == m.books.txs[h].status == Pending &&
              m.rows[h].sender == m.books.txs[h].sender == tx.sender &&
              m.rows[h].nonce == m.books.txs[h].nonce == tx.nonce
            else
              (h in m.rows <==> h in l.rows) && (h in m.books.txs <==> h in l.books.txs) &&
              (h in m.order <==> h in l.order) && (h in l.order ==> m.order[h] == l.order[h]) &&
              (h in l.rows ==> m.rows[h].sender == l.rows[h].sender && m.rows[h].nonce == l.rows[h].nonce) &&
              (h in l.books.txs ==>
                 m.books.txs[h].sender == l.books.txs[h].sender && m.books.txs[h].nonce == l.books.txs[h].nonce)
    ensures var v, m := Victim(l.books, tx), Do(l, Deliver(tx, now));
            h != tx.hash ==>
              if h == v && v != "" then
                h in m.rows && h in m.books.txs && m.rows[h].status == m.books.txs[h].status == Replaced &&
                m.rows[h].replacedBy == Some(tx.hash)
              else
                (h in l.rows ==> m.rows[h] == l.rows[h]) && (h in l.books.txs ==> m.books.txs[h] == l.books.txs[h])
  {
    hide FromNonceKey;
    VictimIsTracked(l, tx);
    assert Recorded(l, h) && Recorded(l, tx.hash);
    hide Linked, SameStatus, Coherent, Victim;
  }

  lemma DeliverKeepsCoherence(l: Ledger, tx: Tx, now: int)
    requires Agrees(l) && tx.hash !in l.order
    ensures Coherent(Do(l, Deliver(tx, now)).books)
    ensures |Do(l, Deliver(tx, now)).order| == |l.order| + 1
  {
    hide FromNonceKey, Coherent, SameStatus, Linked;
    assert Recorded(l, tx.hash);
    var b := Arrive(l.books, tx, now);
    SectionsKeepCoherence(l.books, tx, now, "", 0);
    SectionsKeepCoherence(b, tx, now, Victim(l.books, tx), 0);
  }

  lemma DeliverAgrees(l: Ledger, tx: Tx, now: int)
    requires Agrees(l) && tx.hash != "" && tx.hash !in l.order
    ensures Agrees(Do(l, Deliver(tx, now)))
  {
    hide Do, Victim, Coherent;
    var v := Victim(l.books, tx);
    var m := Do(l, Deliver(tx, now));
    VictimIsTracked(l, tx);
    DeliverKeepsCoherence(l, tx, now);
    DeliverEffect(l, tx, now, "");
    DeliverEffect(l, tx, now, tx.hash);
    forall h
      ensures Recorded(m, h) && SameStatus(m, h) && Linked(m, h)
    {
      DeliverEffect(l, tx, now, h);
      assert Recorded(l, h) && SameStatus(l, h) && Linked(l, h);
      if h in l.rows && h != v && l.rows[h].status == Replaced {
        DeliverEffect(l, tx, now, l.rows[h].replacedBy.value);
      }
    }
  }

  lemma ForgetKeepsCoherence(b: Books, hash: string)
    requires Coherent(b)
    ensures Coherent(Forget(b, hash))
  {
    hide FromNonceKey, Coherent, Forget;
    SectionsKeepCoherence(b, Tx(hash, if hash in b.txs then b.txs[hash].sender else "",
                                if hash in b.txs then b.txs[hash].nonce else 0, None), 0, hash, 0);
  }

  lemma ReceiptKeepsStatus(l: Ledger, hash: string, answer: ReceiptAnswer, now: int, h: string)
    requires Agrees(l)
    ensures Recorded(Do(l, Receipt(hash, answer, now)), h) && SameStatus(Do(l, Receipt(hash, answer, now)), h)
  {
    hide FromNonceKey, Coherent, Linked;
    assert Recorded(l, h) && SameStatus(l, h);
  }

  lemma ReceiptKeepsLink(l: Ledger, hash: string, answer: ReceiptAnswer, now: int, h: string)
    requires Agrees(l)
    ensures Linked(Do(l, Receipt(hash, answer, now)), h)
  {
    hide FromNonceKey, Coherent, Recorded, SameStatus, Forget;
    assert Linked(l, h);
  }

  lemma ReceiptAgrees(l: Ledger, hash: string, answer: ReceiptAnswer, now: int)
    requires Agrees(l)
    ensures Agrees(Do(l, Receipt(hash, answer, now)))
  {
    hide FromNonceKey, Coherent, Recorded, SameStatus, Linked, Forget;
    ForgetKeepsCoherence(l.books, hash);
    forall h
      ensures Recorded(Do(l, Receipt(hash, answer, now)), h) && SameStatus(Do(l, Receipt(hash, answer, now)), h)
      ensures Linked(Do(l, Receipt(hash, answer, now)), h)
    {
      ReceiptKeepsStatus(l, hash, answer, now, h);
      ReceiptKeepsLink(l, hash, answer, now, h);
    }
  }

  lemma SweepAgrees(l: Ledger, cutoff: int, now: int)
    requires Agrees(l)
    ensures Agrees(Do(l, Sweep(cutoff, now)))
  {
    hide FromNonceKey;
    var m := Do(l, Sweep(cutoff, now));
    forall h
      ensures Recorded(m, h) && SameStatus(m, h) && Linked(m, h)
    {
      assert Recorded(l, h) && SameStatus(l, h) && Linked(l, h);
    }
  }

  /** The hash was delivered by one of the operations. */
  ghost predicate Delivered(ops: seq<Op>, h: string) {
    exists i :: 0 <= i < |ops| && ops[i].Deliver? && ops[i].tx.hash == h
  }

  lemma DeliveredOneMore(ops: seq<Op>, h: string)
    requires ops != []
    ensures var last := ops[|ops| - 1];
            Delivered(ops, h) <==> Delivered(ops[..|ops| - 1], h) || (last.Deliver? && last.tx.hash == h)
  {
    var before := ops[..|ops| - 1];
    assert forall i | 0 <= i < |before| :: before[i] == ops[i];
  }

  lemma OrderOneMore(l: Ledger, op: Op)
    ensures Do(l, op).order.Keys == l.order.Keys + if op.Deliver? then {op.tx.hash} else {}
  {
  }

  lemma OnceBefore(ops: seq<Op>)
    requires DeliverOnce(ops) && ops != []
    ensures DeliverOnce(ops[..|ops| - 1])
    ensures var last := ops[|ops| - 1];
            last.Deliver? ==> last.tx.hash != "" && !Delivered(ops[..|ops| - 1], last.tx.hash)
  {
  }

  lemma {:induction false} OrderIsDelivered(ops: seq<Op>, h: string)
    ensures h in DoAll(ops).order <==> Delivered(ops, h)
  {
    if ops != [] {
      hide Do, Delivered;
      OrderIsDelivered(ops[..|ops| - 1], h);
      DeliveredOneMore(ops, h);
      OrderOneMore(DoAll(ops[..|ops| - 1]), ops[|ops| - 1]);
    }
  }

  lemma AgreesMeans(l: Ledger, h: string)
    requires Agrees(l)
    ensures Recorded(l, h) && SameStatus(l, h) && Linked(l, h)
  {
  }

  /** After any run that delivers each hash once, tracker and table agree, with a row for each delivered hash. */
  lemma {:induction false} RunAgrees(ops: seq<Op>)
    requires DeliverOnce(ops)
    ensures Agrees(DoAll(ops)) && forall h :: h in DoAll(ops).rows <==> Delivered(ops, h)
  {
    if ops != [] {
      hide Agrees, Do, Delivered, DeliverOnce;
      var n := |ops| - 1;
      var l := DoAll(ops[..n]);
      OnceBefore(ops);
      RunAgrees(ops[..n]);
      match ops[n]
      case Deliver(tx, now) =>
        OrderIsDelivered(ops[..n], tx.hash);
        DeliverAgrees(l, tx, now);
      case Receipt(hash, answer, now) => ReceiptAgrees(l, hash, answer, now);
      case Sweep(cutoff, now) => SweepAgrees(l, cutoff, now);
    }
    forall h
      ensures h in DoAll(ops).rows <==> Delivered(ops, h)
    {
      AgreesMeans(DoAll(ops), h);
      OrderIsDelivered(ops, h);
    }
  }

  /** Follow the replacement links from a row to their end. */
  ghost function LastReplacement(l: Ledger, h: string): string
    requires Agrees(l) && h in l.rows
    decreases if h in l.order then |l.order| - l.order[h] else 0
  {
    AgreesMeans(l, h);
    if l.rows[h].status == Replaced then
      AgreesMeans(l, l.rows[h].replacedBy.value);
      LastReplacement(l, l.rows[h].replacedBy.value)
    else h
  }

  /** The links end at a row of the same sender and nonce that is not replaced. */
  lemma {:induction false} LinksEnd(l: Ledger, h: string)
    requires Agrees(l) && h in l.rows
    ensures var e := LastReplacement(l, h);
            e in l.rows && l.rows[e].status != Replaced &&
            l.rows[e].sender == l.rows[h].sender && l.rows[e].nonce == l.rows[h].nonce
    decreases if h in l.order then |l.order| - l.order[h] else 0
  {
    AgreesMeans(l, h);
    if l.rows[h].status == Replaced {
      AgreesMeans(l, l.rows[h].replacedBy.value);
      LinksEnd(l, l.rows[h].replacedBy.value);
    }
  }

  /** A delivery makes the row pending and leaves a tracked status as it was. */
  lemma RedeliveredStatus(l: Ledger, tx: Tx, now: int)
    requires Agrees(l) && tx.hash != ""
    ensures var m := Do(l, Deliver(tx, now));
            tx.hash in m.rows && m.rows[tx.hash].status == Pending && tx.hash in m.books.txs &&
            m.books.txs[tx.hash].status == if tx.hash in l.books.txs then l.books.txs[tx.hash].status else Pending
  {
    hide FromNonceKey, Coherent;
    VictimIsTracked(l, tx);
  }

  /** Delivering a transaction keeps every status in agreement exactly when its hash is new, mined or still pending. */
  lemma RedeliveryAgreesIff(l: Ledger, tx: Tx, now: int)
    requires Agrees(l) && tx.hash != ""
    ensures (forall h :: SameStatus(Do(l, Deliver(tx, now)), h))
       <==> (tx.hash in l.books.txs ==> l.books.txs[tx.hash].status == Pending)
  {
    hide FromNonceKey;
    var m := Do(l, Deliver(tx, now));
    VictimIsTracked(l, tx);
    RedeliveredStatus(l, tx, now);
    if tx.hash in l.books.txs ==> l.books.txs[tx.hash].status == Pending {
      forall h
        ensures SameStatus(m, h)
      {
        AgreesMeans(l, h);
      }
    } else {
      assert !SameStatus(m, tx.hash);
    }
  }

  /** After one delivery its hash holds the key of its sender and nonce. */
  lemma FirstDelivery(x: Tx, now: int)
    ensures var l := Do(DoAll([]), Deliver(x, now));
            x.hash in l.books.txs && l.books.fromNonce == map[TxKey(x) := x.hash]
  {
    hide FromNonceKey;
  }

  /** Two transactions of one sender and nonce, and the first delivered once more after it was replaced. */
  lemma RedeliveryAfterReplacement(x: Tx, y: Tx, now: int)
    requires x.hash != "" && y.hash != "" && x.hash != y.hash && x.sender == y.sender && x.nonce == y.nonce
    ensures var ops := [Deliver(x, now), Deliver(y, now)];
            Agrees(DoAll(ops)) && !SameStatus(DoAll(ops + [Deliver(x, now)]), x.hash)
  {
    hide FromNonceKey, Agrees, Do;
    var ops := [Deliver(x, now), Deliver(y, now)];
    assert [Deliver(x, now)][..0] == [] && ops[..1] == [Deliver(x, now)] && (ops + [Deliver(x, now)])[..2] == ops;
    RunAgrees(ops[..1]);
    RunAgrees(ops);
    var l1, l2 := DoAll(ops[..1]), DoAll(ops);
    FirstDelivery(x, now);
    OrderIsDelivered(ops[..1], y.hash);
    DeliverEffect(l1, y, now, x.hash);
    RedeliveredStatus(l2, x, now);
  }

  /** The i-th operation delivers the hash, and none before it does. */
  ghost predicate FirstDelivered(ops: seq<Op>, h: string, i: nat) {
    i < |ops| && ops[i].Deliver? && ops[i].tx.hash == h && !Delivered(ops[..i], h)
  }

  /** The time a delivery gives for the first sight of its transaction. */
  function SeenAt(op: Op): int
    requires op.Deliver?
  {
    match op.tx.firstSeen
    case Some(at) => at
    case None => op.now
  }

  /** Sender, nonce and first-seen time of a row or entry never change; a new one takes them from its delivery. */
  lemma DoKeepsOrigins(l: Ledger, op: Op, h: string)
    ensures var m := Do(l, op);
            (h in l.rows ==>
               h in m.rows && m.rows[h].sender == l.rows[h].sender && m.rows[h].nonce == l.rows[h].nonce &&
               m.rows[h].firstSeen == l.rows[h].firstSeen) &&
            (h in l.books.txs && h in m.books.txs ==>
               m.books.txs[h].sender == l.books.txs[h].sender && m.books.txs[h].nonce == l.books.txs[h].nonce &&
               m.books.txs[h].firstSeen == l.books.txs[h].firstSeen)
    ensures var m := Do(l, op);
            if op.Deliver? && op.tx.hash == h then
              h in m.rows && h in m.books.txs &&
              (h !in l.rows ==>
                 m.rows[h].sender == op.tx.sender && m.rows[h].nonce == op.tx.nonce &&
                 m.rows[h].firstSeen == SeenAt(op)) &&
              (h !in l.books.txs ==>
                 m.books.txs[h].sender == op.tx.sender && m.books.txs[h].nonce == op.tx.nonce &&
                 m.books.txs[h].firstSeen == SeenAt(op))
            else (h in m.rows ==> h in l.rows) && (h in m.books.txs ==> h in l.books.txs)
  {
    hide AfterDelivery, AfterMined, AfterSweep, HeldKey, Dec;
    var s := View(l.books, l.rows);
    match op
    case Deliver(tx, now) =>
      EntriesAfterDelivery(s, tx, now, true, true, h);
      RowsAfterDelivery(s, tx, now, true, true, h);
    case Receipt(hash, answer, now) =>
      if answer.MinedIn? {
        AfterMinedMeaning(s, hash, answer.info, now, h, "");
      }
    case Sweep(cutoff, now) => AfterSweepMeaning(s, cutoff, now, h);
  }

  lemma {:induction false} OnlyDelivered(ops: seq<Op>, h: string)
    ensures h in DoAll(ops).rows || h in DoAll(ops).books.txs ==> Delivered(ops, h)
  {
    if ops != [] {
      hide Do, Delivered;
      OnlyDelivered(ops[..|ops| - 1], h);
      DeliveredOneMore(ops, h);
      DoKeepsOrigins(DoAll(ops[..|ops| - 1]), ops[|ops| - 1], h);
    }
  }

  lemma {:induction false} DeliveredHasFirst(ops: seq<Op>, h: string)
    requires Delivered(ops, h)
    ensures exists i: nat :: FirstDelivered(ops, h, i)
  {
    var i :| 0 <= i < |ops| && ops[i].Deliver? && ops[i].tx.hash == h;
    if Delivered(ops[..i], h) {
      DeliveredHasFirst(ops[..i], h);
      var j: nat :| FirstDelivered(ops[..i], h, j);
      assert ops[..i][..j] == ops[..j];
      assert FirstDelivered(ops, h, j);
    } else {
      assert FirstDelivered(ops, h, i);
    }
  }

  /** After any run a row tells sender, nonce and first-seen time of the first delivery of its hash. */
  lemma {:induction false} RowTellsFirstDelivery(ops: seq<Op>, h: string, i: nat)
    requires FirstDelivered(ops, h, i)
    ensures var rows, tx := DoAll(ops).rows, ops[i].tx;
            h in rows && rows[h].sender == tx.sender && rows[h].nonce == tx.nonce &&
            rows[h].firstSeen == SeenAt(ops[i])
  {
    hide Do, Delivered, SeenAt;
    var n := |ops| - 1;
    DoKeepsOrigins(DoAll(ops[..n]), ops[n], h);
    if i == n {
      OnlyDelivered(ops[..n], h);
    } else {
      assert ops[..n][..i] == ops[..i];
      RowTellsFirstDelivery(ops[..n], h, i);
    }
  }

  lemma NoneLater(ops: seq<Op>, h: string, i: nat)
    requires DeliverOnce(ops) && FirstDelivered(ops, h, i) && i < |ops| - 1
    ensures !(ops[|ops| - 1].Deliver? && ops[|ops| - 1].tx.hash == h)
  {
  }

  /** When each hash is delivered once, so does its entry as long as it is tracked. */
  lemma {:induction false} EntryTellsDelivery(ops: seq<Op>, h: string, i: nat)
    requires DeliverOnce(ops) && FirstDelivered(ops, h, i) && h in DoAll(ops).books.txs
    ensures var e, tx := DoAll(ops).books.txs[h], ops[i].tx;
            e.sender == tx.sender && e.nonce == tx.nonce && e.firstSeen == SeenAt(ops[i])
  {
    hide Do, Delivered, SeenAt, DeliverOnce;
    var n := |ops| - 1;
    DoKeepsOrigins(DoAll(ops[..n]), ops[n], h);
    if i == n {
      OnlyDelivered(ops[..n], h);
    } else {
      assert ops[..n][..i] == ops[..i];
      OnceBefore(ops);
      NoneLater(ops, h, i);
      EntryTellsDelivery(ops[..n], h, i);
    }
  }

  /** A sweep after any such run drops a pending transaction, and its row, exactly if it was first seen too early. */
  lemma SweepDropsByFirstSeen(ops: seq<Op>, h: string, i: nat, cutoff: int, now: int)
    requires DeliverOnce(ops) && FirstDelivered(ops, h, i)
    requires h in DoAll(ops).books.txs && DoAll(ops).books.txs[h].status == Pending
    ensures var m := Do(DoAll(ops), Sweep(cutoff, now));
            var status := if SeenAt(ops[i]) < cutoff then Dropped else Pending;
            h in m.books.txs && m.books.txs[h].status == status && h in m.rows && m.rows[h].status == status
  {
    hide AfterSweep, Agrees, SeenAt, DeliverOnce, FirstDelivered, Linked;
    var l := DoAll(ops);
    EntryTellsDelivery(ops, h, i);
    RunAgrees(ops);
    AgreesMeans(l, h);
    AfterSweepMeaning(View(l.books, l.rows), cutoff, now, h);
  }

  /** A receipt that says mined ends the tracking after any run, and the row tells block and index. */
  lemma ReceiptRecordsMining(ops: seq<Op>, h: string, info: MinedInfo, now: int)
    requires Delivered(ops, h)
    ensures var m := Do(DoAll(ops), Receipt(h, MinedIn(info), now));
            h !in m.books.txs && h in m.rows && m.rows[h].status == Mined && m.rows[h].lastSeen == now &&
            m.rows[h].mined == Some(info)
  {
    hide AfterMined, Delivered;
    var l := DoAll(ops);
    DeliveredHasFirst(ops, h);
    var i: nat :| FirstDelivered(ops, h, i);
    RowTellsFirstDelivery(ops, h, i);
    AfterMinedMeaning(View(l.books, l.rows), h, info, now, h, "");
  }
}
