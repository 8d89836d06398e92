/**
 * The node behind the RPC client. Each request meets the next fate: the node is out of reach, or it
 * serves the chain of that moment and refuses log ranges longer than its limit of that moment. When
 * no fate is left the caller's context is cancelled and every request fails. A finite sequence of
 * fates thus stands for any interleaving of chain changes, refusals and failures with the requests
 * of one process.
 */
module Rpc {
  import opened Prelude
  import opened Chains

  /** Block numbers stay below 2^64 - 1. */
  type Chain = c: seq<Block> | 0 < |c| < TWO_64 witness [Block("", "", 0, [])]

  datatype Fate = Down | Up(chain: Chain, limit: nat)

  datatype LogsReply = Failed | TooManyResults | Logs(logs: seq<Log>)

  datatype Header = Header(number: nat, hash: string, timestamp: nat)

  function HeaderOf(c: seq<Block>, n: nat): Header
    requires n < |c|
  {
    Header(n, c[n].hash, c[n].timestamp)
  }

  function HeadAt(f: Fate): Option<nat> {
    if f.Up? then Some(|f.chain| - 1) else None
  }

  function HeaderAt(f: Fate, n: nat): Option<Header> {
    if f.Up? && n < |f.chain| then Some(HeaderOf(f.chain, n)) else None
  }

  function LogsAt(f: Fate, filter: Filter, from: nat, to: nat): LogsReply {
    if f.Down? then Failed
    else if to - from + 1 > f.limit then TooManyResults
    else Logs(LogsBetween(filter, f.chain, from, to + 1))
  }

  function Rest(s: seq<Fate>): seq<Fate> {
    if s == [] then [] else s[1..]
  }

  /** The blocks at or below head minus confirmations; no block when the head is lower than that. */
  function SafePart(c: seq<Block>, confirmations: nat): seq<Block> {
    if |c| <= confirmations then [] else c[..|c| - confirmations]
  }

  /** Every chain that will answer a request starts with p. */
  ghost predicate Agree(fates: seq<Fate>, p: seq<Block>) {
    forall i | 0 <= i < |fates| && fates[i].Up? :: p <= fates[i].chain
  }

  /** Every chain that will answer has p at or below its head minus confirmations. */
  ghost predicate Settled(fates: seq<Fate>, confirmations: nat, p: seq<Block>) {
    forall i | 0 <= i < |fates| && fates[i].Up? :: p <= SafePart(fates[i].chain, confirmations)
  }

  /** The head minus confirmations never decreases and no reorg reaches a height at or below it. */
  ghost predicate Steady(fates: seq<Fate>, confirmations: nat) {
    forall i, j | 0 <= i < j < |fates| && fates[i].Up? && fates[j].Up? ::
      SafePart(fates[i].chain, confirmations) <= SafePart(fates[j].chain, confirmations)
  }

  /** Only the chain b answers. */
  ghost predicate Fixed(fates: seq<Fate>, b: seq<Block>) {
    forall i | 0 <= i < |fates| && fates[i].Up? :: fates[i].chain == b
  }

  /** No range of at most min blocks is ever refused. */
  ghost predicate Tolerant(fates: seq<Fate>, min: nat) {
    forall i | 0 <= i < |fates| && fates[i].Up? :: min <= fates[i].limit
  }

  /** The node always answers. */
  ghost predicate AllUp(fates: seq<Fate>) {
    forall i | 0 <= i < |fates| :: fates[i].Up?
  }

  /** The node always answers, with chains that reach block n. */
  ghost predicate Reach(fates: seq<Fate>, n: nat) {
    forall i | 0 <= i < |fates| :: fates[i].Up? && n < |fates[i].chain|
  }

  class Client {
    var fates: seq<Fate>
    ghost var logRequests: nat
    ghost var lastHead: Option<nat>

    constructor (fates: seq<Fate>)
      ensures this.fates == fates && logRequests == 0 && lastHead == None
    {
      this.fates, logRequests, lastHead := fates, 0, None;
    }

    method GetBlockNumber() returns (head: Option<uint64>)
      modifies this`fates, this`lastHead
      ensures fates == Rest(old(fates))
      ensures head == if old(fates) == [] then None else HeadAt(old(fates)[0])
      ensures lastHead == if head.Some? then head else old(lastHead)
    {
      head := if fates == [] then None else HeadAt(fates[0]);
      fates := Rest(fates);
      if head.Some? {
        lastHead := head;
      }
    }

    method GetBlockByNumber(n: uint64) returns (header: Option<Header>)
      modifies this`fates
      ensures fates == Rest(old(fates))
      ensures header == if old(fates) == [] then None else HeaderAt(old(fates)[0], n)
    {
      header := if fates == [] then None else HeaderAt(fates[0], n);
      fates := Rest(fates);
    }

    method GetLogs(filter: Filter, from: uint64, to: uint64) returns (reply: LogsReply)
      requires from <= to + 1
      modifies this`fates, this`logRequests
      ensures fates == Rest(old(fates))
      ensures reply == if old(fates) == [] then Failed else LogsAt(old(fates)[0], filter, from, to)
      ensures logRequests == old(logRequests) + 1
    {
      reply := if fates == [] then Failed else LogsAt(fates[0], filter, from, to);
      fates := Rest(fates);
      logRequests := logRequests + 1;
    }
  }

  lemma FixedIsSteady(fates: seq<Fate>, b: seq<Block>, confirmations: nat)
    requires Fixed(fates, b)
    ensures Steady(fates, confirmations) && Agree(fates, b) && Settled(fates, confirmations, SafePart(b, confirmations))
  {
  }

  /** The safe part of an answering chain is shared by everything that answers later. */
  lemma HeadSettles(fates: seq<Fate>, confirmations: nat)
    requires Steady(fates, confirmations) && fates != [] && fates[0].Up?
    ensures Settled(Rest(fates), confirmations, SafePart(fates[0].chain, confirmations))
  {
  }

  lemma SettledAgrees(fates: seq<Fate>, confirmations: nat, p: seq<Block>)
    requires Settled(fates, confirmations, p)
    ensures Agree(fates, p)
  {
  }
}
