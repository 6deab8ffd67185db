/** The receipt attester as a protocol over three parties: the order rows, the worker, and a
    chain that mines what was broadcast whenever it likes.

    Every database commit, every broadcast and every read of the chain is its own step, so a
    crash can fall between any two of them. A transaction is identified by what determines its
    hash: the order it attests, its nonce, and the gas price it was signed with. */
module Attester {
  import opened Prelude

  const MAX_UNSEEN: nat := 3

  datatype Tx = Attest(order: nat, nonce: nat, gas: nat) | Foreign(nonce: nat, id: nat)

  datatype Mined = Mined(tx: Tx, succeeded: bool)

  datatype RowStatus = Unqueued | Pending | Sending | Sent | Attested | Failed

  datatype Row = Row(status: RowStatus, tx: Option<Tx>, nonce: Option<nat>)

  /** Where a worker is inside _attest_one, _reconcile_sending_one or _reconcile_sent. */
  datatype Pc =
    | Idle
    | Built(order: nat, tx: Tx)
    | Claimed(order: nat, tx: Tx)
    | Broadcasted(order: nat, tx: Tx)
    | Waiting(order: nat, tx: Tx)
    | Resolving(order: nat, tx: Tx, succeeded: bool)
    | RowRead(order: nat, tx: Tx)
    | Unfound(order: nat, tx: Tx)
    | Consumed(order: nat, tx: Tx)
    | Resetting(order: nat, tx: Tx)
    | NonceFree(order: nat, tx: Tx)
    | Rebuilt(order: nat, prior: Tx, tx: Tx)
    | Rebroadcasted(order: nat, prior: Tx, tx: Tx)

  /** mined[n] is the transaction that used nonce n: each nonce mines at most one. */
  datatype World = World(
    rows: seq<Row>,
    sent: set<Tx>,
    mined: seq<Mined>,
    unseen: map<nat, nat>,
    workers: seq<Pc>)

  datatype Event =
    | Queue(order: nat)
    | Mine(tx: Tx, succeeded: bool)
    | Crash(worker: nat)
    | Restart
    | FailUnattestable(worker: nat, order: nat)
    | FailIncomplete(worker: nat, order: nat)
    | Build(worker: nat, order: nat, nonce: nat, gas: nat)
    | Claim(worker: nat)
    | Broadcast(worker: nat)
    | BroadcastFailed(worker: nat, accepted: bool)
    | MarkSent(worker: nat)
    | Wait(worker: nat, found: bool)
    | Resolve(worker: nat, uidFound: bool)
    | ReadSending(worker: nat, order: nat)
    | FirstRead(worker: nat, found: bool)
    | ReadNonce(worker: nat, confirmed: nat)
    | Recheck(worker: nat)
    | Reset(worker: nat)
    | Rebuild(worker: nat, gas: nat)
    | CheckSent(worker: nat, order: nat, found: bool)

  predicate InChain(w: World, tx: Tx) {
    tx.nonce < |w.mined| && w.mined[tx.nonce].tx == tx
  }

  predicate At(w: World, k: nat, p: Pc -> bool) {
    k < |w.workers| && p(w.workers[k])
  }

  predicate Active(w: World, k: nat) {
    k < |w.workers|
  }

  /** When each step can happen. A receipt read may miss a mined transaction but never invents
      one; a nonce read may lag behind but never runs ahead; the recheck is truthful. */
  predicate Enabled(w: World, e: Event) {
    match e
    case Queue(o) => o < |w.rows| && w.rows[o].status == Unqueued
    case Mine(tx, _) => tx.nonce == |w.mined| && (tx.Foreign? || tx in w.sent)
    case Crash(k) => Active(w, k)
    case Restart => true
    case FailUnattestable(k, o) => Active(w, k) && w.workers[k].Idle? && o < |w.rows| && w.rows[o].status == Pending
    case FailIncomplete(k, o) =>
      && Active(w, k) && w.workers[k].Idle? && o < |w.rows|
      && (w.rows[o].status == Sending || (w.rows[o].status == Sent && w.rows[o].tx.None?))
    case Build(k, o, n, _) =>
      Active(w, k) && w.workers[k].Idle? && o < |w.rows| && w.rows[o].status == Pending && n <= |w.mined|
    case Claim(k) => Active(w, k) && w.workers[k].Built?
    case Broadcast(k) => Active(w, k) && (w.workers[k].Claimed? || w.workers[k].Rebuilt?)
    case BroadcastFailed(k, _) => Active(w, k) && (w.workers[k].Claimed? || w.workers[k].Rebuilt?)
    case MarkSent(k) => Active(w, k) && (w.workers[k].Broadcasted? || w.workers[k].Rebroadcasted?)
    case Wait(k, found) => Active(w, k) && w.workers[k].Waiting? && (found ==> InChain(w, w.workers[k].tx))
    case Resolve(k, _) => Active(w, k) && w.workers[k].Resolving?
    case ReadSending(k, o) =>
      Active(w, k) && w.workers[k].Idle? && o < |w.rows| && w.rows[o].status == Sending && w.rows[o].tx.Some?
    case FirstRead(k, found) => Active(w, k) && w.workers[k].RowRead? && (found ==> InChain(w, w.workers[k].tx))
    case ReadNonce(k, confirmed) => Active(w, k) && w.workers[k].Unfound? && confirmed <= |w.mined|
    case Recheck(k) => Active(w, k) && w.workers[k].Consumed?
    case Reset(k) => Active(w, k) && w.workers[k].Resetting?
    case Rebuild(k, _) => Active(w, k) && w.workers[k].NonceFree?
    case CheckSent(k, o, found) =>
      && Active(w, k) && w.workers[k].Idle? && o < |w.rows| && w.rows[o].status == Sent && w.rows[o].tx.Some?
      && (found ==> InChain(w, w.rows[o].tx.value))
  }

  /** The race-proof conditional UPDATE on attest_status. */
  function Cas(rows: seq<Row>, o: nat, from: set<RowStatus>, row: Row): seq<Row> {
    if o < |rows| && rows[o].status in from then rows[o := row] else rows
  }

  function WithStatus(rows: seq<Row>, o: nat, from: set<RowStatus>, to: RowStatus): seq<Row> {
    if o < |rows| && rows[o].status in from then rows[o := rows[o].(status := to)] else rows
  }

  predicate Wins(w: World, o: nat, from: set<RowStatus>) {
    o < |w.rows| && w.rows[o].status in from
  }

  function Goto(w: World, k: nat, p: Pc): World
    requires k < |w.workers|
  {
    w.(workers := w.workers[k := p])
  }

  function SucceededAt(w: World, tx: Tx): bool
    requires InChain(w, tx)
  {
    w.mined[tx.nonce].succeeded
  }

  function Apply(w: World, e: Event): World
    requires Enabled(w, e)
  {
    match e
    case Queue(o) => w.(rows := WithStatus(w.rows, o, {Unqueued}, Pending))
    case Mine(tx, ok) => w.(mined := w.mined + [Mined(tx, ok)])
    case Crash(k) => Goto(w, k, Idle)
    case Restart => w.(unseen := map[])
    case FailUnattestable(k, o) => w.(rows := WithStatus(w.rows, o, {Pending}, Failed))
    case FailIncomplete(k, o) => w.(rows := WithStatus(w.rows, o, {Sending, Sent}, Failed))
    case Build(k, o, n, g) => Goto(w, k, Built(o, Attest(o, n, g)))
    case Claim(k) =>
      var p := w.workers[k];
      if Wins(w, p.order, {Pending})
      then Goto(w.(rows := Cas(w.rows, p.order, {Pending}, Row(Sending, Some(p.tx), Some(p.tx.nonce)))), k, Claimed(p.order, p.tx))
      else Goto(w, k, Idle)
    case Broadcast(k) =>
      var p := w.workers[k];
      Goto(w.(sent := w.sent + {p.tx}), k, if p.Claimed? then Broadcasted(p.order, p.tx) else Rebroadcasted(p.order, p.prior, p.tx))
    case BroadcastFailed(k, accepted) =>
      var p := w.workers[k];
      Goto(if accepted then w.(sent := w.sent + {p.tx}) else w, k, Idle)
    case MarkSent(k) =>
      var p := w.workers[k];
      if p.Broadcasted? then
        Goto(w.(rows := WithStatus(w.rows, p.order, {Sending}, Sent)), k, if Wins(w, p.order, {Sending}) then Waiting(p.order, p.tx) else Idle)
      else
        Goto(w.(rows := if Wins(w, p.order, {Sending})
                        then Cas(w.rows, p.order, {Sending}, w.rows[p.order].(status := Sent, tx := Some(p.tx)))
                        else w.rows), k, Idle)
    case Wait(k, found) =>
      var p := w.workers[k];
      Goto(w, k, if found then Resolving(p.order, p.tx, SucceededAt(w, p.tx)) else Idle)
    case Resolve(k, uidFound) =>
      var p := w.workers[k];
      var minted := p.succeeded && uidFound;
      Goto(w.(rows := WithStatus(w.rows, p.order, {Sending, Sent}, if minted then Attested else Failed),
              unseen := if minted && Wins(w, p.order, {Sending, Sent}) then w.unseen - {p.order} else w.unseen), k, Idle)
    case ReadSending(k, o) => Goto(w, k, RowRead(o, w.rows[o].tx.value))
    case FirstRead(k, found) =>
      var p := w.workers[k];
      Goto(w, k, if found then Resolving(p.order, p.tx, SucceededAt(w, p.tx)) else Unfound(p.order, p.tx))
    case ReadNonce(k, confirmed) =>
      var p := w.workers[k];
      Goto(w, k, if confirmed > p.tx.nonce then Consumed(p.order, p.tx) else NonceFree(p.order, p.tx))
    case Recheck(k) =>
      var p := w.workers[k];
      Goto(w, k, if InChain(w, p.tx) then Resolving(p.order, p.tx, SucceededAt(w, p.tx)) else Resetting(p.order, p.tx))
    case Reset(k) =>
      var p := w.workers[k];
      Goto(w.(rows := Cas(w.rows, p.order, {Sending}, Row(Pending, None, None)), unseen := w.unseen - {p.order}), k, Idle)
    case Rebuild(k, g) =>
      var p := w.workers[k];
      Goto(w, k, Rebuilt(p.order, p.tx, Attest(p.order, p.tx.nonce, g)))
    case CheckSent(k, o, found) =>
      var tx := w.rows[o].tx.value;
      if found then Goto(w, k, Resolving(o, tx, SucceededAt(w, tx)))
      else
        var seen := (if o in w.unseen then w.unseen[o] else 0) + 1;
        if seen >= MAX_UNSEEN
        then w.(unseen := w.unseen - {o}, rows := WithStatus(w.rows, o, {Sent}, Failed))
        else w.(unseen := w.unseen[o := seen])
  }

  /** The run may take these steps, one after the other. */
  predicate Runs(w: World, es: seq<Event>)
    decreases |es|
  {
    es == [] || (Enabled(w, es[0]) && Runs(Apply(w, es[0]), es[1..]))
  }

  function After(w: World, es: seq<Event>): World
    requires Runs(w, es)
    decreases |es|
  {
    if es == [] then w else After(Apply(w, es[0]), es[1..])
  }

  function Fresh(orders: nat, workers: nat): World {
    World(seq(orders, _ => Row(Unqueued, None, None)), {}, [], map[], seq(workers, _ => Idle))
  }
}
