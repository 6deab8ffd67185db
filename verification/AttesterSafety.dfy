/** At most one attestation per order is ever mined, for one worker, under every interleaving
    of its steps with crashes and mining; and the two ways to break that. */
module AttesterSafety {
  import opened Prelude
  import opened Attester

  /** A transaction that can never be mined any more: its nonce went to another one. */
  ghost predicate Dead(w: World, tx: Tx) {
    tx.nonce < |w.mined| && w.mined[tx.nonce].tx != tx
  }

  ghost predicate SentFor(w: World, tx: Tx, o: nat) {
    tx in w.sent && tx.Attest? && tx.order == o
  }

  /** Every transaction ever broadcast for the order is dead. */
  ghost predicate AllDead(w: World, o: nat) {
    forall tx :: SentFor(w, tx, o) ==> Dead(w, tx)
  }

  /** Every transaction broadcast for the order that may still be mined, or was, is this one. */
  ghost predicate OnlyLive(w: World, o: nat, live: Tx) {
    forall tx :: SentFor(w, tx, o) ==> Dead(w, tx) || tx == live
  }

  /** Every transaction broadcast for the order that may still be mined, or was, has this nonce. */
  ghost predicate OnlyNonce(w: World, o: nat, n: nat) {
    forall tx :: SentFor(w, tx, o) ==> Dead(w, tx) || tx.nonce == n
  }

  /** The same for these two: the recorded one and one broadcast in its place. */
  ghost predicate OnlyThese(w: World, o: nat, prior: Tx, tx: Tx) {
    forall t :: SentFor(w, t, o) ==> Dead(w, t) || t == prior || t == tx
  }

  ghost predicate Recorded(row: Row, o: nat) {
    row.tx.Some? && row.tx.value.Attest? && row.tx.value.order == o && row.nonce == Some(row.tx.value.nonce)
  }

  /** The transaction the worker has broadcast for o but not yet written to the row, if any. */
  ghost predicate Unwritten(p: Pc, o: nat) {
    p.Rebroadcasted? && p.order == o && p.tx != p.prior
  }

  ghost predicate RowOk(w: World, o: nat)
    requires o < |w.rows| && |w.workers| == 1
  {
    var row, p := w.rows[o], w.workers[0];
    match row.status
    case Unqueued | Pending => AllDead(w, o)
    case Sending =>
      && Recorded(row, o) && row.tx.value.nonce <= |w.mined|
      && (if Unwritten(p, o) then OnlyThese(w, o, row.tx.value, p.tx) else OnlyLive(w, o, row.tx.value))
    case Sent => Recorded(row, o) && OnlyNonce(w, o, row.tx.value.nonce)
    case Attested =>
      Recorded(row, o) && OnlyNonce(w, o, row.tx.value.nonce) && InChain(w, row.tx.value) && SucceededAt(w, row.tx.value)
    case Failed => AllDead(w, o) || (Recorded(row, o) && OnlyNonce(w, o, row.tx.value.nonce))
  }

  /** What the worker knows about the row it is working on. */
  ghost predicate PcOk(w: World)
    requires |w.workers| == 1
  {
    match w.workers[0]
    case Idle => true
    case Built(o, tx) => o < |w.rows| && tx.Attest? && tx.order == o && tx.nonce <= |w.mined|
    case Claimed(o, tx) => Holds(w, o, tx)
    case Broadcasted(o, tx) => Holds(w, o, tx)
    case Waiting(o, tx) => o < |w.rows| && w.rows[o].status == Sent && w.rows[o].tx == Some(tx)
    case Resolving(o, tx, ok) =>
      && o < |w.rows| && w.rows[o].status in {Sending, Sent} && w.rows[o].tx == Some(tx)
      && InChain(w, tx) && SucceededAt(w, tx) == ok
    case RowRead(o, tx) => Holds(w, o, tx)
    case Unfound(o, tx) => Holds(w, o, tx)
    case Consumed(o, tx) => Holds(w, o, tx) && tx.nonce < |w.mined|
    case Resetting(o, tx) => Holds(w, o, tx) && Dead(w, tx)
    case NonceFree(o, tx) => Holds(w, o, tx)
    case Rebuilt(o, prior, tx) => Holds(w, o, prior) && tx.Attest? && tx.order == o && tx.nonce == prior.nonce
    case Rebroadcasted(o, prior, tx) => Holds(w, o, prior) && tx.Attest? && tx.order == o && tx.nonce == prior.nonce && tx in w.sent
  }

  /** The row is in the send window with exactly this transaction recorded. */
  ghost predicate Holds(w: World, o: nat, tx: Tx) {
    o < |w.rows| && w.rows[o].status == Sending && w.rows[o].tx == Some(tx)
  }

  ghost predicate Safe(w: World) {
    && |w.workers| == 1
    && (forall o :: 0 <= o < |w.rows| ==> RowOk(w, o))
    && PcOk(w)
    && (forall n :: 0 <= n < |w.mined| ==> w.mined[n].tx.nonce == n && (w.mined[n].tx.Foreign? || w.mined[n].tx in w.sent))
    && (forall tx :: tx in w.sent && tx.Attest? ==> tx.order < |w.rows|)
  }

  /** The hypothesis: a rebuilt transaction that differs from the recorded one, and could still be
      mined or was, is not lost between the network accepting it and its being written to the row.
      It holds whenever gas does not change between the two builds, because then the two are the
      same transaction. */
  ghost predicate KeepsTrack(w: World, e: Event) {
    match e
    case Crash(k) => k < |w.workers| ==> !(w.workers[k].Rebroadcasted? && Strays(w, w.workers[k].prior, w.workers[k].tx))
    case BroadcastFailed(k, accepted) =>
      k < |w.workers| ==> !(accepted && w.workers[k].Rebuilt? && Strays(w, w.workers[k].prior, w.workers[k].tx))
    case _ => true
  }

  ghost predicate Strays(w: World, prior: Tx, tx: Tx) {
    tx != prior && !Dead(w, tx)
  }

  ghost predicate AllTracked(w: World, es: seq<Event>)
    requires Runs(w, es)
    decreases |es|
  {
    es == [] || (KeepsTrack(w, es[0]) && AllTracked(Apply(w, es[0]), es[1..]))
  }

  // ------------------------------------------------------------ steps

  /** Mining only makes more transactions dead, and keeps what was mined. */
  lemma MineOk(w: World, tx: Tx, ok: bool)
    requires Safe(w) && Enabled(w, Mine(tx, ok))
    ensures Safe(Apply(w, Mine(tx, ok)))
  {
    var w' := Apply(w, Mine(tx, ok));
    forall t: Tx
      ensures Dead(w, t) ==> Dead(w', t)
      ensures InChain(w, t) ==> InChain(w', t) && SucceededAt(w', t) == SucceededAt(w, t)
      ensures forall o :: SentFor(w', t, o) == SentFor(w, t, o)
    {
    }
    forall o | 0 <= o < |w'.rows|
      ensures RowOk(w', o)
    {
      assert RowOk(w, o);
    }
  }

  /** A step that touches one row and leaves the chain and the broadcasts alone. */
  ghost predicate QuietAt(w: World, w': World, o: nat) {
    && w'.sent == w.sent && w'.mined == w.mined
    && |w'.rows| == |w.rows| && |w'.workers| == |w.workers| == 1
    && (forall j :: 0 <= j < |w.rows| && j != o ==> w'.rows[j] == w.rows[j])
    && (forall j :: j != o ==> (Unwritten(w'.workers[0], j) <==> Unwritten(w.workers[0], j)))
    && (forall j :: j != o && Unwritten(w.workers[0], j) ==> w'.workers[0].tx == w.workers[0].tx)
  }

  lemma QuietOk(w: World, w': World, o: nat)
    requires Safe(w) && QuietAt(w, w', o) && PcOk(w')
    requires o < |w.rows| ==> RowOk(w', o)
    ensures Safe(w')
  {
    forall t: Tx, j: nat
      ensures SentFor(w', t, j) == SentFor(w, t, j) && Dead(w', t) == Dead(w, t) && InChain(w', t) == InChain(w, t)
    {
    }
    forall j | 0 <= j < |w'.rows|
      ensures RowOk(w', j)
    {
      if j != o {
        assert RowOk(w, j);
      }
    }
  }

  lemma AllDeadHasNonce(w: World, o: nat, n: nat)
    requires AllDead(w, o)
    ensures OnlyNonce(w, o, n)
  {
  }

  lemma OnlyLiveHasNonce(w: World, o: nat, live: Tx)
    requires OnlyLive(w, o, live)
    ensures OnlyNonce(w, o, live.nonce)
  {
  }

  /** The row the worker is busy with; any index when it is idle. */
  function Busy(p: Pc): nat {
    if p.Idle? then 0 else p.order
  }

  lemma ClaimOk(w: World)
    requires Safe(w) && Enabled(w, Claim(0))
    ensures Safe(Apply(w, Claim(0)))
  {
    var p := w.workers[0];
    var w' := Apply(w, Claim(0));
    assert RowOk(w, p.order);
    forall t: Tx
      ensures SentFor(w', t, p.order) == SentFor(w, t, p.order) && Dead(w', t) == Dead(w, t)
    {
    }
    QuietOk(w, w', p.order);
  }

  /** Broadcasting adds one transaction: the recorded one, or one with the recorded nonce. */
  lemma BroadcastOk(w: World, e: Event)
    requires Safe(w) && Enabled(w, e) && KeepsTrack(w, e)
    requires e == Broadcast(0) || (e.BroadcastFailed? && e.worker == 0)
    ensures Safe(Apply(w, e))
  {
    var p := w.workers[0];
    var w' := Apply(w, e);
    var o := p.order;
    assert RowOk(w, o);
    forall t: Tx, j: nat
      ensures Dead(w', t) == Dead(w, t) && InChain(w', t) == InChain(w, t)
      ensures SentFor(w', t, j) ==> SentFor(w, t, j) || (t == p.tx && j == o)
    {
    }
    forall j | 0 <= j < |w'.rows|
      ensures RowOk(w', j)
    {
      assert RowOk(w, j);
    }
  }

  lemma MarkSentOk(w: World)
    requires Safe(w) && Enabled(w, MarkSent(0))
    ensures Safe(Apply(w, MarkSent(0)))
  {
    var p := w.workers[0];
    var w' := Apply(w, MarkSent(0));
    var o := p.order;
    assert RowOk(w, o);
    forall t: Tx
      ensures SentFor(w', t, o) == SentFor(w, t, o) && Dead(w', t) == Dead(w, t)
    {
    }
    QuietOk(w, w', o);
  }

  lemma ResolveOk(w: World, uidFound: bool)
    requires Safe(w) && Enabled(w, Resolve(0, uidFound))
    ensures Safe(Apply(w, Resolve(0, uidFound)))
  {
    var p := w.workers[0];
    var w' := Apply(w, Resolve(0, uidFound));
    var o := p.order;
    assert RowOk(w, o);
    forall t: Tx
      ensures SentFor(w', t, o) == SentFor(w, t, o) && Dead(w', t) == Dead(w, t)
    {
    }
    QuietOk(w, w', o);
  }

  /** The irreversible step: by now the recorded transaction is dead, and it was the only one
      that could still have been alive. */
  lemma ResetOk(w: World)
    requires Safe(w) && Enabled(w, Reset(0))
    ensures Safe(Apply(w, Reset(0)))
  {
    var p := w.workers[0];
    var w' := Apply(w, Reset(0));
    var o := p.order;
    assert RowOk(w, o);
    forall t: Tx
      ensures SentFor(w', t, o) == SentFor(w, t, o) && Dead(w', t) == Dead(w, t)
    {
    }
    assert AllDead(w', o);
    QuietOk(w, w', o);
  }

  /** Queueing an order, failing it, or giving up on its receipt. */
  lemma RowOnlyOk(w: World, e: Event)
    requires Safe(w) && Enabled(w, e)
    requires e.Queue? || (e.FailUnattestable? && e.worker == 0) || (e.FailIncomplete? && e.worker == 0) || (e.CheckSent? && e.worker == 0)
    ensures Safe(Apply(w, e))
  {
    var w' := Apply(w, e);
    var o := e.order;
    assert RowOk(w, o);
    forall t: Tx
      ensures SentFor(w', t, o) == SentFor(w, t, o) && Dead(w', t) == Dead(w, t)
    {
    }
    QuietOk(w, w', o);
  }

  /** Dying is safe unless it loses track of a transaction. */
  lemma CrashOk(w: World)
    requires Safe(w) && Enabled(w, Crash(0)) && KeepsTrack(w, Crash(0))
    ensures Safe(Apply(w, Crash(0)))
  {
    var w' := Apply(w, Crash(0));
    var o := Busy(w.workers[0]);
    if o < |w.rows| {
      assert RowOk(w, o);
      SameChain(w, w', o);
    }
    QuietOk(w, w', o);
  }

  lemma SameChain(w: World, w': World, o: nat)
    requires w'.sent == w.sent && w'.mined == w.mined
    ensures forall t: Tx :: SentFor(w', t, o) == SentFor(w, t, o) && Dead(w', t) == Dead(w, t)
  {
  }

  /** A step that only moves the worker, to a state it is entitled to. */
  lemma MoveTo(w: World, p: Pc)
    requires Safe(w) && !p.Rebroadcasted? && !w.workers[0].Rebroadcasted? && PcOk(Goto(w, 0, p))
    ensures Safe(Goto(w, 0, p))
  {
    var w' := Goto(w, 0, p);
    forall o | 0 <= o < |w.rows|
      ensures RowOk(w', o)
    {
      assert RowOk(w, o);
      SameChain(w, w', o);
    }
  }

  /** Taking up a row. */
  lemma StartOk(w: World, e: Event)
    requires Safe(w) && Enabled(w, e) && (e.Build? || e.ReadSending?) && e.worker == 0
    ensures Safe(Apply(w, e))
  {
    assert RowOk(w, e.order);
    MoveTo(w, Apply(w, e).workers[0]);
  }

  /** Reading the chain, and signing again. */
  lemma LookOk(w: World, e: Event)
    requires Safe(w) && Enabled(w, e) && (e.Wait? || e.FirstRead? || e.ReadNonce? || e.Recheck? || e.Rebuild?) && e.worker == 0
    ensures Safe(Apply(w, e))
  {
    var p := w.workers[0];
    assert RowOk(w, p.order);
    MoveTo(w, Apply(w, e).workers[0]);
  }

  lemma StepSafe(w: World, e: Event)
    requires Safe(w) && Enabled(w, e) && KeepsTrack(w, e)
    ensures Safe(Apply(w, e))
  {
    match e
    case Mine(tx, ok) => MineOk(w, tx, ok);
    case Crash(_) => CrashOk(w);
    case Restart => QuietOk(w, Apply(w, e), |w.rows|);
    case Queue(_) => RowOnlyOk(w, e);
    case FailUnattestable(_, _) => RowOnlyOk(w, e);
    case FailIncomplete(_, _) => RowOnlyOk(w, e);
    case CheckSent(_, _, _) => RowOnlyOk(w, e);
    case Claim(_) => ClaimOk(w);
    case Broadcast(_) => BroadcastOk(w, e);
    case BroadcastFailed(_, _) => BroadcastOk(w, e);
    case MarkSent(_) => MarkSentOk(w);
    case Resolve(_, uidFound) => ResolveOk(w, uidFound);
    case Reset(_) => ResetOk(w);
    case Build(_, _, _, _) => StartOk(w, e);
    case ReadSending(_, _) => StartOk(w, e);
    case _ => LookOk(w, e);
  }
}
