/** What the attester promises over whole runs, and exactly what it needs for that. */
module AttesterTheorems {
  import opened Prelude
  import opened Attester
  import opened AttesterSafety

  /** es leads from w to w'. */
  ghost predicate Leads(w: World, es: seq<Event>, w': World) {
    Runs(w, es) && After(w, es) == w'
  }

  lemma {:induction false} Extend(w: World, es: seq<Event>, mid: World, e: Event)
    requires Leads(w, es, mid) && Enabled(mid, e)
    ensures Leads(w, es + [e], Apply(mid, e))
    decreases |es|
  {
    var all := es + [e];
    if es == [] {
      assert all == [e] && all[1..] == [];
      assert Runs(Apply(w, e), []);
    } else {
      assert all[0] == es[0] && all[1..] == es[1..] + [e];
      Extend(Apply(w, es[0]), es[1..], mid, e);
    }
  }

  // ------------------------------------------------------------ one worker

  lemma {:induction false} RunSafe(w: World, es: seq<Event>)
    requires Safe(w) && Runs(w, es) && AllTracked(w, es)
    ensures Safe(After(w, es))
    decreases |es|
  {
    if es != [] {
      StepSafe(w, es[0]);
      RunSafe(Apply(w, es[0]), es[1..]);
    }
  }

  lemma FreshSafe(orders: nat)
    ensures Safe(Fresh(orders, 1))
  {
  }

  lemma MinedOnce(w: World, a: nat, b: nat)
    requires Safe(w) && a < |w.mined| && b < |w.mined|
    requires w.mined[a].tx.Attest? && w.mined[b].tx.Attest? && w.mined[a].tx.order == w.mined[b].tx.order
    ensures a == b
  {
    var o := w.mined[a].tx.order;
    assert SentFor(w, w.mined[a].tx, o) && SentFor(w, w.mined[b].tx, o);
    assert RowOk(w, o);
    OneNonce(w, o);
  }

  /** Whatever the status of a row, what is alive of its transactions shares one nonce. */
  lemma OneNonce(w: World, o: nat)
    requires Safe(w) && o < |w.rows|
    ensures exists n :: OnlyNonce(w, o, n)
  {
    assert RowOk(w, o);
    var row := w.rows[o];
    if AllDead(w, o) {
      AllDeadHasNonce(w, o, 0);
    } else {
      if row.status == Sending && !Unwritten(w.workers[0], o) {
        OnlyLiveHasNonce(w, o, row.tx.value);
      }
      if row.status == Sending && Unwritten(w.workers[0], o) {
        assert w.workers[0].tx.nonce == row.tx.value.nonce;
      }
      assert OnlyNonce(w, o, row.tx.value.nonce);
    }
  }

  /** Over every run of one worker, with crashes between any two steps, spurious receipt misses,
      lagging nonce reads and arbitrary mining, at most one attestation per order is ever mined. */
  lemma AtMostOneAttestation(orders: nat, es: seq<Event>, a: nat, b: nat)
    requires Runs(Fresh(orders, 1), es) && AllTracked(Fresh(orders, 1), es)
    requires var w := After(Fresh(orders, 1), es);
             && a < |w.mined| && b < |w.mined|
             && w.mined[a].tx.Attest? && w.mined[b].tx.Attest? && w.mined[a].tx.order == w.mined[b].tx.order
    ensures a == b
  {
    FreshSafe(orders);
    RunSafe(Fresh(orders, 1), es);
    MinedOnce(After(Fresh(orders, 1), es), a, b);
  }

  /** An attested order's recorded transaction is an attestation of that order, mined and successful. */
  lemma AttestedIsMined(orders: nat, es: seq<Event>, o: nat)
    requires Runs(Fresh(orders, 1), es) && AllTracked(Fresh(orders, 1), es)
    requires var w := After(Fresh(orders, 1), es); o < |w.rows| && w.rows[o].status == Attested
    ensures var w := After(Fresh(orders, 1), es);
            var row := w.rows[o];
            && row.tx.Some? && row.tx.value.Attest? && row.tx.value.order == o && row.nonce == Some(row.tx.value.nonce)
            && InChain(w, row.tx.value) && SucceededAt(w, row.tx.value)
  {
    FreshSafe(orders);
    RunSafe(Fresh(orders, 1), es);
    assert RowOk(After(Fresh(orders, 1), es), o);
  }

  /** Nothing reaches the network before its row is in the send window with that nonce on record. */
  lemma NonceRecordedBeforeBroadcast(w: World, e: Event, tx: Tx)
    requires Safe(w) && Enabled(w, e) && tx in Apply(w, e).sent && tx !in w.sent
    ensures tx.Attest? && tx.order < |w.rows|
    ensures w.rows[tx.order].status == Sending && w.rows[tx.order].nonce == Some(tx.nonce)
  {
    assert e.Broadcast? || e.BroadcastFailed?;
    var p := w.workers[e.worker];
    assert RowOk(w, p.order);
  }

  /** Over any run of any number of workers: attested and failed rows never move again, and a sent
      row is never sent again, keeps its transaction, and can only end attested or failed. */
  lemma {:induction false} FinalRows(w: World, es: seq<Event>, o: nat)
    requires Runs(w, es) && o < |w.rows|
    ensures o < |After(w, es).rows| && Follows(w.rows[o], After(w, es).rows[o])
    decreases |es|
  {
    if es != [] {
      FinalRow(w, es[0], o);
      FinalRows(Apply(w, es[0]), es[1..], o);
    }
  }

  lemma FinalRow(w: World, e: Event, o: nat)
    requires Enabled(w, e) && o < |w.rows|
    ensures o < |Apply(w, e).rows| && Follows(w.rows[o], Apply(w, e).rows[o])
  {
  }

  predicate Follows(row: Row, end: Row) {
    && (row.status in {Attested, Failed} ==> end == row)
    && (row.status == Sent ==> end.status in {Sent, Attested, Failed} && end.tx == row.tx && end.nonce == row.nonce)
  }

  /** With unchanged gas a rebuilt transaction is the recorded one, so every run is tracked. */
  predicate SteadyGas(w: World, e: Event) {
    match e
    case Rebuild(k, g) => k < |w.workers| && w.workers[k].NonceFree? && w.workers[k].tx.Attest? ==> g == w.workers[k].tx.gas
    case _ => true
  }

  ghost predicate AllSteady(w: World, es: seq<Event>)
    requires Runs(w, es)
    decreases |es|
  {
    es == [] || (SteadyGas(w, es[0]) && AllSteady(Apply(w, es[0]), es[1..]))
  }

  ghost predicate RebuiltIsPrior(w: World) {
    |w.workers| == 1 &&
    match w.workers[0]
    case Rebuilt(o, prior, tx) => tx == prior
    case Rebroadcasted(o, prior, tx) => tx == prior
    case _ => true
  }

  lemma SteadyRebuild(w: World, e: Event)
    requires Safe(w) && e.Rebuild? && Enabled(w, e) && SteadyGas(w, e)
    ensures RebuiltIsPrior(Apply(w, e))
  {
    assert RowOk(w, w.workers[0].order);
  }

  lemma SteadyStep(w: World, e: Event)
    requires Safe(w) && RebuiltIsPrior(w) && Enabled(w, e) && SteadyGas(w, e)
    ensures KeepsTrack(w, e) && RebuiltIsPrior(Apply(w, e))
  {
    if e.Rebuild? {
      SteadyRebuild(w, e);
    }
  }

  lemma {:induction false} SteadyIsTracked(w: World, es: seq<Event>)
    requires Safe(w) && RebuiltIsPrior(w) && Runs(w, es) && AllSteady(w, es)
    ensures AllTracked(w, es)
    decreases |es|
  {
    if es != [] {
      SteadyStep(w, es[0]);
      StepSafe(w, es[0]);
      SteadyIsTracked(Apply(w, es[0]), es[1..]);
    }
  }

  // ------------------------------------------------------------ the hypothesis is needed

  ghost predicate TwiceMined(w: World, o: nat) {
    exists a, b :: 0 <= a < b < |w.mined| && MinedFor(w, a, o) && MinedFor(w, b, o)
  }

  ghost predicate MinedFor(w: World, n: nat, o: nat) {
    n < |w.mined| && w.mined[n].tx.Attest? && w.mined[n].tx.order == o
  }

  /** From a reset row with an attestation already mined, the worker attests a second time. */
  lemma ReattestDoubles(w: World, o: nat, n: nat, k: nat) returns (es: seq<Event>, w': World)
    requires k < |w.workers| && w.workers[k].Idle?
    requires o < |w.rows| && w.rows[o].status == Pending && MinedFor(w, n, o)
    ensures Leads(w, es, w') && TwiceMined(w', o)
  {
    var m := |w.mined|;
    var tx := Attest(o, m, 0);
    es, w' := [], w;
    Extend(w, es, w', Build(k, o, m, 0));
    es, w' := es + [Build(k, o, m, 0)], Apply(w', Build(k, o, m, 0));
    Extend(w, es, w', Claim(k));
    es, w' := es + [Claim(k)], Apply(w', Claim(k));
    Extend(w, es, w', Broadcast(k));
    es, w' := es + [Broadcast(k)], Apply(w', Broadcast(k));
    Extend(w, es, w', Mine(tx, true));
    es, w' := es + [Mine(tx, true)], Apply(w', Mine(tx, true));
    assert MinedFor(w', n, o) && MinedFor(w', m, o);
  }

  /** A worker's four steps from an unmined recorded transaction to the decision to reset its row. */
  lemma DecidingSteps(w: World, k: nat, o: nat, tx: Tx)
    requires k < |w.workers| && Holds(w, o, tx) && Dead(w, tx)
    ensures w.workers[k].Idle? ==> Enabled(w, ReadSending(k, o)) && Apply(w, ReadSending(k, o)) == Goto(w, k, RowRead(o, tx))
    ensures w.workers[k] == RowRead(o, tx) ==> Apply(w, FirstRead(k, false)) == Goto(w, k, Unfound(o, tx))
    ensures w.workers[k] == Unfound(o, tx) ==>
              Enabled(w, ReadNonce(k, tx.nonce + 1)) && Apply(w, ReadNonce(k, tx.nonce + 1)) == Goto(w, k, Consumed(o, tx))
    ensures w.workers[k] == Consumed(o, tx) ==> Apply(w, Recheck(k)) == Goto(w, k, Resetting(o, tx))
  {
  }

  lemma GotoTwice(w: World, k: nat, p: Pc, q: Pc)
    requires k < |w.workers|
    ensures Goto(Goto(w, k, p), k, q) == Goto(w, k, q)
  {
    assert w.workers[k := p][k := q] == w.workers[k := q];
  }

  /** A worker that finds a row in the send window, with another transaction on its nonce, decides to reset it. */
  lemma DecideToReset(w: World, k: nat, o: nat, tx: Tx) returns (es: seq<Event>)
    requires k < |w.workers| && w.workers[k].Idle? && Holds(w, o, tx) && Dead(w, tx)
    ensures Leads(w, es, Goto(w, k, Resetting(o, tx)))
    ensures |es| == 4 && es[0].ReadSending? && es[1].FirstRead? && es[2].ReadNonce? && es[3].Recheck?
  {
    var w1, w2, w3, w4 := Goto(w, k, RowRead(o, tx)), Goto(w, k, Unfound(o, tx)), Goto(w, k, Consumed(o, tx)), Goto(w, k, Resetting(o, tx));
    DecidingSteps(w, k, o, tx);
    DecidingSteps(w1, k, o, tx);
    GotoTwice(w, k, RowRead(o, tx), Unfound(o, tx));
    DecidingSteps(w2, k, o, tx);
    GotoTwice(w, k, Unfound(o, tx), Consumed(o, tx));
    DecidingSteps(w3, k, o, tx);
    GotoTwice(w, k, Consumed(o, tx), Resetting(o, tx));
    es := [ReadSending(k, o), FirstRead(k, false), ReadNonce(k, tx.nonce + 1), Recheck(k)];
    Four(w, w1, w2, w3, w4, ReadSending(k, o), FirstRead(k, false), ReadNonce(k, tx.nonce + 1), Recheck(k));
  }

  lemma Four(w: World, w1: World, w2: World, w3: World, w4: World, e0: Event, e1: Event, e2: Event, e3: Event)
    requires Enabled(w, e0) && Apply(w, e0) == w1 && Enabled(w1, e1) && Apply(w1, e1) == w2
    requires Enabled(w2, e2) && Apply(w2, e2) == w3 && Enabled(w3, e3) && Apply(w3, e3) == w4
    ensures Leads(w, [e0, e1, e2, e3], w4)
  {
    assert Leads(w, [], w);
    Extend(w, [], w, e0);
    assert [] + [e0] == [e0];
    Extend(w, [e0], w1, e1);
    assert [e0] + [e1] == [e0, e1];
    Extend(w, [e0, e1], w2, e2);
    assert [e0, e1] + [e2] == [e0, e1, e2];
    Extend(w, [e0, e1, e2], w3, e3);
    assert [e0, e1, e2] + [e3] == [e0, e1, e2, e3];
  }

  /** What is left once the worker has lost track: nobody works on the row, which names the prior
      transaction, while the other one was accepted and can still be mined, or was. */
  ghost predicate Lost(w: World, o: nat, prior: Tx, tx: Tx) {
    && w.workers == [Idle] && Holds(w, o, prior) && tx.Attest? && tx.order == o && tx in w.sent
    && tx.nonce == prior.nonce <= |w.mined| && Strays(w, prior, tx)
  }

  lemma LosesTrack(w: World, e: Event)
    requires Safe(w) && Enabled(w, e) && !KeepsTrack(w, e)
    ensures var p := w.workers[0]; !p.Idle? && (p.Rebroadcasted? || p.Rebuilt?) && Lost(Apply(w, e), p.order, p.prior, p.tx)
  {
    var p := w.workers[0];
    assert RowOk(w, p.order);
    assert Apply(w, e).workers == [Idle];
  }

  /** The stray transaction is mined, if it was not before. */
  lemma StrayIsMined(w: World, o: nat, prior: Tx, tx: Tx) returns (es: seq<Event>, w': World)
    requires Lost(w, o, prior, tx) && forall n :: 0 <= n < |w.mined| ==> w.mined[n].tx.nonce == n
    ensures Leads(w, es, w') && w'.workers == [Idle] && Holds(w', o, prior) && Dead(w', prior) && MinedFor(w', tx.nonce, o)
  {
    es, w' := [], w;
    if tx.nonce == |w.mined| {
      Extend(w, es, w', Mine(tx, true));
      es, w' := es + [Mine(tx, true)], Apply(w', Mine(tx, true));
    }
    assert w'.mined[tx.nonce].tx == tx;
  }

  /** The hypothesis is exact: whenever a step loses track, by a crash or by a failed call whose
      transaction was accepted, a second attestation can follow. */
  lemma LosingTrackCanDouble(w: World, e: Event) returns (es: seq<Event>, w': World)
    requires Safe(w) && Enabled(w, e) && !KeepsTrack(w, e)
    ensures |es| > 0 && es[0] == e && Leads(w, es, w') && exists o :: TwiceMined(w', o)
  {
    var p := w.workers[0];
    LosesTrack(w, e);
    assert Leads(w, [], w);
    Extend(w, [], w, e);
    assert [] + [e] == [e];
    var lost := Apply(w, e);
    var mining, mined := StrayIsMined(lost, p.order, p.prior, p.tx);
    LeadsTrans(w, [e], lost, mining, mined);
    var again;
    again, w' := ResetDoubles(mined, p.order, p.prior, p.tx.nonce);
    LeadsTrans(w, [e] + mining, mined, again, w');
    es := [e] + mining + again;
  }

  /** So over whole runs: while every step keeps track no order is attested twice, and a run that
      loses track anywhere has a beginning that can go on to attest one twice. */
  lemma {:induction false} UntrackedCanDouble(w: World, es: seq<Event>) returns (n: nat, more: seq<Event>, w': World)
    requires Safe(w) && Runs(w, es) && !AllTracked(w, es)
    ensures n < |es| && Leads(w, es[..n] + more, w') && |more| > 0 && more[0] == es[n] && exists o :: TwiceMined(w', o)
    decreases |es|
  {
    if !KeepsTrack(w, es[0]) {
      n := 0;
      more, w' := LosingTrackCanDouble(w, es[0]);
      assert es[..0] + more == more;
    } else {
      StepSafe(w, es[0]);
      n, more, w' := UntrackedCanDouble(Apply(w, es[0]), es[1..]);
      n := n + 1;
      assert es[..n][1..] == es[1..][..n - 1];
      assert (es[..n] + more)[1..] == es[1..][..n - 1] + more;
    }
  }

  lemma ResetDoubles(w: World, o: nat, prior: Tx, n: nat) returns (es: seq<Event>, w': World)
    requires w.workers == [Idle] && Holds(w, o, prior) && Dead(w, prior) && MinedFor(w, n, o)
    ensures Leads(w, es, w') && TwiceMined(w', o)
  {
    es := DecideToReset(w, 0, o, prior);
    var at := Goto(w, 0, Resetting(o, prior));
    Extend(w, es, at, Reset(0));
    es, at := es + [Reset(0)], Apply(at, Reset(0));
    var more;
    more, w' := ReattestDoubles(at, o, n, 0);
    LeadsTrans(w, es, at, more, w');
    es := es + more;
  }

  lemma {:induction false} LeadsTrans(w: World, a: seq<Event>, mid: World, b: seq<Event>, w': World)
    requires Leads(w, a, mid) && Leads(mid, b, w')
    ensures Leads(w, a + b, w')
    decreases |a|
  {
    if a == [] {
      assert a + b == b;
    } else {
      assert (a + b)[0] == a[0] && (a + b)[1..] == a[1..] + b;
      LeadsTrans(Apply(w, a[0]), a[1..], mid, b, w');
    }
  }

  // ------------------------------------------------------------ two workers

  /** The conditional UPDATEs alone do not make it safe for two workers: a stale reset of a row
      that has meanwhile been reset and re-sent forgets a live transaction. The gas never
      changes in this run and nothing crashes. */
  lemma TwoWorkersCanDouble() returns (es: seq<Event>, w': World)
    ensures Leads(Fresh(1, 2), es, w') && TwiceMined(w', 0)
    ensures forall k :: 0 <= k < |es| ==> !es[k].Crash? && !es[k].Rebuild?
  {
    var w := Fresh(1, 2);
    var first, second := Attest(0, 0, 0), Attest(0, 1, 0);
    var stuck := World([Row(Sending, Some(first), Some(0))], {}, [Mined(Foreign(0, 0), true)], map[], [Idle, Idle]);
    es := StuckRow(stuck);
    var es2, both := BothDecideToReset(stuck, first);
    LeadsTrans(w, es, stuck, es2, both);
    es := es + es2;
    var es3, forgot := StaleReset(both, first, second);
    LeadsTrans(w, es, both, es3, forgot);
    es := es + es3;
    var es4;
    es4, w' := QuietReattest(forgot);
    LeadsTrans(w, es, forgot, es4, w');
    es := es + es4;
  }

  ghost predicate Quiet(es: seq<Event>) {
    forall k :: 0 <= k < |es| ==> !es[k].Crash? && !es[k].Rebuild?
  }

  /** Worker 0 records its intent but the broadcast fails; another transaction takes the nonce. */
  lemma StuckRow(stuck: World) returns (es: seq<Event>)
    requires stuck == World([Row(Sending, Some(Attest(0, 0, 0)), Some(0))], {}, [Mined(Foreign(0, 0), true)], map[], [Idle, Idle])
    ensures Leads(Fresh(1, 2), es, stuck) && Quiet(es)
  {
    var w := Fresh(1, 2);
    var at := w;
    es := [];
    Extend(w, es, at, Queue(0));
    es, at := es + [Queue(0)], Apply(at, Queue(0));
    Extend(w, es, at, Build(0, 0, 0, 0));
    es, at := es + [Build(0, 0, 0, 0)], Apply(at, Build(0, 0, 0, 0));
    Extend(w, es, at, Claim(0));
    es, at := es + [Claim(0)], Apply(at, Claim(0));
    Extend(w, es, at, BroadcastFailed(0, false));
    es, at := es + [BroadcastFailed(0, false)], Apply(at, BroadcastFailed(0, false));
    Extend(w, es, at, Mine(Foreign(0, 0), true));
    es, at := es + [Mine(Foreign(0, 0), true)], Apply(at, Mine(Foreign(0, 0), true));
    assert at == stuck;
  }

  lemma BothDecideToReset(w: World, first: Tx) returns (es: seq<Event>, at: World)
    requires |w.rows| == 1 && w.rows[0].status == Sending && w.rows[0].tx == Some(first) && first == Attest(0, 0, 0)
    requires |w.mined| == 1 && w.mined[0].tx == Foreign(0, 0) && w.workers == [Idle, Idle]
    ensures Leads(w, es, at) && Quiet(es)
    ensures at == w.(workers := [Resetting(0, first), Resetting(0, first)])
  {
    es := DecideToReset(w, 0, 0, first);
    var mid := Goto(w, 0, Resetting(0, first));
    var more := DecideToReset(mid, 1, 0, first);
    at := Goto(mid, 1, Resetting(0, first));
    LeadsTrans(w, es, mid, more, at);
    es := es + more;
  }

  /** Worker 1 resets and claims a fresh transaction; worker 0's stale reset wipes the claim. */
  lemma WipedClaim(w: World, first: Tx, second: Tx) returns (es: seq<Event>, at: World)
    requires |w.rows| == 1 && w.rows[0].status == Sending && |w.mined| == 1 && second == Attest(0, 1, 0)
    requires w.workers == [Resetting(0, first), Resetting(0, first)]
    ensures Leads(w, es, at) && Quiet(es)
    ensures |at.rows| == 1 && at.rows[0].status == Pending && at.workers == [Idle, Claimed(0, second)] && at.mined == w.mined
  {
    es, at := [], w;
    Extend(w, es, at, Reset(1));
    es, at := es + [Reset(1)], Apply(at, Reset(1));
    Extend(w, es, at, Build(1, 0, 1, 0));
    es, at := es + [Build(1, 0, 1, 0)], Apply(at, Build(1, 0, 1, 0));
    Extend(w, es, at, Claim(1));
    es, at := es + [Claim(1)], Apply(at, Claim(1));
    Extend(w, es, at, Reset(0));
    es, at := es + [Reset(0)], Apply(at, Reset(0));
  }

  /** Then worker 1 broadcasts what the row no longer mentions, and it is mined. */
  lemma StaleReset(w: World, first: Tx, second: Tx) returns (es: seq<Event>, at: World)
    requires |w.rows| == 1 && w.rows[0].status == Sending && |w.mined| == 1 && second == Attest(0, 1, 0)
    requires w.workers == [Resetting(0, first), Resetting(0, first)]
    ensures Leads(w, es, at) && Quiet(es)
    ensures |at.rows| == 1 && at.rows[0].status == Pending && |at.workers| == 2 && at.workers[0].Idle? && MinedFor(at, 1, 0)
  {
    es, at := WipedClaim(w, first, second);
    Extend(w, es, at, Broadcast(1));
    es, at := es + [Broadcast(1)], Apply(at, Broadcast(1));
    Extend(w, es, at, Mine(second, true));
    es, at := es + [Mine(second, true)], Apply(at, Mine(second, true));
  }

  lemma QuietReattest(w: World) returns (es: seq<Event>, w': World)
    requires |w.rows| == 1 && w.rows[0].status == Pending && |w.workers| == 2 && w.workers[0].Idle? && MinedFor(w, 1, 0)
    ensures Leads(w, es, w') && Quiet(es) && TwiceMined(w', 0)
  {
    var m := |w.mined|;
    var tx := Attest(0, m, 0);
    es, w' := [], w;
    Extend(w, es, w', Build(0, 0, m, 0));
    es, w' := es + [Build(0, 0, m, 0)], Apply(w', Build(0, 0, m, 0));
    Extend(w, es, w', Claim(0));
    es, w' := es + [Claim(0)], Apply(w', Claim(0));
    Extend(w, es, w', Broadcast(0));
    es, w' := es + [Broadcast(0)], Apply(w', Broadcast(0));
    Extend(w, es, w', Mine(tx, true));
    es, w' := es + [Mine(tx, true)], Apply(w', Mine(tx, true));
    assert MinedFor(w', 1, 0) && MinedFor(w', m, 0);
  }
}
