/** The attester worker as the program it is: one pass over the rows, calling the network in
    between. What the network does is chosen freely by the caller, and every pass is proved to be
    a run of the protocol, so what is known of runs is known of the worker. */
module AttesterService {
  import opened Prelude
  import opened Attester
  import opened AttesterSafety
  import opened AttesterTheorems

  const MAX_PER_TICK: nat := 1

  /** What became of a broadcast: accepted and confirmed, accepted but reported as an error, or lost. */
  datatype Fate = Confirmed | Uncertain | Lost

  datatype Quote = TooHigh | Unavailable | Price(gas: nat)

  /** The network's side of one order's turn. Mining happens between the worker's reads; what
      cannot be mined is skipped. lag is how far a nonce read falls behind, if it answers. */
  datatype Answers = Answers(
    complete: bool,
    missed: bool,
    between: seq<Mined>,
    lag: Option<nat>,
    later: seq<Mined>,
    quote: Quote,
    fate: Fate,
    uidFound: bool)

  /** es leads from w to w', and never loses track as long as the gas is steady. */
  ghost predicate Trace(steady: bool, w: World, es: seq<Event>, w': World) {
    Leads(w, es, w') && (steady ==> AllTracked(w, es))
  }

  lemma {:induction false} Go(steady: bool, w: World, es: seq<Event>, mid: World, e: Event) returns (es': seq<Event>, next: World)
    requires Trace(steady, w, es, mid) && Enabled(mid, e) && (steady ==> KeepsTrack(mid, e))
    ensures es' == es + [e] && next == Apply(mid, e) && Trace(steady, w, es', next)
    decreases |es|
  {
    Extend(w, es, mid, e);
    es', next := es + [e], Apply(mid, e);
    if es == [] {
      assert es'[1..] == [];
      assert AllTracked(next, []);
    } else {
      assert es'[0] == es[0] && es'[1..] == es[1..] + [e];
      var _, _ := Go(steady, Apply(w, es[0]), es[1..], mid, e);
    }
  }

  // ------------------------------------------------------------ what a turn does to its row

  /** What a receipt read of this chain finds: whether the transaction succeeded, once it is mined. */
  function Found(chain: seq<Mined>, tx: Tx): Option<bool> {
    if tx.nonce < |chain| && chain[tx.nonce].tx == tx then Some(chain[tx.nonce].succeeded) else None
  }

  /** A nonce read that falls behind by lag. */
  function Behind(height: nat, lag: nat): nat {
    if lag <= height then height - lag else 0
  }

  /** A row with how often its receipt has been missed in a row. */
  datatype Slot = Slot(row: Row, misses: nat)

  function Misses(unseen: map<nat, nat>, o: nat): nat {
    if o in unseen then unseen[o] else 0
  }

  /** A receipt settles a row: attested if it succeeded and shows the attestation, otherwise failed. */
  function Settled(s: Slot, succeeded: bool, uidFound: bool): Slot {
    if succeeded && uidFound then Slot(s.row.(status := Attested), 0) else s.(row := s.row.(status := Failed))
  }

  function FailedSlot(s: Slot): Slot {
    s.(row := s.row.(status := Failed))
  }

  /** A row whose receipt is looked for on this chain, and left as it is when that finds nothing. */
  function Looked(s: Slot, tx: Tx, a: Answers, chain: seq<Mined>): Slot {
    if !a.missed && Found(chain, tx).Some? then Settled(s, Found(chain, tx).value, a.uidFound) else s
  }

  /** A row in the send window whose receipt a first look did not find: the nonce, read when the chain
      was height blocks high, says whether to look again and perhaps start over, or to send again. */
  ghost predicate NotFoundEnds(b: Slot, e: Slot, o: nat, a: Answers, tx: Tx, height: nat, last: seq<Mined>, sent: set<Tx>) {
    if a.lag.None? then e == b
    else if Behind(height, a.lag.value) > tx.nonce then
      e == if Found(last, tx).Some? then Settled(b, Found(last, tx).value, a.uidFound) else Slot(Row(Pending, None, None), 0)
    else if !a.quote.Price? then e == b
    else
      var again := Attest(o, tx.nonce, a.quote.gas);
      && (a.fate != Lost ==> again in sent)
      && e == if a.fate == Confirmed then b.(row := b.row.(status := Sent, tx := Some(again))) else b
  }

  /** A row in the send window, its turn starting on one chain and ending on another. */
  ghost predicate SendingEnds(b: Slot, e: Slot, o: nat, a: Answers, first: seq<Mined>, height: nat, last: seq<Mined>, sent: set<Tx>) {
    if b.row.status != Sending then e == b
    else if b.row.tx.None? || !a.complete then e == FailedSlot(b)
    else
      var tx := b.row.tx.value;
      if !a.missed && Found(first, tx).Some? then e == Settled(b, Found(first, tx).value, a.uidFound)
      else NotFoundEnds(b, e, o, a, tx, height, last, sent)
  }

  ghost predicate SendingTurn(b: Slot, e: Slot, o: nat, a: Answers, low: seq<Mined>, high: seq<Mined>, sent: set<Tx>) {
    exists first, height: nat, last :: low <= first <= last <= high && SendingEnds(b, e, o, a, first, height, last, sent) && |first| <= height <= |last|
  }

  /** A sent row: settled by its receipt, given up at the third miss in a row, or left to wait. */
  ghost predicate SentEnds(b: Slot, e: Slot, a: Answers, chain: seq<Mined>) {
    if b.row.status != Sent then e == b
    else if b.row.tx.None? then e == FailedSlot(b)
    else if !a.missed && Found(chain, b.row.tx.value).Some? then e == Settled(b, Found(chain, b.row.tx.value).value, a.uidFound)
    else if b.misses + 1 >= 3 then e == Slot(b.row.(status := Failed), 0)
    else e == Slot(b.row, b.misses + 1)
  }

  /** A pending order whose turn it is. */
  ghost predicate PendingEnds(b: Slot, e: Slot, o: nat, a: Answers, first: seq<Mined>, last: seq<Mined>, sent: set<Tx>) {
    if b.row.status != Pending then e == b
    else if !a.complete then e == FailedSlot(b)
    else if !a.quote.Price? || a.lag.None? then e == b
    else
      var tx := Attest(o, Behind(|first|, a.lag.value), a.quote.gas);
      var claimed := Slot(Row(Sending, Some(tx), Some(tx.nonce)), b.misses);
      && (a.fate != Lost ==> tx in sent)
      && e == if a.fate == Confirmed then Looked(claimed.(row := claimed.row.(status := Sent)), tx, a, last) else claimed
  }

  ghost predicate PendingTurn(b: Slot, e: Slot, o: nat, a: Answers, low: seq<Mined>, high: seq<Mined>, sent: set<Tx>) {
    exists first, last :: low <= first <= last <= high && PendingEnds(b, e, o, a, first, last, sent)
  }

  /** The turn counts as progress: there was nothing left to do, or nothing could be done about it,
      or the broadcast was confirmed. */
  predicate Progresses(row: Row, a: Answers) {
    row.status != Pending || !a.complete || a.quote.TooHigh? || (a.quote.Price? && a.lag.Some? && a.fate == Confirmed)
  }

  function Progressed(ready: seq<Slot>, a: seq<Answers>, pending: seq<nat>): nat
    requires |ready| == |a| && forall k :: 0 <= k < |pending| ==> pending[k] < |ready|
  {
    if pending == [] then 0
    else
      var o := pending[|pending| - 1];
      Progressed(ready, a, pending[..|pending| - 1]) + if Progresses(ready[o].row, a[o]) then 1 else 0
  }

  lemma SendingWidens(b: Slot, e: Slot, o: nat, a: Answers, low: seq<Mined>, high: seq<Mined>, sent: set<Tx>, high': seq<Mined>, sent': set<Tx>)
    requires SendingTurn(b, e, o, a, low, high, sent) && high <= high' && sent <= sent'
    ensures SendingTurn(b, e, o, a, low, high', sent')
  {
    var first, height: nat, last :| low <= first <= last <= high && SendingEnds(b, e, o, a, first, height, last, sent) && |first| <= height <= |last|;
    assert SendingEnds(b, e, o, a, first, height, last, sent');
  }

  lemma PendingWidens(b: Slot, e: Slot, o: nat, a: Answers, low: seq<Mined>, high: seq<Mined>, sent: set<Tx>, high': seq<Mined>, sent': set<Tx>)
    requires PendingTurn(b, e, o, a, low, high, sent) && high <= high' && sent <= sent'
    ensures PendingTurn(b, e, o, a, low, high', sent')
  {
    var first, last :| low <= first <= last <= high && PendingEnds(b, e, o, a, first, last, sent);
    assert PendingEnds(b, e, o, a, first, last, sent');
  }

  /** A row across a whole pass over a chain that grew from low to high: its turn in the send window,
      its turn among the sent rows, and its turn among the pending orders if it was picked. */
  ghost predicate PassedRow(b: Slot, ready: Slot, e: Slot, o: nat, first: Answers, second: Answers, third: Answers,
                            queued: bool, low: seq<Mined>, high: seq<Mined>, sent: set<Tx>) {
    exists waiting: Slot, mid: seq<Mined> ::
      && SendingTurn(b, waiting, o, first, low, mid, sent) && SentEnds(waiting, ready, second, mid) && mid <= high
      && (if queued then PendingTurn(ready, e, o, third, mid, high, sent) else e == ready)
  }

  lemma FoundStays(low: seq<Mined>, high: seq<Mined>, tx: Tx)
    requires low <= high
    ensures Found(low, tx).Some? ==> Found(high, tx) == Found(low, tx)
  {
  }

  /** What that comes to. A row the chain answers for is settled, whatever it was waiting for; a sent
      row nobody can find counts up and fails at the third miss; a row without its transaction fails; a
      pending order that is picked has its intent recorded, and is sent when the broadcast is confirmed;
      and a row that is in none of the three groups is left alone. */
  lemma PassOutcome(b: Slot, ready: Slot, e: Slot, o: nat, first: Answers, second: Answers, third: Answers,
                    queued: bool, low: seq<Mined>, high: seq<Mined>, sent: set<Tx>)
    requires PassedRow(b, ready, e, o, first, second, third, queued, low, high, sent)
    ensures b.row.status == Sent && b.row.tx.Some? && !second.missed && Found(low, b.row.tx.value).Some? ==>
              e == Settled(b, Found(low, b.row.tx.value).value, second.uidFound)
    ensures b.row.status == Sent && b.row.tx.Some? && (second.missed || Found(high, b.row.tx.value).None?) ==>
              e == if b.misses >= 2 then Slot(b.row.(status := Failed), 0) else Slot(b.row, b.misses + 1)
    ensures b.row.status == Sending && b.row.tx.Some? && first.complete && !first.missed && Found(low, b.row.tx.value).Some? ==>
              e == Settled(b, Found(low, b.row.tx.value).value, first.uidFound)
    ensures b.row.status in {Sending, Sent} && b.row.tx.None? ==> e == FailedSlot(b)
    ensures b.row.status == Pending && queued && third.complete && third.quote.Price? && third.lag.Some? ==>
              && e.row.tx.Some? && e.row.tx.value.Attest? && e.row.tx.value.order == o && e.row.tx.value.gas == third.quote.gas
              && e.row.nonce == Some(e.row.tx.value.nonce)
              && (if third.fate == Confirmed then e.row.tx.value in sent && e.row.status in {Sent, Attested, Failed} else e.row.status == Sending)
    ensures b.row.status == Pending && queued && !third.complete ==> e == FailedSlot(b)
    ensures b.row.status == Pending && !queued ==> e == b
    ensures b.row.status in {Unqueued, Attested, Failed} ==> e == b
  {
    var waiting: Slot, mid: seq<Mined> :|
      && SendingTurn(b, waiting, o, first, low, mid, sent) && SentEnds(waiting, ready, second, mid) && mid <= high
      && (if queued then PendingTurn(ready, e, o, third, mid, high, sent) else e == ready);
    var from, height: nat, to :| low <= from <= to <= mid && SendingEnds(b, waiting, o, first, from, height, to, sent) && |from| <= height <= |to|;
    if b.row.tx.Some? {
      FoundStays(low, from, b.row.tx.value);
      FoundStays(low, mid, b.row.tx.value);
      FoundStays(mid, high, b.row.tx.value);
    }
  }

  class Worker {
    var rows: seq<Row>
    var unseen: map<nat, nat>
    var sent: set<Tx>
    var mined: seq<Mined>

    constructor (orders: nat)
      ensures View(Idle) == Fresh(orders, 1)
    {
      rows := seq(orders, _ => Row(Unqueued, None, None));
      unseen := map[];
      sent := {};
      mined := [];
    }

    ghost function View(pc: Pc): World
      reads this
    {
      World(rows, sent, mined, unseen, [pc])
    }

    function Receipt(tx: Tx): Option<bool>
      reads this
    {
      Found(mined, tx)
    }

    ghost function SlotOf(o: nat): Slot
      reads this
      requires o < |rows|
    {
      Slot(rows[o], Misses(unseen, o))
    }

    /** The chain moves on while the worker is in state pc. */
    method Elapse(blocks: seq<Mined>, ghost pc: Pc, ghost steady: bool, ghost start: World, ghost past: seq<Event>)
      returns (ghost es: seq<Event>)
      requires Trace(steady, start, past, View(pc))
      modifies this`mined
      ensures Trace(steady, start, es, View(pc)) && old(mined) <= mined
    {
      es := past;
      for i := 0 to |blocks|
        invariant Trace(steady, start, es, View(pc)) && old(mined) <= mined
      {
        var b := blocks[i];
        if b.tx.nonce == |mined| && (b.tx.Foreign? || b.tx in sent) {
          ghost var next;
          es, next := Go(steady, start, es, View(pc), Mine(b.tx, b.succeeded));
          mined := mined + [b];
        }
      }
    }

    /** The conditional UPDATE on attest_status: whether exactly this row moved. */
    method Claim(o: nat, from: set<RowStatus>, row: Row) returns (moved: bool)
      modifies this`rows
      ensures moved <==> Wins(old(View(Idle)), o, from)
      ensures rows == Cas(old(rows), o, from, row)
    {
      moved := o < |rows| && rows[o].status in from;
      if moved {
        rows := rows[o := row];
      }
    }

    method ResolveReceipt(o: nat, tx: Tx, succeeded: bool, uidFound: bool,
                          ghost steady: bool, ghost start: World, ghost past: seq<Event>)
      returns (ghost es: seq<Event>)
      requires o < |rows| && rows[o].status in {Sending, Sent}
      requires Trace(steady, start, past, View(Resolving(o, tx, succeeded)))
      modifies this`rows, this`unseen
      ensures Trace(steady, start, es, View(Idle))
      ensures rows == old(rows)[o := Resolved(old(rows)[o], succeeded, uidFound)]
      ensures SlotOf(o) == Settled(old(SlotOf(o)), succeeded, uidFound) && CountsElsewhere(old(unseen), unseen, o)
    {
      ghost var next;
      es, next := Go(steady, start, past, View(Resolving(o, tx, succeeded)), Resolve(0, uidFound));
      if !succeeded || !uidFound {
        var moved := Claim(o, {Sending, Sent}, rows[o].(status := Failed));
      } else {
        var moved := Claim(o, {Sending, Sent}, rows[o].(status := Attested));
        if moved {
          unseen := unseen - {o};
        }
      }
    }

    /** The hypothesis on gas, as a condition on the network: a rebroadcast whose outcome is
        uncertain was signed at the recorded gas price. */
    static predicate Steady(row: Row, o: nat, a: Answers) {
      a.fate == Uncertain && a.quote.Price? && row.tx.Some? ==> row.tx.value == Attest(o, row.tx.value.nonce, a.quote.gas)
    }

    /** The row after its receipt was read. */
    static function Resolved(row: Row, succeeded: bool, uidFound: bool): Row {
      row.(status := if succeeded && uidFound then Attested else Failed)
    }

    static ghost predicate CountsElsewhere(before: map<nat, nat>, after: map<nat, nat>, o: nat) {
      forall j: nat :: j != o ==> Misses(after, j) == Misses(before, j)
    }

    static ghost predicate Elsewhere(before: seq<Row>, after: seq<Row>, o: nat) {
      |after| == |before| && forall j :: 0 <= j < |after| && j != o ==> after[j] == before[j]
    }

    /** One pending order: build and sign, record the intent, broadcast, mark sent, resolve. */
    method AttestOne(o: nat, a: Answers, ghost steady: bool, ghost start: World, ghost past: seq<Event>)
      returns (progress: bool, ghost es: seq<Event>)
      requires o < |rows| && Trace(steady, start, past, View(Idle))
      modifies this
      ensures Trace(steady, start, es, View(Idle))
      ensures Elsewhere(old(rows), rows, o)
      ensures old(rows)[o].status != Pending ==> progress && rows == old(rows) && sent == old(sent)
      ensures forall tx :: tx in sent && tx !in old(sent) ==> rows[o].tx == Some(tx) && tx.Attest? && tx.order == o
      ensures old(rows)[o].status == Pending && !a.complete ==> rows[o].status == Failed
      ensures old(rows)[o].status == Pending && a.complete && (!a.quote.Price? || a.lag.None?) ==>
                rows == old(rows) && progress == a.quote.TooHigh?
      ensures old(rows)[o].status == Pending && a.complete && a.quote.Price? && a.lag.Some? ==>
                && rows[o].tx.Some? && rows[o].nonce == Some(rows[o].tx.value.nonce)
                && (progress <==> a.fate == Confirmed)
                && (if progress then rows[o].status in {Sent, Attested, Failed} && rows[o].tx.value in sent else rows[o].status == Sending)
      ensures old(mined) <= mined && old(sent) <= sent && CountsElsewhere(old(unseen), unseen, o)
      ensures PendingEnds(old(SlotOf(o)), SlotOf(o), o, a, old(mined), mined, sent)
      ensures progress <==> Progresses(old(rows)[o], a)
    {
      es := past;
      if rows[o].status != Pending {
        return true, es;
      }
      ghost var at := View(Idle);
      if !a.complete {
        es, at := Go(steady, start, es, at, FailUnattestable(0, o));
        var moved := Claim(o, {Pending}, rows[o].(status := Failed));
        return true, es;
      }
      if a.quote.TooHigh? {
        return true, es;
      }
      if a.quote.Unavailable? || a.lag.None? {
        return false, es;
      }
      var nonce := Behind(|mined|, a.lag.value);
      var tx := Attest(o, nonce, a.quote.gas);
      es, at := Go(steady, start, es, at, Build(0, o, nonce, a.quote.gas));
      progress, es := ClaimAndSend(o, tx, a, steady, start, es);
    }

    /** Signed but not broadcast: the intent goes on record before anything leaves. */
    method ClaimAndSend(o: nat, tx: Tx, a: Answers, ghost steady: bool, ghost start: World, ghost past: seq<Event>)
      returns (progress: bool, ghost es: seq<Event>)
      requires o < |rows| && rows[o].status == Pending && Trace(steady, start, past, View(Built(o, tx)))
      modifies this
      ensures Trace(steady, start, es, View(Idle)) && sent == old(sent) + (if a.fate == Lost then {} else {tx})
      ensures Elsewhere(old(rows), rows, o) && rows[o].tx == Some(tx) && rows[o].nonce == Some(tx.nonce)
      ensures progress <==> a.fate == Confirmed
      ensures if progress then rows[o].status in {Sent, Attested, Failed} else rows[o].status == Sending
      ensures old(mined) <= mined && CountsElsewhere(old(unseen), unseen, o)
      ensures var claimed := Slot(Row(Sending, Some(tx), Some(tx.nonce)), old(SlotOf(o)).misses);
              SlotOf(o) == if a.fate == Confirmed then Looked(claimed.(row := claimed.row.(status := Sent)), tx, a, mined) else claimed
    {
      ghost var at;
      es := Elapse(a.between, Built(o, tx), steady, start, past);
      es, at := Go(steady, start, es, View(Built(o, tx)), Event.Claim(0));
      var claimed := Claim(o, {Pending}, Row(Sending, Some(tx), Some(tx.nonce)));
      progress, es := Send(o, tx, a, steady, start, es);
    }

    /** The intent is recorded: broadcast, mark sent, and wait for the receipt once. */
    method Send(o: nat, tx: Tx, a: Answers, ghost steady: bool, ghost start: World, ghost past: seq<Event>)
      returns (progress: bool, ghost es: seq<Event>)
      requires o < |rows| && rows[o].status == Sending && rows[o].tx == Some(tx)
      requires Trace(steady, start, past, View(Claimed(o, tx)))
      modifies this
      ensures Trace(steady, start, es, View(Idle)) && sent == old(sent) + (if a.fate == Lost then {} else {tx})
      ensures Elsewhere(old(rows), rows, o) && rows[o].tx == Some(tx) && rows[o].nonce == old(rows)[o].nonce
      ensures progress <==> a.fate == Confirmed
      ensures if progress then rows[o].status in {Sent, Attested, Failed} else rows[o].status == Sending
      ensures old(mined) <= mined && CountsElsewhere(old(unseen), unseen, o)
      ensures SlotOf(o) == if a.fate == Confirmed
                           then Looked(old(SlotOf(o)).(row := old(SlotOf(o)).row.(status := Sent)), tx, a, mined) else old(SlotOf(o))
    {
      ghost var at;
      progress := a.fate == Confirmed;
      if !progress {
        es, at := Go(steady, start, past, View(Claimed(o, tx)), BroadcastFailed(0, a.fate == Uncertain));
        if a.fate == Uncertain {
          sent := sent + {tx};
        }
        return;
      }
      es, at := Go(steady, start, past, View(Claimed(o, tx)), Broadcast(0));
      sent := sent + {tx};
      es, at := Go(steady, start, es, View(Broadcasted(o, tx)), MarkSent(0));
      var marked := Claim(o, {Sending}, rows[o].(status := Sent));
      es := AwaitReceipt(o, tx, a, steady, start, es);
    }

    method AwaitReceipt(o: nat, tx: Tx, a: Answers, ghost steady: bool, ghost start: World, ghost past: seq<Event>)
      returns (ghost es: seq<Event>)
      requires o < |rows| && rows[o].status == Sent && rows[o].tx == Some(tx)
      requires Trace(steady, start, past, View(Waiting(o, tx)))
      modifies this`rows, this`unseen, this`mined
      ensures Trace(steady, start, es, View(Idle))
      ensures Elsewhere(old(rows), rows, o) && rows[o].tx == Some(tx) && rows[o].nonce == old(rows)[o].nonce
      ensures rows[o].status in {Sent, Attested, Failed}
      ensures old(mined) <= mined && CountsElsewhere(old(unseen), unseen, o)
      ensures SlotOf(o) == Looked(old(SlotOf(o)), tx, a, mined)
    {
      ghost var at;
      es := Elapse(a.later, Waiting(o, tx), steady, start, past);
      var receipt := if a.missed then None else Receipt(tx);
      es, at := Go(steady, start, es, View(Waiting(o, tx)), Wait(0, receipt.Some?));
      if receipt.Some? {
        es := ResolveReceipt(o, tx, receipt.value, a.uidFound, steady, start, es);
      }
    }

    /** One row left in the send window: resolve it, reset it, or broadcast again at its nonce. */
    method ReconcileSendingOne(o: nat, a: Answers, ghost steady: bool, ghost start: World, ghost past: seq<Event>)
      returns (ghost es: seq<Event>)
      requires o < |rows| && Trace(steady, start, past, View(Idle)) && (steady ==> Steady(rows[o], o, a))
      modifies this
      ensures Trace(steady, start, es, View(Idle))
      ensures Elsewhere(old(rows), rows, o)
      ensures old(rows)[o].status != Sending ==> rows == old(rows) && sent == old(sent)
      ensures old(rows)[o].status == Sending && (old(rows)[o].tx.None? || !a.complete) ==> rows[o] == old(rows)[o].(status := Failed)
      ensures old(rows)[o].status == Sending && old(rows)[o].tx.Some? && a.complete && !a.missed
              && old(Receipt(rows[o].tx.value)).Some? ==>
                rows[o] == Resolved(old(rows)[o], old(Receipt(rows[o].tx.value)).value, a.uidFound)
      ensures rows[o].status == Sending ==> old(rows)[o].status == Sending && (a.lag.None? || !a.quote.Price? || a.fate != Confirmed)
      ensures old(rows)[o].status == Sending && rows[o].status == Pending ==>
                old(rows)[o].tx.Some? && Receipt(old(rows)[o].tx.value).None? && |mined| > old(rows)[o].tx.value.nonce
      ensures old(mined) <= mined && old(sent) <= sent && CountsElsewhere(old(unseen), unseen, o)
      ensures forall tx :: tx in sent && tx !in old(sent) ==> tx.Attest? && tx.order == o
      ensures SendingTurn(old(SlotOf(o)), SlotOf(o), o, a, old(mined), mined, sent)
    {
      es := past;
      ghost var was := SlotOf(o);
      if rows[o].status != Sending {
        assert SendingEnds(was, SlotOf(o), o, a, mined, |mined|, mined, sent);
        return;
      }
      ghost var at := View(Idle);
      if rows[o].tx.None? || !a.complete {
        es, at := Go(steady, start, es, at, FailIncomplete(0, o));
        var moved := Claim(o, {Sending}, rows[o].(status := Failed));
        assert SendingEnds(was, SlotOf(o), o, a, mined, |mined|, mined, sent);
        return;
      }
      es := LookUp(o, rows[o].tx.value, a, steady, start, es);
    }

    /** The recorded hash may have been mined before the process died. */
    method LookUp(o: nat, tx: Tx, a: Answers, ghost steady: bool, ghost start: World, ghost past: seq<Event>)
      returns (ghost es: seq<Event>)
      requires o < |rows| && rows[o].status == Sending && rows[o].tx == Some(tx)
      requires Trace(steady, start, past, View(Idle)) && (steady ==> Steady(rows[o], o, a))
      modifies this
      ensures Trace(steady, start, es, View(Idle))
      ensures Elsewhere(old(rows), rows, o)
      ensures !a.missed && old(Receipt(tx)).Some? ==> rows[o] == Resolved(old(rows)[o], old(Receipt(tx)).value, a.uidFound)
      ensures rows[o].status == Sending ==> a.lag.None? || !a.quote.Price? || a.fate != Confirmed
      ensures rows[o].status == Pending ==> Receipt(tx).None? && |mined| > tx.nonce
      ensures old(mined) <= mined && old(sent) <= sent && CountsElsewhere(old(unseen), unseen, o)
      ensures forall t :: t in sent && t !in old(sent) ==> t.Attest? && t.order == o
      ensures a.complete ==> SendingTurn(old(SlotOf(o)), SlotOf(o), o, a, old(mined), mined, sent)
    {
      ghost var at;
      ghost var was := SlotOf(o);
      es, at := Go(steady, start, past, View(Idle), ReadSending(0, o));
      var receipt := if a.missed then None else Receipt(tx);
      es, at := Go(steady, start, es, View(RowRead(o, tx)), FirstRead(0, receipt.Some?));
      if receipt.Some? {
        es := ResolveReceipt(o, tx, receipt.value, a.uidFound, steady, start, es);
        assert a.complete ==> SendingEnds(was, SlotOf(o), o, a, mined, |mined|, mined, sent);
        return;
      }
      ghost var first := mined;
      es := ReadNonceAndAct(o, tx, a, steady, start, es);
      ghost var height: nat :| |first| <= height <= |mined| && NotFoundEnds(was, SlotOf(o), o, a, tx, height, mined, sent);
      assert a.complete ==> SendingEnds(was, SlotOf(o), o, a, first, height, mined, sent);
    }

    /** The receipt was not found: the nonce says which way to go. */
    method ReadNonceAndAct(o: nat, tx: Tx, a: Answers, ghost steady: bool, ghost start: World, ghost past: seq<Event>)
      returns (ghost es: seq<Event>)
      requires o < |rows| && rows[o].status == Sending && rows[o].tx == Some(tx)
      requires Trace(steady, start, past, View(Unfound(o, tx))) && (steady ==> Steady(rows[o], o, a))
      modifies this
      ensures Trace(steady, start, es, View(Idle))
      ensures Elsewhere(old(rows), rows, o)
      ensures rows[o].status == Sending ==> a.lag.None? || !a.quote.Price? || a.fate != Confirmed
      ensures rows[o].status == Pending ==> Receipt(tx).None? && |mined| > tx.nonce
      ensures old(mined) <= mined && old(sent) <= sent && CountsElsewhere(old(unseen), unseen, o)
      ensures forall t :: t in sent && t !in old(sent) ==> t.Attest? && t.order == o
      ensures exists height: nat :: |old(mined)| <= height <= |mined| && NotFoundEnds(old(SlotOf(o)), SlotOf(o), o, a, tx, height, mined, sent)
    {
      ghost var at;
      ghost var was := SlotOf(o);
      es := Elapse(a.between, Unfound(o, tx), steady, start, past);
      if a.lag.None? {
        es, at := Go(steady, start, es, View(Unfound(o, tx)), Crash(0));
        assert NotFoundEnds(was, SlotOf(o), o, a, tx, |mined|, mined, sent);
        return;
      }
      ghost var height := |mined|;
      var confirmed := Behind(|mined|, a.lag.value);
      es, at := Go(steady, start, es, View(Unfound(o, tx)), ReadNonce(0, confirmed));
      if confirmed > tx.nonce {
        es := ResetOrResolve(o, tx, a, steady, start, es);
      } else {
        es := Rebroadcast(o, tx, a, steady, start, es);
      }
      assert NotFoundEnds(was, SlotOf(o), o, a, tx, height, mined, sent);
    }

    /** The nonce was used. Reset the row only if a second look still does not find it. */
    method ResetOrResolve(o: nat, tx: Tx, a: Answers, ghost steady: bool, ghost start: World, ghost past: seq<Event>)
      returns (ghost es: seq<Event>)
      requires o < |rows| && rows[o].status == Sending
      requires Trace(steady, start, past, View(Consumed(o, tx)))
      modifies this`rows, this`unseen, this`mined
      ensures Trace(steady, start, es, View(Idle))
      ensures old(mined) <= mined
      ensures Elsewhere(old(rows), rows, o)
      ensures match Receipt(tx)
              case Some(succeeded) => rows[o] == Resolved(old(rows)[o], succeeded, a.uidFound)
              case None => rows[o] == Row(Pending, None, None) && o !in unseen
      ensures CountsElsewhere(old(unseen), unseen, o)
      ensures SlotOf(o) == if Receipt(tx).Some? then Settled(old(SlotOf(o)), Receipt(tx).value, a.uidFound) else Slot(Row(Pending, None, None), 0)
    {
      ghost var at;
      es := Elapse(a.later, Consumed(o, tx), steady, start, past);
      var recheck := Receipt(tx);
      es, at := Go(steady, start, es, View(Consumed(o, tx)), Recheck(0));
      if recheck.Some? {
        es := ResolveReceipt(o, tx, recheck.value, a.uidFound, steady, start, es);
        return;
      }
      es := ResetRow(o, tx, steady, start, es);
    }

    method ResetRow(o: nat, tx: Tx, ghost steady: bool, ghost start: World, ghost past: seq<Event>)
      returns (ghost es: seq<Event>)
      requires o < |rows| && rows[o].status == Sending && Trace(steady, start, past, View(Resetting(o, tx)))
      modifies this`rows, this`unseen
      ensures Trace(steady, start, es, View(Idle))
      ensures rows == old(rows)[o := Row(Pending, None, None)] && unseen == old(unseen) - {o}
    {
      ghost var at;
      es, at := Go(steady, start, past, View(Resetting(o, tx)), Reset(0));
      unseen := unseen - {o};
      var moved := Claim(o, {Sending}, Row(Pending, None, None));
    }

    /** The nonce is free: sign again, pinned to it, and watch whatever hash comes out. */
    method Rebroadcast(o: nat, tx: Tx, a: Answers, ghost steady: bool, ghost start: World, ghost past: seq<Event>)
      returns (ghost es: seq<Event>)
      requires o < |rows| && rows[o].status == Sending && rows[o].tx == Some(tx)
      requires Trace(steady, start, past, View(NonceFree(o, tx))) && (steady ==> Steady(rows[o], o, a))
      modifies this`rows, this`sent, this`mined
      ensures Trace(steady, start, es, View(Idle))
      ensures Elsewhere(old(rows), rows, o)
      ensures if a.quote.Price? && a.fate == Confirmed
              then rows[o] == old(rows)[o].(status := Sent, tx := Some(Attest(o, tx.nonce, a.quote.gas))) && rows[o].tx.value in sent
              else rows[o] == old(rows)[o]
      ensures old(mined) <= mined
      ensures sent == old(sent) + if a.quote.Price? && a.fate != Lost then {Attest(o, tx.nonce, a.quote.gas)} else {}
    {
      ghost var at := View(NonceFree(o, tx));
      if !a.quote.Price? {
        es, at := Go(steady, start, past, at, Crash(0));
        return;
      }
      var again := Attest(o, tx.nonce, a.quote.gas);
      es, at := Go(steady, start, past, at, Rebuild(0, a.quote.gas));
      es := SendAgain(o, tx, again, a, steady, start, es);
    }

    method SendAgain(o: nat, tx: Tx, again: Tx, a: Answers, ghost steady: bool, ghost start: World, ghost past: seq<Event>)
      returns (ghost es: seq<Event>)
      requires o < |rows| && rows[o].status == Sending && rows[o].tx == Some(tx)
      requires Trace(steady, start, past, View(Rebuilt(o, tx, again))) && (steady && a.fate == Uncertain ==> again == tx)
      modifies this`rows, this`sent, this`mined
      ensures Trace(steady, start, es, View(Idle))
      ensures Elsewhere(old(rows), rows, o)
      ensures if a.fate == Confirmed
              then rows[o] == old(rows)[o].(status := Sent, tx := Some(again)) && again in sent
              else rows[o] == old(rows)[o]
      ensures old(mined) <= mined && sent == old(sent) + if a.fate != Lost then {again} else {}
    {
      ghost var at;
      if a.fate != Confirmed {
        es, at := Go(steady, start, past, View(Rebuilt(o, tx, again)), BroadcastFailed(0, a.fate == Uncertain));
        if a.fate == Uncertain {
          sent := sent + {again};
        }
        return;
      }
      es, at := Go(steady, start, past, View(Rebuilt(o, tx, again)), Broadcast(0));
      sent := sent + {again};
      es := Elapse(a.later, Rebroadcasted(o, tx, again), steady, start, es);
      es, at := Go(steady, start, es, View(Rebroadcasted(o, tx, again)), MarkSent(0));
      var moved := Claim(o, {Sending}, rows[o].(status := Sent, tx := Some(again)));
    }

    /** One sent row: its receipt is looked up, never sent again, and given up after MAX_UNSEEN misses. */
    method ReconcileSentOne(o: nat, a: Answers, ghost steady: bool, ghost start: World, ghost past: seq<Event>)
      returns (ghost es: seq<Event>)
      requires o < |rows| && rows[o].status == Sent && Trace(steady, start, past, View(Idle))
      modifies this`rows, this`unseen
      ensures Trace(steady, start, es, View(Idle))
      ensures Elsewhere(old(rows), rows, o)
      ensures var tx := old(rows)[o].tx;
              var found := tx.Some? && !a.missed && old(Receipt(tx.value)).Some?;
              var seen := (if o in old(unseen) then old(unseen)[o] else 0) + 1;
              rows[o] == if tx.None? then old(rows)[o].(status := Failed)
                         else if found then Resolved(old(rows)[o], old(Receipt(tx.value)).value, a.uidFound)
                         else if seen >= MAX_UNSEEN then old(rows)[o].(status := Failed)
                         else old(rows)[o]
      ensures CountsElsewhere(old(unseen), unseen, o) && SentEnds(old(SlotOf(o)), SlotOf(o), a, mined)
    {
      ghost var at := View(Idle);
      if rows[o].tx.None? {
        es, at := Go(steady, start, past, at, FailIncomplete(0, o));
        var moved := Claim(o, {Sent}, rows[o].(status := Failed));
        return;
      }
      var tx := rows[o].tx.value;
      var receipt := if a.missed then None else Receipt(tx);
      es, at := Go(steady, start, past, at, CheckSent(0, o, receipt.Some?));
      if receipt.Some? {
        es := ResolveReceipt(o, tx, receipt.value, a.uidFound, steady, start, es);
        return;
      }
      var seen := (if o in unseen then unseen[o] else 0) + 1;
      if seen >= MAX_UNSEEN {
        unseen := unseen - {o};
        var moved := Claim(o, {Sent}, rows[o].(status := Failed));
      } else {
        unseen := unseen[o := seen];
      }
    }

    /** The indices of the rows in one status, as a query returns them. */
    method Select(s: RowStatus) returns (ids: seq<nat>)
      ensures forall k :: 0 <= k < |ids| ==> ids[k] < |rows| && rows[ids[k]].status == s
      ensures forall o :: 0 <= o < |rows| && rows[o].status == s ==> o in ids
      ensures forall i, k :: 0 <= i < k < |ids| ==> ids[i] != ids[k]
    {
      ids := [];
      for o := 0 to |rows|
        invariant forall k :: 0 <= k < |ids| ==> ids[k] < o && rows[ids[k]].status == s
        invariant forall j :: 0 <= j < o && rows[j].status == s ==> j in ids
        invariant forall i, k :: 0 <= i < k < |ids| ==> ids[i] != ids[k]
      {
        if rows[o].status == s {
          ids := ids + [o];
        }
      }
    }

    /** The send window, row by row. */
    method SendingPass(a: seq<Answers>, ghost steady: bool, ghost start: World, ghost past: seq<Event>) returns (ghost es: seq<Event>)
      requires |a| == |rows| && Trace(steady, start, past, View(Idle))
      requires steady ==> forall o :: 0 <= o < |rows| ==> Steady(rows[o], o, a[o])
      modifies this
      ensures Trace(steady, start, es, View(Idle))
      ensures |rows| == old(|rows|) && old(mined) <= mined && old(sent) <= sent
      ensures forall tx :: tx in sent && tx !in old(sent) ==> tx.Attest? && tx.order < |rows| && old(rows)[tx.order].status == Sending
      ensures forall o :: 0 <= o < |rows| ==> SendingTurn(Slot(old(rows)[o], Misses(old(unseen), o)), SlotOf(o), o, a[o], old(mined), mined, sent)
    {
      es := past;
      ghost var before := View(Idle);
      var sending := Select(Sending);
      ghost var done: set<nat> := {};
      for k := 0 to |sending|
        invariant Trace(steady, start, es, View(Idle)) && |rows| == |a|
        invariant old(mined) <= mined && old(sent) <= sent
        invariant forall i :: 0 <= i < |sending| ==> (sending[i] in done <==> i < k)
        invariant forall tx :: tx in sent && tx !in old(sent) ==> tx.Attest? && tx.order < |rows| && old(rows)[tx.order].status == Sending
        invariant SendingSoFar(before, View(Idle), a, done)
      {
        var o := sending[k];
        ghost var was := View(Idle);
        es := ReconcileSendingOne(o, a[o], steady, start, es);
        SendingNext(before, was, View(Idle), a, done, o);
        done := done + {o};
      }
      AllHadTheirTurn(before, View(Idle), a, done);
    }

    /** The sent rows, one look each. */
    method SentPass(a: seq<Answers>, ghost steady: bool, ghost start: World, ghost past: seq<Event>) returns (ghost es: seq<Event>)
      requires |a| == |rows| && Trace(steady, start, past, View(Idle))
      modifies this`rows, this`unseen
      ensures Trace(steady, start, es, View(Idle)) && |rows| == old(|rows|)
      ensures forall o :: 0 <= o < |rows| ==> SentEnds(Slot(old(rows)[o], Misses(old(unseen), o)), SlotOf(o), a[o], mined)
    {
      es := past;
      var waiting := Select(Sent);
      ghost var done: set<nat> := {};
      for k := 0 to |waiting|
        invariant Trace(steady, start, es, View(Idle)) && |rows| == |a|
        invariant forall i :: 0 <= i < |waiting| ==> (waiting[i] in done <==> i < k)
        invariant forall o :: 0 <= o < |rows| && o !in done ==> rows[o] == old(rows)[o] && Misses(unseen, o) == Misses(old(unseen), o)
        invariant forall o :: 0 <= o < |rows| && o in done ==> SentEnds(Slot(old(rows)[o], Misses(old(unseen), o)), SlotOf(o), a[o], mined)
      {
        var o := waiting[k];
        es := ReconcileSentOne(o, a[o], steady, start, es);
        done := done + {o};
      }
    }

    /** The pending orders that were picked, one turn each. */
    method PendingPass(a: seq<Answers>, pending: seq<nat>, ghost steady: bool, ghost start: World, ghost past: seq<Event>)
      returns (acted: nat, ghost es: seq<Event>)
      requires |a| == |rows| && Trace(steady, start, past, View(Idle))
      requires (forall k :: 0 <= k < |pending| ==> pending[k] < |rows|) && forall i, k :: 0 <= i < k < |pending| ==> pending[i] != pending[k]
      modifies this
      ensures Trace(steady, start, es, View(Idle))
      ensures |rows| == old(|rows|) && old(mined) <= mined && old(sent) <= sent
      ensures forall tx :: tx in sent && tx !in old(sent) ==> tx.Attest? && tx.order in pending
      ensures forall o :: 0 <= o < |rows| && o in pending ==>
                PendingTurn(Slot(old(rows)[o], Misses(old(unseen), o)), SlotOf(o), o, a[o], old(mined), mined, sent)
      ensures forall o :: 0 <= o < |rows| && o !in pending ==> SlotOf(o) == Slot(old(rows)[o], Misses(old(unseen), o))
      ensures acted == Progressed(Slots(old(rows), old(unseen)), a, pending)
    {
      es, acted := past, 0;
      ghost var before := View(Idle);
      ghost var done: set<nat> := {};
      for k := 0 to |pending|
        invariant Trace(steady, start, es, View(Idle)) && |rows| == |a|
        invariant old(mined) <= mined && old(sent) <= sent
        invariant forall i :: 0 <= i < |pending| ==> (pending[i] in done <==> i < k)
        invariant forall o :: o in done ==> o in pending
        invariant forall tx :: tx in sent && tx !in old(sent) ==> tx.Attest? && tx.order in pending
        invariant PendingSoFar(before, View(Idle), a, done)
        invariant acted == Progressed(Slots(old(rows), old(unseen)), a, pending[..k])
      {
        var o := pending[k];
        ghost var was := View(Idle);
        var progress;
        progress, es := AttestOne(o, a[o], steady, start, es);
        PendingNext(before, was, View(Idle), a, done, o);
        done := done + {o};
        assert pending[..k + 1][..k] == pending[..k];
        if progress {
          acted := acted + 1;
        }
      }
      assert pending[..|pending|] == pending;
    }

    /** One pass: the send window first, then the sent rows, then the oldest pending orders, in
        whatever order the query lists them. The network answers every turn anew. Each pass is a run
        of the protocol; what it does to a row is the row's turns and nothing else, and it counts the
        turns that got somewhere. */
    method Tick(first: seq<Answers>, second: seq<Answers>, third: seq<Answers>, pending: seq<nat>, ghost steady: bool)
      returns (acted: nat, ghost es: seq<Event>, ghost ready: seq<Slot>)
      requires |first| == |second| == |third| == |rows|
      requires |pending| <= MAX_PER_TICK && forall k :: 0 <= k < |pending| ==> pending[k] < |rows|
      requires steady ==> forall o :: 0 <= o < |rows| ==> Steady(rows[o], o, first[o])
      modifies this
      ensures Trace(steady, old(View(Idle)), es, View(Idle))
      ensures steady && Safe(old(View(Idle))) ==> Safe(View(Idle))
      ensures |ready| == |rows| == old(|rows|) && old(mined) <= mined && old(sent) <= sent
      ensures forall o :: 0 <= o < |rows| ==>
                PassedRow(Slot(old(rows)[o], Misses(old(unseen), o)), ready[o], SlotOf(o), o, first[o], second[o], third[o],
                          o in pending, old(mined), mined, sent)
      ensures forall tx :: tx in sent && tx !in old(sent) ==>
                tx.Attest? && tx.order < |rows| && (old(rows)[tx.order].status == Sending || tx.order in pending)
      ensures acted == Progressed(ready, third, pending) <= |pending|
    {
      ghost var start := View(Idle);
      es := SendingPass(first, steady, start, []);
      ghost var waiting, mid := Slots(rows, unseen), mined;
      ghost var network := sent;
      es := SentPass(second, steady, start, es);
      ready := Slots(rows, unseen);
      acted, es := PendingPass(third, pending, steady, start, es);
      forall o | 0 <= o < |rows|
        ensures PassedRow(Slot(old(rows)[o], Misses(old(unseen), o)), ready[o], SlotOf(o), o, first[o], second[o], third[o],
                          o in pending, old(mined), mined, sent)
      {
        SendingLater(Slot(old(rows)[o], Misses(old(unseen), o)), waiting[o], o, first[o], old(mined), mid, network, sent);
        assert SentEnds(waiting[o], ready[o], second[o], mid);
      }
      ProgressedAtMost(ready, third, pending);
      if steady && Safe(start) {
        RunSafe(start, es);
      }
    }
  }

  ghost function Slots(rows: seq<Row>, unseen: map<nat, nat>): seq<Slot> {
    seq(|rows|, o requires 0 <= o < |rows| => Slot(rows[o], Misses(unseen, o)))
  }

  lemma {:induction false} ProgressedAtMost(ready: seq<Slot>, a: seq<Answers>, pending: seq<nat>)
    requires |ready| == |a| && forall k :: 0 <= k < |pending| ==> pending[k] < |ready|
    ensures Progressed(ready, a, pending) <= |pending|
    decreases |pending|
  {
    if pending != [] {
      ProgressedAtMost(ready, a, pending[..|pending| - 1]);
    }
  }

  ghost function SlotIn(w: World, o: nat): Slot
    requires o < |w.rows|
  {
    Slot(w.rows[o], Misses(w.unseen, o))
  }

  /** The rows already done had their turn in the send window, and the others are as they were. */
  ghost predicate SendingSoFar(before: World, now: World, a: seq<Answers>, done: set<nat>) {
    && |a| == |before.rows| == |now.rows|
    && forall o :: 0 <= o < |a| ==>
         if o in done then SendingTurn(SlotIn(before, o), SlotIn(now, o), o, a[o], before.mined, now.mined, now.sent)
         else SlotIn(now, o) == SlotIn(before, o)
  }

  ghost predicate PendingSoFar(before: World, now: World, a: seq<Answers>, done: set<nat>) {
    && |a| == |before.rows| == |now.rows|
    && forall o :: 0 <= o < |a| ==>
         if o in done then PendingTurn(SlotIn(before, o), SlotIn(now, o), o, a[o], before.mined, now.mined, now.sent)
         else SlotIn(now, o) == SlotIn(before, o)
  }

  /** One turn leaves every other row alone and moves the chain and the network on. */
  ghost predicate TurnOf(was: World, now: World, o: nat) {
    && Worker.Elsewhere(was.rows, now.rows, o) && Worker.CountsElsewhere(was.unseen, now.unseen, o)
    && was.mined <= now.mined && was.sent <= now.sent
  }

  lemma SendingNext(before: World, was: World, now: World, a: seq<Answers>, done: set<nat>, o: nat)
    requires SendingSoFar(before, was, a, done) && o < |a| && o !in done && before.mined <= was.mined && TurnOf(was, now, o)
    requires SendingTurn(SlotIn(was, o), SlotIn(now, o), o, a[o], was.mined, now.mined, now.sent)
    ensures SendingSoFar(before, now, a, done + {o})
  {
    forall j | 0 <= j < |a|
      ensures if j in done + {o} then SendingTurn(SlotIn(before, j), SlotIn(now, j), j, a[j], before.mined, now.mined, now.sent)
              else SlotIn(now, j) == SlotIn(before, j)
    {
      if j == o {
        SendingStarts(SlotIn(was, o), SlotIn(now, o), o, a[o], before.mined, was.mined, now.mined, now.sent);
      } else if j in done {
        SendingWidens(SlotIn(before, j), SlotIn(was, j), j, a[j], before.mined, was.mined, was.sent, now.mined, now.sent);
      }
    }
  }

  lemma PendingNext(before: World, was: World, now: World, a: seq<Answers>, done: set<nat>, o: nat)
    requires PendingSoFar(before, was, a, done) && o < |a| && o !in done && before.mined <= was.mined && TurnOf(was, now, o)
    requires PendingEnds(SlotIn(was, o), SlotIn(now, o), o, a[o], was.mined, now.mined, now.sent)
    ensures PendingSoFar(before, now, a, done + {o})
  {
    forall j | 0 <= j < |a|
      ensures if j in done + {o} then PendingTurn(SlotIn(before, j), SlotIn(now, j), j, a[j], before.mined, now.mined, now.sent)
              else SlotIn(now, j) == SlotIn(before, j)
    {
      if j != o && j in done {
        PendingWidens(SlotIn(before, j), SlotIn(was, j), j, a[j], before.mined, was.mined, was.sent, now.mined, now.sent);
      }
    }
  }

  /** A row that was not in the send window had nothing to do in its turn. */
  lemma AllHadTheirTurn(before: World, now: World, a: seq<Answers>, done: set<nat>)
    requires SendingSoFar(before, now, a, done) && before.mined <= now.mined
    requires forall o :: 0 <= o < |a| && o !in done ==> before.rows[o].status != Sending
    ensures forall o :: 0 <= o < |a| ==> SendingTurn(SlotIn(before, o), SlotIn(now, o), o, a[o], before.mined, now.mined, now.sent)
  {
    forall o | 0 <= o < |a|
      ensures SendingTurn(SlotIn(before, o), SlotIn(now, o), o, a[o], before.mined, now.mined, now.sent)
    {
      if o !in done {
        assert SendingEnds(SlotIn(before, o), SlotIn(now, o), o, a[o], before.mined, |before.mined|, before.mined, now.sent);
      }
    }
  }

  /** A turn that started on a later chain than the pass did. */
  lemma SendingStarts(b: Slot, e: Slot, o: nat, a: Answers, low: seq<Mined>, chain: seq<Mined>, high: seq<Mined>, sent: set<Tx>)
    requires SendingTurn(b, e, o, a, chain, high, sent) && low <= chain
    ensures SendingTurn(b, e, o, a, low, high, sent)
  {
    var first, height: nat, last :| chain <= first <= last <= high && SendingEnds(b, e, o, a, first, height, last, sent) && |first| <= height <= |last|;
    assert low <= first;
  }

  lemma SendingLater(b: Slot, e: Slot, o: nat, a: Answers, low: seq<Mined>, mid: seq<Mined>, sent: set<Tx>, sent': set<Tx>)
    requires SendingTurn(b, e, o, a, low, mid, sent) && sent <= sent'
    ensures SendingTurn(b, e, o, a, low, mid, sent')
  {
    SendingWidens(b, e, o, a, low, mid, sent, mid, sent');
  }
}
