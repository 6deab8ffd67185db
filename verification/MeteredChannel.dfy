/** Pay-as-you-go channels. Every call reads the row, decides, and then writes with a conditional
    UPDATE, so calls interleave between the two; each half is a step of its own here. */
module MeteredChannel {
  import opened Prelude

  datatype Status = Open | Closing | Closed | FailedToOpen

  /** vouchers and topups are what the event log recorded as accepted, in order. */
  datatype Channel = Channel(
    status: Status,
    initial: int,
    deposit: int,
    spent: int,
    vouchers: seq<int>,
    topups: seq<int>)

  datatype Error = NotFound | NotOpen | Regression | Overspend | BadSignature | Race | NotPositive

  /** A call between its read and its write. served and topped are how much of the log it saw;
      the code does not keep these, they only say when the read happened. */
  datatype Call =
    | VoucherRead(id: nat, cumulative: int, seen: int, served: nat)
    | TopupRead(id: nat, add: int, seen: int, topped: nat)
    | CloseRead(id: nat, final: Option<int>, seen: int, served: nat)

  datatype State = State(rows: map<nat, Channel>, calls: map<nat, Call>)

  datatype Event =
    | OpenChannel(id: nat, deposit: int)
    | ReadVoucher(caller: nat, id: nat, cumulative: int, signed: bool)
    | WriteVoucher(caller: nat)
    | ReadTopup(caller: nat, id: nat, add: int)
    | WriteTopup(caller: nat)
    | ReadClose(caller: nat, id: nat, final: Option<int>)
    | WriteClose(caller: nat)

  const EMPTY := State(map[], map[])

  function Max(a: int, b: int): int {
    if a < b then b else a
  }

  function Fresh(deposit: int): Channel {
    Channel(Open, deposit, deposit, 0, [], [])
  }

  function VoucherError(rows: map<nat, Channel>, id: nat, cumulative: int, signed: bool): Option<Error> {
    if id !in rows then Some(NotFound)
    else if rows[id].status != Open then Some(NotOpen)
    else if cumulative <= rows[id].spent then Some(Regression)
    else if cumulative > rows[id].deposit then Some(Overspend)
    else if !signed then Some(BadSignature)
    else None
  }

  function TopupError(rows: map<nat, Channel>, id: nat, add: int): Option<Error> {
    if add <= 0 then Some(NotPositive)
    else if id !in rows then Some(NotFound)
    else if rows[id].status != Open then Some(NotOpen)
    else None
  }

  /** Whether a call's conditional UPDATE finds its row. */
  predicate Wins(rows: map<nat, Channel>, c: Call) {
    c.id in rows &&
    match c
    case VoucherRead(id, _, seen, _) => rows[id].status == Open && rows[id].spent == seen
    case TopupRead(id, _, seen, _) => rows[id].status == Open && rows[id].deposit == seen
    case CloseRead(id, _, _, _) => rows[id].status in {Open, Closing}
  }

  /** The row as a winning call leaves it. */
  function Written(ch: Channel, c: Call): Channel {
    match c
    case VoucherRead(_, cumulative, _, _) => ch.(spent := cumulative, vouchers := ch.vouchers + [cumulative])
    case TopupRead(_, add, seen, _) => ch.(deposit := seen + add, topups := ch.topups + [add])
    case CloseRead(_, final, seen, _) => ch.(status := Closed, spent := if final.Some? then Max(final.value, seen) else ch.spent)
  }

  function Write(rows: map<nat, Channel>, c: Call): map<nat, Channel> {
    if Wins(rows, c) then rows[c.id := Written(rows[c.id], c)] else rows
  }

  predicate Enabled(s: State, e: Event) {
    match e
    case OpenChannel(_, _) => true
    case ReadVoucher(k, _, _, _) => k !in s.calls
    case WriteVoucher(k) => k in s.calls && s.calls[k].VoucherRead?
    case ReadTopup(k, _, _) => k !in s.calls
    case WriteTopup(k) => k in s.calls && s.calls[k].TopupRead?
    case ReadClose(k, _, _) => k !in s.calls
    case WriteClose(k) => k in s.calls && s.calls[k].CloseRead?
  }

  function Apply(s: State, e: Event): State
    requires Enabled(s, e)
  {
    match e
    case OpenChannel(id, deposit) => if id in s.rows then s else s.(rows := s.rows[id := Fresh(deposit)])
    case ReadVoucher(k, id, c, signed) =>
      if VoucherError(s.rows, id, c, signed).Some? then s
      else s.(calls := s.calls[k := VoucherRead(id, c, s.rows[id].spent, |s.rows[id].vouchers|)])
    case ReadTopup(k, id, add) =>
      if TopupError(s.rows, id, add).Some? then s
      else s.(calls := s.calls[k := TopupRead(id, add, s.rows[id].deposit, |s.rows[id].topups|)])
    case ReadClose(k, id, final) =>
      if id !in s.rows then s
      else s.(calls := s.calls[k := CloseRead(id, final, s.rows[id].spent, |s.rows[id].vouchers|)])
    case WriteVoucher(k) => State(Write(s.rows, s.calls[k]), s.calls - {k})
    case WriteTopup(k) => State(Write(s.rows, s.calls[k]), s.calls - {k})
    case WriteClose(k) => State(Write(s.rows, s.calls[k]), s.calls - {k})
  }

  predicate Runs(s: State, es: seq<Event>)
    decreases |es|
  {
    es == [] || (Enabled(s, es[0]) && Runs(Apply(s, es[0]), es[1..]))
  }

  function After(s: State, es: seq<Event>): State
    requires Runs(s, es)
    decreases |es|
  {
    if es == [] then s else After(Apply(s, es[0]), es[1..])
  }

  // ------------------------------------------------------------ the invariant

  function Sum(s: seq<int>): int {
    if s == [] then 0 else Sum(s[..|s| - 1]) + s[|s| - 1]
  }

  /** The amount the first n accepted vouchers reached. */
  function Reached(vouchers: seq<int>, n: nat): int
    requires n <= |vouchers|
  {
    if n == 0 then 0 else vouchers[n - 1]
  }

  ghost predicate Advancing(vouchers: seq<int>) {
    && (forall i :: 0 <= i < |vouchers| ==> vouchers[i] > i)
    && (forall i, j :: 0 <= i < j < |vouchers| ==> vouchers[i] < vouchers[j])
  }

  ghost predicate Positive(s: seq<int>) {
    forall i :: 0 <= i < |s| ==> s[i] > 0
  }

  ghost predicate RowOk(ch: Channel) {
    && ch.status in {Open, Closed}
    && Advancing(ch.vouchers) && Positive(ch.topups)
    && ch.deposit == ch.initial + Sum(ch.topups)
    && Reached(ch.vouchers, |ch.vouchers|) <= Max(ch.deposit, 0)
    && 0 <= ch.spent
    && (ch.status == Open ==> ch.spent == Reached(ch.vouchers, |ch.vouchers|))
  }

  ghost predicate CallOk(rows: map<nat, Channel>, c: Call) {
    c.id in rows &&
    var ch := rows[c.id];
    match c
    case VoucherRead(_, cumulative, seen, served) =>
      served <= |ch.vouchers| && seen == Reached(ch.vouchers, served) && seen < cumulative <= ch.deposit
    case TopupRead(_, add, seen, topped) =>
      add > 0 && topped <= |ch.topups| && seen == ch.initial + Sum(ch.topups[..topped])
    case CloseRead(_, _, seen, served) =>
      served <= |ch.vouchers| && 0 <= seen && (ch.status == Open ==> seen == Reached(ch.vouchers, served))
  }

  ghost predicate Inv(s: State) {
    && (forall id :: id in s.rows ==> RowOk(s.rows[id]))
    && (forall k :: k in s.calls ==> CallOk(s.rows, s.calls[k]))
  }

  /** How a row may move while other calls are in flight. */
  ghost predicate Grows(a: Channel, b: Channel) {
    && a.vouchers <= b.vouchers && a.topups <= b.topups && a.initial == b.initial && a.deposit <= b.deposit
    && (b.status == Open ==> a.status == Open)
    && (a.status == Closed ==> b == a)
  }

  lemma {:induction false} SumExtend(s: seq<int>, x: int)
    ensures Sum(s + [x]) == Sum(s) + x
  {
    assert (s + [x])[..|s|] == s;
  }

  /** With positive summands a longer prefix sums to strictly more. */
  lemma {:induction false} SumAdvances(s: seq<int>, n: nat)
    requires n <= |s| && Positive(s)
    ensures Sum(s[..n]) <= Sum(s)
    ensures n < |s| ==> Sum(s[..n]) < Sum(s)
    decreases |s|
  {
    if n < |s| {
      var t := s[..|s| - 1];
      assert t[..n] == s[..n];
      SumAdvances(t, n);
    } else {
      assert s[..n] == s;
    }
  }

  lemma {:induction false} CallSurvives(rows: map<nat, Channel>, rows': map<nat, Channel>, c: Call)
    requires CallOk(rows, c) && c.id in rows' && Grows(rows[c.id], rows'[c.id])
    ensures CallOk(rows', c)
  {
    var a, b := rows[c.id], rows'[c.id];
    if c.TopupRead? {
      assert b.topups[..c.topped] == a.topups[..c.topped];
    }
  }

  /** The conditional UPDATE tests a value; that decides whether the log moved since the read. */
  lemma {:induction false} WinsIffUnmoved(rows: map<nat, Channel>, c: Call)
    requires CallOk(rows, c) && RowOk(rows[c.id])
    ensures c.VoucherRead? ==> (Wins(rows, c) <==> rows[c.id].status == Open && |rows[c.id].vouchers| == c.served)
    ensures c.TopupRead? ==> (Wins(rows, c) <==> rows[c.id].status == Open && |rows[c.id].topups| == c.topped)
  {
    var ch := rows[c.id];
    if c.TopupRead? {
      SumAdvances(ch.topups, c.topped);
      if |ch.topups| == c.topped {
        assert ch.topups[..c.topped] == ch.topups;
      }
    }
  }

  lemma VoucherAdvances(vouchers: seq<int>, c: int)
    requires Advancing(vouchers) && c > Reached(vouchers, |vouchers|)
    ensures Advancing(vouchers + [c])
  {
    if vouchers != [] {
      assert vouchers[|vouchers| - 1] > |vouchers| - 1;
    }
  }

  lemma {:induction false} ServedOk(ch: Channel, c: int)
    requires RowOk(ch) && ch.status == Open && ch.spent < c <= ch.deposit
    ensures var b := ch.(spent := c, vouchers := ch.vouchers + [c]); RowOk(b) && Grows(ch, b)
  {
    VoucherAdvances(ch.vouchers, c);
  }

  lemma {:induction false} ToppedUpOk(ch: Channel, add: int)
    requires RowOk(ch) && ch.status == Open && add > 0
    ensures var b := ch.(deposit := ch.deposit + add, topups := ch.topups + [add]); RowOk(b) && Grows(ch, b)
  {
    SumExtend(ch.topups, add);
  }

  lemma {:induction false} ClosedOk(ch: Channel, spent: int)
    requires RowOk(ch) && ch.status == Open && spent >= 0
    ensures var b := ch.(status := Closed, spent := spent); RowOk(b) && Grows(ch, b)
  {
  }

  lemma {:induction false} VoucherLands(rows: map<nat, Channel>, c: Call)
    requires CallOk(rows, c) && RowOk(rows[c.id]) && Wins(rows, c) && c.VoucherRead?
    ensures RowOk(Written(rows[c.id], c)) && Grows(rows[c.id], Written(rows[c.id], c))
  {
    ServedOk(rows[c.id], c.cumulative);
  }

  lemma {:induction false} TopupLands(rows: map<nat, Channel>, c: Call)
    requires CallOk(rows, c) && RowOk(rows[c.id]) && Wins(rows, c) && c.TopupRead?
    ensures RowOk(Written(rows[c.id], c)) && Grows(rows[c.id], Written(rows[c.id], c))
  {
    ToppedUpOk(rows[c.id], c.add);
  }

  lemma {:induction false} CloseLands(rows: map<nat, Channel>, c: Call)
    requires CallOk(rows, c) && RowOk(rows[c.id]) && Wins(rows, c) && c.CloseRead?
    ensures RowOk(Written(rows[c.id], c)) && Grows(rows[c.id], Written(rows[c.id], c))
  {
    ClosedOk(rows[c.id], if c.final.Some? then Max(c.final.value, c.seen) else rows[c.id].spent);
  }

  lemma {:induction false} WriteOk(rows: map<nat, Channel>, c: Call)
    requires CallOk(rows, c) && RowOk(rows[c.id]) && Wins(rows, c)
    ensures RowOk(Written(rows[c.id], c)) && Grows(rows[c.id], Written(rows[c.id], c))
  {
    if c.VoucherRead? {
      VoucherLands(rows, c);
    } else if c.TopupRead? {
      TopupLands(rows, c);
    } else {
      CloseLands(rows, c);
    }
  }

  /** Writing one row, and perhaps finishing one call. */
  lemma {:induction false} OneRowOk(s: State, s': State, id: nat, ch: Channel)
    requires Inv(s) && RowOk(ch) && s'.rows == s.rows[id := ch] && (id in s.rows ==> Grows(s.rows[id], ch))
    requires forall k :: k in s'.calls ==> k in s.calls && s'.calls[k] == s.calls[k]
    ensures Inv(s') && forall j :: j in s.rows ==> j in s'.rows && Grows(s.rows[j], s'.rows[j])
  {
    forall k | k in s'.calls
      ensures CallOk(s'.rows, s'.calls[k])
    {
      assert CallOk(s.rows, s.calls[k]);
      CallSurvives(s.rows, s'.rows, s.calls[k]);
    }
  }

  lemma {:induction false} LandOk(s: State, k: nat)
    requires Inv(s) && k in s.calls
    ensures Inv(State(Write(s.rows, s.calls[k]), s.calls - {k}))
    ensures forall j :: j in s.rows ==> j in Write(s.rows, s.calls[k]) && Grows(s.rows[j], Write(s.rows, s.calls[k])[j])
  {
    var c := s.calls[k];
    if Wins(s.rows, c) {
      WriteOk(s.rows, c);
      OneRowOk(s, State(Write(s.rows, c), s.calls - {k}), c.id, Written(s.rows[c.id], c));
    }
  }

  lemma {:induction false} ReadOk(s: State, k: nat, c: Call)
    requires Inv(s) && CallOk(s.rows, c)
    ensures Inv(s.(calls := s.calls[k := c]))
  {
  }

  lemma {:induction false} StepOk(s: State, e: Event)
    requires Inv(s) && Enabled(s, e)
    ensures Inv(Apply(s, e))
    ensures forall id :: id in s.rows ==> id in Apply(s, e).rows && Grows(s.rows[id], Apply(s, e).rows[id])
  {
    var s' := Apply(s, e);
    match e
    case WriteVoucher(k) => LandOk(s, k);
    case WriteTopup(k) => LandOk(s, k);
    case WriteClose(k) => LandOk(s, k);
    case OpenChannel(id, deposit) => if id !in s.rows { OneRowOk(s, s', id, Fresh(deposit)); }
    case ReadVoucher(k, id, _, _) => if s' != s { assert RowOk(s.rows[id]); ReadOk(s, k, s'.calls[k]); }
    case ReadClose(k, id, _) => if s' != s { assert RowOk(s.rows[id]); ReadOk(s, k, s'.calls[k]); }
    case ReadTopup(k, id, _) =>
      if s' != s {
        assert RowOk(s.rows[id]) && s.rows[id].topups[..|s.rows[id].topups|] == s.rows[id].topups;
        ReadOk(s, k, s'.calls[k]);
      }
  }

  lemma {:induction false} RunOk(s: State, es: seq<Event>)
    requires Inv(s) && Runs(s, es)
    ensures Inv(After(s, es))
    ensures forall id :: id in s.rows ==> id in After(s, es).rows && Grows(s.rows[id], After(s, es).rows[id])
    decreases |es|
  {
    if es != [] {
      StepOk(s, es[0]);
      RunOk(Apply(s, es[0]), es[1..]);
    }
  }

  // ------------------------------------------------------------ what it promises

  /** In every reachable state an open channel has spent at most its deposit, although the
      voucher's UPDATE never looks at the deposit; every accepted voucher moved the total by at
      least one unit, so there are at most spent of them; and no top-up is ever lost. */
  lemma OpenNeverOverspends(es: seq<Event>, id: nat)
    requires Runs(EMPTY, es) && id in After(EMPTY, es).rows
    ensures var ch := After(EMPTY, es).rows[id];
            && ch.status in {Open, Closed}
            && ch.deposit == ch.initial + Sum(ch.topups)
            && (ch.status == Open ==> 0 <= ch.spent <= Max(ch.deposit, 0) && |ch.vouchers| <= ch.spent)
            && (ch.status == Open && ch.initial >= 0 ==> ch.spent <= ch.deposit)
  {
    RunOk(EMPTY, es);
    var ch := After(EMPTY, es).rows[id];
    SumAdvances(ch.topups, 0);
    assert ch.topups[..0] == [];
    if ch.vouchers != [] {
      assert ch.vouchers[|ch.vouchers| - 1] > |ch.vouchers| - 1;
    }
  }

  /** A voucher or a top-up lands exactly when the channel is open and nothing of its kind landed
      since it read the row: comparing the amounts is as good as comparing versions. */
  lemma ValueKeyIsAVersion(es: seq<Event>, k: nat)
    requires Runs(EMPTY, es) && k in After(EMPTY, es).calls
    ensures var s := After(EMPTY, es);
            var c := s.calls[k];
            c.id in s.rows &&
            (match c
             case VoucherRead(id, _, _, served) => Wins(s.rows, c) <==> s.rows[id].status == Open && |s.rows[id].vouchers| == served
             case TopupRead(id, _, _, topped) => Wins(s.rows, c) <==> s.rows[id].status == Open && |s.rows[id].topups| == topped
             case CloseRead(id, _, _, _) => Wins(s.rows, c) <==> s.rows[id].status == Open)
  {
    RunOk(EMPTY, es);
    var s := After(EMPTY, es);
    WinsIffUnmoved(s.rows, s.calls[k]);
  }

  /** Of two vouchers that read the same total, at most one is served, whatever comes between. */
  lemma OneVoucherPerTotal(s: State, a: nat, b: nat, es: seq<Event>)
    requires Inv(s) && a in s.calls && b in s.calls && a != b
    requires s.calls[a].VoucherRead? && s.calls[b].VoucherRead? && s.calls[a].id == s.calls[b].id && s.calls[a].seen == s.calls[b].seen
    requires Wins(s.rows, s.calls[a]) && Runs(Apply(s, WriteVoucher(a)), es)
    requires b in After(Apply(s, WriteVoucher(a)), es).calls && After(Apply(s, WriteVoucher(a)), es).calls[b] == s.calls[b]
    ensures !Wins(After(Apply(s, WriteVoucher(a)), es).rows, s.calls[b])
  {
    var mid := Apply(s, WriteVoucher(a));
    var id := s.calls[a].id;
    WinsIffUnmoved(s.rows, s.calls[a]);
    StepOk(s, WriteVoucher(a));
    RunOk(mid, es);
    var end := After(mid, es);
    assert |mid.rows[id].vouchers| <= |end.rows[id].vouchers|;
    assert s.calls[b].served <= |s.rows[id].vouchers|;
    WinsIffUnmoved(end.rows, s.calls[b]);
  }

  /** Deposits never fall, closed channels never move, and the recorded spend falls in exactly one
      way: a close wins whose final amount is below the spend, after a voucher was served between
      the close's read of the row and its write. */
  lemma {:induction false} SpentFallsIff(s: State, e: Event, id: nat)
    requires Inv(s) && Enabled(s, e) && id in s.rows
    ensures id in Apply(s, e).rows
    ensures Apply(s, e).rows[id].deposit >= s.rows[id].deposit
    ensures s.rows[id].status == Closed ==> Apply(s, e).rows[id] == s.rows[id]
    ensures Apply(s, e).rows[id].spent < s.rows[id].spent <==> Undercut(s, e, id) && VoucherSinceRead(s, e, id)
  {
    RowsOnlyGrow(s, e, id);
    if e.WriteClose? {
      assert CallOk(s.rows, s.calls[e.caller]);
      CloseLowersIff(s.rows, s.calls[e.caller], id);
    } else {
      OthersRaise(s, e, id);
    }
  }

  lemma RowsOnlyGrow(s: State, e: Event, id: nat)
    requires Inv(s) && Enabled(s, e) && id in s.rows
    ensures id in Apply(s, e).rows && Grows(s.rows[id], Apply(s, e).rows[id])
    ensures RowOk(s.rows[id])
  {
    StepOk(s, e);
  }

  lemma {:induction false} OthersRaise(s: State, e: Event, id: nat)
    requires Inv(s) && Enabled(s, e) && !e.WriteClose? && id in s.rows && id in Apply(s, e).rows
    ensures Apply(s, e).rows[id].spent >= s.rows[id].spent
  {
    if e.WriteVoucher? {
      VoucherRaises(s.rows, s.calls[e.caller], id);
    }
  }

  lemma {:induction false} VoucherRaises(rows: map<nat, Channel>, c: Call, id: nat)
    requires c.VoucherRead? && CallOk(rows, c) && id in rows
    ensures Write(rows, c)[id].spent >= rows[id].spent
  {
  }

  /** One close on one row. */
  lemma {:induction false} CloseLowersIff(rows: map<nat, Channel>, c: Call, id: nat)
    requires c.CloseRead? && CallOk(rows, c) && id in rows && RowOk(rows[id])
    ensures Write(rows, c)[id].spent < rows[id].spent <==>
            c.id == id && rows[id].status == Open && c.final.Some? && c.final.value < rows[id].spent && |rows[id].vouchers| > c.served
  {
    if c.id == id && rows[id].status == Open {
      SeenIsLower(rows[id], c.served);
    }
  }

  /** The event is a close of this open channel that names a final amount below its spend. */
  predicate Undercut(s: State, e: Event, id: nat) {
    && e.WriteClose? && e.caller in s.calls && s.calls[e.caller].CloseRead? && s.calls[e.caller].id == id
    && id in s.rows && s.rows[id].status == Open
    && s.calls[e.caller].final.Some? && s.calls[e.caller].final.value < s.rows[id].spent
  }

  /** A voucher was served after the close read the row. */
  predicate VoucherSinceRead(s: State, e: Event, id: nat)
    requires Undercut(s, e, id)
  {
    |s.rows[id].vouchers| > s.calls[e.caller].served
  }

  lemma SeenIsLower(ch: Channel, served: nat)
    requires RowOk(ch) && ch.status == Open && served <= |ch.vouchers|
    ensures Reached(ch.vouchers, served) < ch.spent <==> served < |ch.vouchers|
  {
    if served < |ch.vouchers| {
      assert ch.vouchers[|ch.vouchers| - 1] > |ch.vouchers| - 1;
    }
  }

  /** So a close whose read and write are not separated by a voucher never lowers the spend. */
  lemma PromptCloseKeepsSpend(s: State, k: nat)
    requires Inv(s) && Enabled(s, WriteClose(k))
    requires var c := s.calls[k]; c.id in s.rows && |s.rows[c.id].vouchers| == c.served
    ensures var c := s.calls[k]; Apply(s, WriteClose(k)).rows[c.id].spent >= s.rows[c.id].spent
  {
    SpentFallsIff(s, WriteClose(k), s.calls[k].id);
  }

  /** The other case is reachable: a voucher is served between a close's read and its write, and
      the close then records less than was consumed. */
  lemma CloseCanUndercollect() returns (es: seq<Event>)
    ensures Runs(EMPTY, es)
    ensures var s := After(EMPTY, es); 0 in s.rows && s.rows[0].status == Closed && s.rows[0].vouchers == [7] && s.rows[0].spent == 0
  {
    var e0, e1, e2, e3, e4 := OpenChannel(0, 10), ReadClose(0, 0, Some(0)), ReadVoucher(1, 0, 7, true), WriteVoucher(1), WriteClose(0);
    es := [e0, e1, e2, e3, e4];
    var s1 := Apply(EMPTY, e0);
    var s2 := Apply(s1, e1);
    var s3 := Apply(s2, e2);
    var s4 := Apply(s3, e3);
    var s5 := Apply(s4, e4);
    assert es[1..] == [e1, e2, e3, e4] && es[1..][1..] == [e2, e3, e4];
    assert [e2, e3, e4][1..] == [e3, e4] && [e3, e4][1..] == [e4] && [e4][1..] == [];
    assert Runs(s5, []) && After(s5, []) == s5;
    assert Runs(s4, [e4]) && After(s4, [e4]) == s5;
    assert Runs(s3, [e3, e4]) && After(s3, [e3, e4]) == s5;
    assert Runs(s2, [e2, e3, e4]) && After(s2, [e2, e3, e4]) == s5;
    assert Runs(s1, [e1, e2, e3, e4]) && After(s1, [e1, e2, e3, e4]) == s5;
  }

  // ------------------------------------------------------------ the program

  class Channels {
    var rows: map<nat, Channel>

    constructor ()
      ensures rows == map[]
    {
      rows := map[];
    }

    ghost predicate Valid()
      reads this
    {
      Inv(State(rows, map[]))
    }

    /** The row changes only if it is new: a replay answers with the row that is there. */
    method OpenOnce(id: nat, deposit: int) returns (row: Channel)
      requires Valid()
      modifies this
      ensures Valid() && id in rows && row == rows[id]
      ensures rows == Apply(State(old(rows), map[]), OpenChannel(id, deposit)).rows
    {
      ghost var s := State(rows, map[]);
      if id !in rows {
        rows := rows[id := Fresh(deposit)];
      }
      StepOk(s, OpenChannel(id, deposit));
      row := rows[id];
    }

    /** A call that nothing interrupts is its read followed by its write, and always lands. */
    method ApplyVoucher(id: nat, cumulative: int, signed: bool) returns (error: Option<Error>)
      requires Valid()
      modifies this
      ensures Valid() && error == VoucherError(old(rows), id, cumulative, signed)
      ensures error.None? <==> id in old(rows) && old(rows)[id].status == Open
                               && old(rows)[id].spent < cumulative <= old(rows)[id].deposit && signed
      ensures error.Some? ==> rows == old(rows)
      ensures error.None? ==>
                rows == old(rows)[id := old(rows)[id].(spent := cumulative, vouchers := old(rows)[id].vouchers + [cumulative])]
    {
      if id !in rows {
        return Some(NotFound);
      }
      var ch := rows[id];
      if ch.status != Open {
        return Some(NotOpen);
      }
      if cumulative <= ch.spent {
        return Some(Regression);
      }
      if cumulative > ch.deposit {
        return Some(Overspend);
      }
      if !signed {
        return Some(BadSignature);
      }
      ServedOk(ch, cumulative);
      rows := rows[id := ch.(spent := cumulative, vouchers := ch.vouchers + [cumulative])];
      return None;
    }

    method TopUp(id: nat, add: int) returns (error: Option<Error>)
      requires Valid()
      modifies this
      ensures Valid() && error == TopupError(old(rows), id, add)
      ensures error.None? <==> add > 0 && id in old(rows) && old(rows)[id].status == Open
      ensures error.Some? ==> rows == old(rows)
      ensures error.None? ==>
                rows == old(rows)[id := old(rows)[id].(deposit := old(rows)[id].deposit + add, topups := old(rows)[id].topups + [add])]
    {
      if add <= 0 {
        return Some(NotPositive);
      }
      if id !in rows {
        return Some(NotFound);
      }
      var ch := rows[id];
      if ch.status != Open {
        return Some(NotOpen);
      }
      ToppedUpOk(ch, add);
      rows := rows[id := ch.(deposit := ch.deposit + add, topups := ch.topups + [add])];
      return None;
    }

    /** Closing raises the spend to the supplied final amount, never lowers it, and happens once. */
    method Close(id: nat, final: Option<int>) returns (error: Option<Error>)
      requires Valid()
      modifies this
      ensures Valid() && (error == if id in old(rows) then None else Some(NotFound))
      ensures id in old(rows) && old(rows)[id].status != Open ==> rows == old(rows)
      ensures id in old(rows) && old(rows)[id].status == Open ==>
                var ch := old(rows)[id];
                rows == old(rows)[id := ch.(status := Closed, spent := if final.Some? then Max(final.value, ch.spent) else ch.spent)]
      ensures id !in old(rows) ==> rows == old(rows)
      ensures forall j :: j in old(rows) ==> j in rows && rows[j].spent >= old(rows)[j].spent
    {
      if id !in rows {
        return Some(NotFound);
      }
      var ch := rows[id];
      if ch.status in {Open, Closing} {
        ClosedOk(ch, if final.Some? then Max(final.value, ch.spent) else ch.spent);
        rows := rows[id := ch.(status := Closed, spent := if final.Some? then Max(final.value, ch.spent) else ch.spent)];
      }
      return None;
    }
  }
}
