/** Device slots of one licence. Activating reads, bumps the counter, places the device and may
    undo the bump; calls interleave between those steps. Deactivating is one step. */
module LicenseSlots {
  import opened Prelude

  datatype Answer = Activated | AlreadyActive | AtLimit

  /** devices maps every device that ever had a row to whether that row is active. */
  datatype Entitlement = Entitlement(used: int, downloads: nat, revoked: bool, devices: map<nat, bool>)

  datatype Pc =
    | Looked(device: nat, existing: bool)
    | Bumped(device: nat, existing: bool)
    | Undoing(device: nat)

  /** answers is what each finished call returned, latest first of its caller. */
  datatype State = State(ent: Entitlement, calls: map<nat, Pc>, answers: map<nat, Answer>)

  datatype Event =
    | Look(caller: nat, device: nat)
    | Bump(caller: nat, cap: int)
    | Place(caller: nat)
    | Undo(caller: nat)
    | RollBack(caller: nat)
    | Deactivate(device: nat)
    | Download(cap: int)
    | Revoke

  const ISSUED := Entitlement(0, 0, false, map[])
  const EMPTY := State(ISSUED, map[], map[])

  predicate IsActive(ent: Entitlement, d: nat) {
    d in ent.devices && ent.devices[d]
  }

  function Down(ent: Entitlement): Entitlement {
    if ent.used > 0 then ent.(used := ent.used - 1) else ent
  }

  predicate CanBump(ent: Entitlement, cap: int) {
    ent.used < cap && !ent.revoked
  }

  /** Whether the placing write succeeds: reactivation needs an inactive row, insertion no row. */
  predicate CanPlace(ent: Entitlement, d: nat, existing: bool) {
    if existing then d in ent.devices && !ent.devices[d] else d !in ent.devices
  }

  function Freed(ent: Entitlement, d: nat): Entitlement {
    if IsActive(ent, d) then Down(ent.(devices := ent.devices[d := false])) else ent
  }

  function Downloaded(ent: Entitlement, cap: int): Entitlement {
    if ent.downloads < cap && !ent.revoked then ent.(downloads := ent.downloads + 1) else ent
  }

  predicate Enabled(s: State, e: Event) {
    match e
    case Look(k, _) => k !in s.calls
    case Bump(k, _) => k in s.calls && s.calls[k].Looked?
    case Place(k) => k in s.calls && s.calls[k].Bumped?
    case Undo(k) => k in s.calls && s.calls[k].Undoing?
    case RollBack(k) => k in s.calls
    case _ => true
  }

  function Finish(s: State, k: nat, ent: Entitlement, answer: Answer): State {
    State(ent, s.calls - {k}, s.answers[k := answer])
  }

  function Apply(s: State, e: Event): State
    requires Enabled(s, e)
  {
    match e
    case Look(k, d) =>
      if IsActive(s.ent, d) then Finish(s, k, s.ent, AlreadyActive)
      else s.(calls := s.calls[k := Looked(d, d in s.ent.devices)])
    case Bump(k, cap) =>
      var c := s.calls[k];
      if CanBump(s.ent, cap)
      then s.(ent := s.ent.(used := s.ent.used + 1), calls := s.calls[k := Bumped(c.device, c.existing)])
      else Finish(s, k, s.ent, AtLimit)
    case Place(k) =>
      var c := s.calls[k];
      if CanPlace(s.ent, c.device, c.existing)
      then Finish(s, k, s.ent.(devices := s.ent.devices[c.device := true]), Activated)
      else s.(calls := s.calls[k := Undoing(c.device)])
    case Undo(k) => Finish(s, k, Down(s.ent), AlreadyActive)
    case RollBack(k) => s.(ent := if s.calls[k].Looked? then s.ent else Down(s.ent), calls := s.calls - {k})
    case Deactivate(d) => s.(ent := Freed(s.ent, d))
    case Download(cap) => s.(ent := Downloaded(s.ent, cap))
    case Revoke => s.(ent := s.ent.(revoked := true))
  }

  predicate Runs(s: State, es: seq<Event>)
    decreases |es|
  {
    es == [] || (Enabled(s, es[0]) && Runs(Apply(s, es[0]), es[1..]))
  }

  function After(s: State, es: seq<Event>): State
    requires Runs(s, es)
    decreases |es|
  {
    if es == [] then s else After(Apply(s, es[0]), es[1..])
  }

  // ------------------------------------------------------------ the invariant

  function Active(ent: Entitlement): set<nat> {
    set d | d in ent.devices && ent.devices[d]
  }

  /** Calls holding a slot they have not turned into an active device yet. */
  function InFlight(calls: map<nat, Pc>): set<nat> {
    set k | k in calls && !calls[k].Looked?
  }

  ghost predicate Balanced(s: State) {
    s.ent.used == |Active(s.ent)| + |InFlight(s.calls)|
  }

  predicate CapsAtMost(es: seq<Event>, m: int) {
    forall i :: 0 <= i < |es| && es[i].Bump? ==> es[i].cap <= m
  }

  lemma AddOne(a: set<nat>, b: set<nat>, x: nat)
    requires x !in a && b == a + {x}
    ensures |b| == |a| + 1
  {
  }

  lemma LookOk(s: State, k: nat, d: nat)
    requires Balanced(s) && Enabled(s, Look(k, d))
    ensures Balanced(Apply(s, Look(k, d)))
  {
    assert InFlight(Apply(s, Look(k, d)).calls) == InFlight(s.calls);
  }

  lemma BumpOk(s: State, k: nat, cap: int)
    requires Balanced(s) && Enabled(s, Bump(k, cap))
    ensures Balanced(Apply(s, Bump(k, cap)))
  {
    var s' := Apply(s, Bump(k, cap));
    if CanBump(s.ent, cap) {
      AddOne(InFlight(s.calls), InFlight(s'.calls), k);
    } else {
      assert InFlight(s'.calls) == InFlight(s.calls);
    }
  }

  lemma PlaceOk(s: State, k: nat)
    requires Balanced(s) && Enabled(s, Place(k))
    ensures Balanced(Apply(s, Place(k)))
  {
    var s' := Apply(s, Place(k));
    var c := s.calls[k];
    if CanPlace(s.ent, c.device, c.existing) {
      AddOne(InFlight(s'.calls), InFlight(s.calls), k);
      AddOne(Active(s.ent), Active(s'.ent), c.device);
    } else {
      assert InFlight(s'.calls) == InFlight(s.calls);
    }
  }

  /** Giving a slot back: the guard on the counter never bites. */
  lemma ReleaseOk(s: State, k: nat)
    requires Balanced(s) && k in s.calls && !s.calls[k].Looked?
    ensures s.ent.used > 0
    ensures Down(s.ent).used == |Active(s.ent)| + |InFlight(s.calls - {k})|
  {
    AddOne(InFlight(s.calls - {k}), InFlight(s.calls), k);
  }

  lemma FreeOk(ent: Entitlement, d: nat)
    requires IsActive(ent, d) && ent.used >= |Active(ent)|
    ensures ent.used > 0 && Freed(ent, d).used == ent.used - 1 && |Active(Freed(ent, d))| == |Active(ent)| - 1
  {
    AddOne(Active(Freed(ent, d)), Active(ent), d);
  }

  lemma StepOk(s: State, e: Event)
    requires Balanced(s) && Enabled(s, e)
    ensures Balanced(Apply(s, e))
    ensures Apply(s, e).ent.used <= s.ent.used || (e.Bump? && Apply(s, e).ent.used <= e.cap)
  {
    match e
    case Look(k, d) => LookOk(s, k, d);
    case Bump(k, cap) => BumpOk(s, k, cap);
    case Place(k) => PlaceOk(s, k);
    case Undo(k) => ReleaseOk(s, k);
    case RollBack(k) =>
      if s.calls[k].Looked? {
        assert InFlight(s.calls - {k}) == InFlight(s.calls);
      } else {
        ReleaseOk(s, k);
      }
    case Deactivate(d) => if IsActive(s.ent, d) { FreeOk(s.ent, d); }
    case _ =>
  }

  lemma {:induction false} RunOk(s: State, es: seq<Event>, m: int)
    requires Balanced(s) && s.ent.used <= m && Runs(s, es) && CapsAtMost(es, m)
    ensures Balanced(After(s, es)) && After(s, es).ent.used <= m
    decreases |es|
  {
    if es != [] {
      StepOk(s, es[0]);
      assert CapsAtMost(es[1..], m);
      RunOk(Apply(s, es[0]), es[1..], m);
    }
  }

  // ------------------------------------------------------------ what it promises

  /** Whatever interleaves, the counter is the active devices plus the bumps in flight; it never
      passes the highest cap used, so neither do the active devices; and when no call is in
      flight it counts the active devices exactly. */
  lemma SlotsBalance(es: seq<Event>, m: nat)
    requires Runs(EMPTY, es) && CapsAtMost(es, m)
    ensures var s := After(EMPTY, es);
            && s.ent.used == |Active(s.ent)| + |InFlight(s.calls)|
            && |Active(s.ent)| <= s.ent.used <= m
            && (s.calls == map[] ==> s.ent.used == |Active(s.ent)|)
  {
    assert Active(EMPTY.ent) == {} && InFlight(EMPTY.calls) == {};
    RunOk(EMPTY, es, m);
  }

  /** No decrement is ever swallowed by its guard, so no slot leaks or is freed twice. */
  lemma GuardsNeverBite(es: seq<Event>, e: Event)
    requires Runs(EMPTY, es) && Enabled(After(EMPTY, es), e)
    ensures var s := After(EMPTY, es);
            && (e.Undo? ==> Apply(s, e).ent.used == s.ent.used - 1)
            && (e.Deactivate? && IsActive(s.ent, e.device) ==> Apply(s, e).ent.used == s.ent.used - 1)
  {
    var m := HighestCap(es);
    SlotsBalance(es, m);
    var s := After(EMPTY, es);
    match e
    case Undo(k) => ReleaseOk(s, k);
    case Deactivate(d) => if IsActive(s.ent, d) { FreeOk(s.ent, d); }
    case _ =>
  }

  function HighestCap(es: seq<Event>): (m: nat)
    ensures CapsAtMost(es, m)
    decreases |es|
  {
    if es == [] then 0
    else
      var rest := HighestCap(es[1..]);
      assert forall i :: 0 < i < |es| ==> es[i] == es[1..][i - 1];
      if es[0].Bump? && es[0].cap > rest then es[0].cap else rest
  }

  /** "activated" is only ever answered as the device becomes active; a call refused for want of
      a slot changed nothing. */
  lemma AnswersOfBumpAndPlace(s: State, e: Event)
    requires Balanced(s) && Enabled(s, e) && (e.Bump? || e.Place?)
    requires e.caller !in Apply(s, e).calls
    ensures match Apply(s, e).answers[e.caller]
            case Activated => e.Place? && !IsActive(s.ent, s.calls[e.caller].device) && IsActive(Apply(s, e).ent, s.calls[e.caller].device)
            case AtLimit => e.Bump? && Apply(s, e).ent == s.ent && (s.ent.revoked || |Active(s.ent)| + |InFlight(s.calls)| >= e.cap)
            case AlreadyActive => false
  {
  }

  /** What the caller knows of its device's row: a row it saw, or ran into, stays. */
  ghost predicate Remembers(s: State) {
    forall k :: k in s.calls ==> (s.calls[k].Undoing? || s.calls[k].existing ==> s.calls[k].device in s.ent.devices)
  }

  lemma {:induction false} RunRemembers(s: State, es: seq<Event>)
    requires Remembers(s) && Runs(s, es)
    ensures Remembers(After(s, es))
    decreases |es|
  {
    if es != [] {
      RunRemembers(Apply(s, es[0]), es[1..]);
    }
  }

  /** At the placing step itself: the device is inactive although placing it fails exactly when
      the call had seen no row, and the row that appeared since was deactivated. */
  lemma PlacingFailsInactiveIff(es: seq<Event>, k: nat)
    requires Runs(EMPTY, es) && Enabled(After(EMPTY, es), Place(k))
    ensures var s := After(EMPTY, es);
            var c := s.calls[k];
            (Apply(s, Place(k)).calls.Keys == s.calls.Keys && !IsActive(s.ent, c.device)) <==>
            (!c.existing && c.device in s.ent.devices && !s.ent.devices[c.device])
  {
    RunRemembers(EMPTY, es);
  }

  // ------------------------------------------------------------ when "already active" is false

  /** A run cut off after n events is a run, and its next event was enabled there. */
  lemma {:induction false} CutOff(s: State, es: seq<Event>, n: nat)
    requires Runs(s, es) && n <= |es|
    ensures Runs(s, es[..n])
    ensures n < |es| ==> Enabled(After(s, es[..n]), es[n])
    ensures n < |es| ==> Runs(s, es[..n + 1]) && After(s, es[..n + 1]) == Apply(After(s, es[..n]), es[n])
    decreases |es|
  {
    if n == 0 {
      if es != [] {
        assert es[..1][1..] == [];
      }
    } else {
      CutOff(Apply(s, es[0]), es[1..], n - 1);
      assert es[..n][1..] == es[1..][..n - 1];
      if n < |es| {
        assert es[..n + 1][1..] == es[1..][..n];
      }
    }
  }

  /** The state in which event j of a run happened. */
  ghost function At(es: seq<Event>, j: nat): State
    requires Runs(EMPTY, es) && j <= |es|
  {
    CutOff(EMPTY, es, j);
    After(EMPTY, es[..j])
  }

  /** Event j freed an active slot of the device. */
  ghost predicate Frees(es: seq<Event>, j: nat, d: nat)
    requires Runs(EMPTY, es)
  {
    j < |es| && es[j] == Deactivate(d) && IsActive(At(es, j).ent, d)
  }

  /** Event j made the device active. */
  ghost predicate Places(es: seq<Event>, j: nat, d: nat)
    requires Runs(EMPTY, es)
  {
    && j < |es| && es[j].Place?
    && var s := At(es, j);
    && es[j].caller in s.calls && s.calls[es[j].caller].Bumped? && s.calls[es[j].caller].device == d
    && CanPlace(s.ent, d, s.calls[es[j].caller].existing)
  }

  /** A deactivation of the device took effect after the last step that made it active. */
  ghost predicate DroppedSince(es: seq<Event>, d: nat)
    requires Runs(EMPTY, es)
  {
    exists j: nat :: DroppedAt(es, j, d)
  }

  ghost predicate DroppedAt(es: seq<Event>, j: nat, d: nat)
    requires Runs(EMPTY, es)
  {
    Frees(es, j, d) && forall i: nat :: j < i ==> !Places(es, i, d)
  }

  /** The events of a run are the same in any run that begins with it. */
  lemma {:induction false} SameEvent(es: seq<Event>, n: nat, j: nat, d: nat)
    requires Runs(EMPTY, es) && n <= |es| && Runs(EMPTY, es[..n]) && j < n
    ensures Frees(es, j, d) <==> Frees(es[..n], j, d)
    ensures Places(es, j, d) <==> Places(es[..n], j, d)
  {
    assert es[..j] == es[..n][..j];
  }

  lemma {:induction false} DropStays(es: seq<Event>, n: nat, j: nat, d: nat)
    requires Runs(EMPTY, es) && n + 1 == |es| && Runs(EMPTY, es[..n])
    requires DroppedAt(es[..n], j, d) && !Places(es, n, d)
    ensures DroppedAt(es, j, d)
  {
    SameEvent(es, n, j, d);
    forall i: nat | j < i
      ensures !Places(es, i, d)
    {
      if i < n {
        SameEvent(es, n, i, d);
      }
    }
  }

  lemma {:induction false} DropWas(es: seq<Event>, n: nat, j: nat, d: nat)
    requires Runs(EMPTY, es) && n + 1 == |es| && Runs(EMPTY, es[..n])
    requires DroppedAt(es, j, d) && j < n
    ensures DroppedAt(es[..n], j, d) && !Places(es, n, d)
  {
    SameEvent(es, n, j, d);
    forall i: nat | j < i
      ensures !Places(es[..n], i, d)
    {
      if i < n {
        SameEvent(es, n, i, d);
      }
    }
  }

  /** What one more event does to the record of a device. */
  lemma {:induction false} OneMore(es: seq<Event>, n: nat, d: nat)
    requires Runs(EMPTY, es) && n + 1 == |es| && Runs(EMPTY, es[..n])
    ensures DroppedSince(es, d) <==> Frees(es, n, d) || (DroppedSince(es[..n], d) && !Places(es, n, d))
  {
    if j: nat :| DroppedAt(es, j, d) {
      if j < n {
        DropWas(es, n, j, d);
      }
    }
    if Frees(es, n, d) {
      assert DroppedAt(es, n, d);
    } else if !Places(es, n, d) {
      if j: nat :| DroppedAt(es[..n], j, d) {
        DropStays(es, n, j, d);
      }
    }
  }

  /** A device with an inactive row is one whose last change was a deactivation. */
  lemma {:induction false} InactiveIffDropped(es: seq<Event>, d: nat)
    requires Runs(EMPTY, es)
    ensures var ent := After(EMPTY, es).ent;
            (d in ent.devices && !ent.devices[d]) <==> DroppedSince(es, d)
    decreases |es|
  {
    if es != [] {
      var n := |es| - 1;
      CutOff(EMPTY, es, n);
      assert es[..n + 1] == es;
      InactiveIffDropped(es[..n], d);
      OneMore(es, n, d);
    }
  }

  /** The event ends a call with this answer. */
  predicate Answers(s: State, e: Event, answer: Answer)
    requires Enabled(s, e)
  {
    && (e.Look? || e.Bump? || e.Place? || e.Undo?)
    && e.caller !in Apply(s, e).calls && Apply(s, e).answers[e.caller] == answer
  }

  /** The device the call of this event is about. */
  function DeviceOf(s: State, e: Event): nat
    requires Enabled(s, e) && (e.Look? || e.Bump? || e.Place? || e.Undo?)
  {
    if e.Look? then e.device else s.calls[e.caller].device
  }

  /** "already active" is false exactly for a call that undoes its bump after the device was
      deactivated, and not activated again, by anyone; every other such answer is true. */
  lemma FalseAnswerIff(es: seq<Event>, e: Event)
    requires Runs(EMPTY, es) && Enabled(After(EMPTY, es), e) && Answers(After(EMPTY, es), e, AlreadyActive)
    ensures var s := After(EMPTY, es);
            !IsActive(Apply(s, e).ent, DeviceOf(s, e)) <==> e.Undo? && DroppedSince(es, DeviceOf(s, e))
  {
    RunRemembers(EMPTY, es);
    InactiveIffDropped(es, DeviceOf(After(EMPTY, es), e));
  }

  /** A run, one step in. */
  lemma {:induction false} Prepend(s: State, e: Event, rest: seq<Event>, end: State)
    requires Enabled(s, e) && Runs(Apply(s, e), rest) && After(Apply(s, e), rest) == end
    ensures Runs(s, [e] + rest) && After(s, [e] + rest) == end
  {
    assert ([e] + rest)[1..] == rest;
  }

  const STALE := State(Entitlement(1, 0, false, map[5 := true]), map[0 := Looked(5, false)], map[1 := Activated])

  /** One caller looks and stalls; another activates the same device. */
  lemma {:induction false} StaleLook(rest: seq<Event>, end: State) returns (es: seq<Event>)
    requires Runs(STALE, rest) && After(STALE, rest) == end
    ensures Runs(EMPTY, es) && After(EMPTY, es) == end && |es| == |rest| + 4 && es[4..] == rest
  {
    var s1 := Apply(EMPTY, Look(0, 5));
    var s2 := Apply(s1, Look(1, 5));
    var s3 := Apply(s2, Bump(1, 3));
    assert Apply(s3, Place(1)) == STALE;
    Prepend(s3, Place(1), rest, end);
    Prepend(s2, Bump(1, 3), [Place(1)] + rest, end);
    Prepend(s1, Look(1, 5), [Bump(1, 3)] + ([Place(1)] + rest), end);
    es := [Look(0, 5)] + ([Look(1, 5)] + ([Bump(1, 3)] + ([Place(1)] + rest)));
    Prepend(EMPTY, Look(0, 5), [Look(1, 5)] + ([Bump(1, 3)] + ([Place(1)] + rest)), end);
  }

  /** The device is deactivated, and the stalled caller finds its row in the way. */
  lemma {:induction false} InTheWay() returns (es: seq<Event>, end: State)
    ensures Runs(STALE, es) && After(STALE, es) == end
    ensures 0 in end.answers && end.answers[0] == AlreadyActive && Active(end.ent) == {} && end.ent.used == 0
    ensures es == [Deactivate(5), Bump(0, 3), Place(0), Undo(0)]
  {
    var s1 := Apply(STALE, Deactivate(5));
    var s2 := Apply(s1, Bump(0, 3));
    var s3 := Apply(s2, Place(0));
    end := Apply(s3, Undo(0));
    assert Runs(end, []) && After(end, []) == end;
    Prepend(s3, Undo(0), [], end);
    Prepend(s2, Place(0), [Undo(0)] + [], end);
    Prepend(s1, Bump(0, 3), [Place(0)] + ([Undo(0)] + []), end);
    es := [Deactivate(5)] + ([Bump(0, 3)] + ([Place(0)] + ([Undo(0)] + [])));
    Prepend(STALE, Deactivate(5), [Bump(0, 3)] + ([Place(0)] + ([Undo(0)] + [])), end);
  }

  /** The stalled caller finds the device active, and it is deactivated before the undo. */
  lemma {:induction false} GoneBeforeUndo() returns (es: seq<Event>, end: State)
    ensures Runs(STALE, es) && After(STALE, es) == end
    ensures 0 in end.answers && end.answers[0] == AlreadyActive && Active(end.ent) == {} && end.ent.used == 0
    ensures es == [Bump(0, 3), Place(0), Deactivate(5), Undo(0)]
  {
    var s1 := Apply(STALE, Bump(0, 3));
    var s2 := Apply(s1, Place(0));
    var s3 := Apply(s2, Deactivate(5));
    end := Apply(s3, Undo(0));
    assert Runs(end, []) && After(end, []) == end;
    Prepend(s3, Undo(0), [], end);
    Prepend(s2, Deactivate(5), [Undo(0)] + [], end);
    Prepend(s1, Place(0), [Deactivate(5)] + ([Undo(0)] + []), end);
    es := [Bump(0, 3)] + ([Place(0)] + ([Deactivate(5)] + ([Undo(0)] + [])));
    Prepend(STALE, Bump(0, 3), [Place(0)] + ([Deactivate(5)] + ([Undo(0)] + [])), end);
  }

  /** Both orders are reachable: deactivated before the placing fails, and after it. */
  lemma {:induction false} AlreadyActiveCanBeFalse() returns (early: seq<Event>, late: seq<Event>)
    ensures Runs(EMPTY, early) && Runs(EMPTY, late)
    ensures var s := After(EMPTY, early); 0 in s.answers && s.answers[0] == AlreadyActive && Active(s.ent) == {} && s.ent.used == 0
    ensures var s := After(EMPTY, late); 0 in s.answers && s.answers[0] == AlreadyActive && Active(s.ent) == {} && s.ent.used == 0
    ensures |early| == |late| == 8 && early[4] == late[6] == Deactivate(5) && early[6] == late[5] == Place(0)
  {
    var rest, end := InTheWay();
    early := StaleLook(rest, end);
    var rest', end' := GoneBeforeUndo();
    late := StaleLook(rest', end');
  }

  /** From a revocation on, whatever happens, the licence stays revoked, gives out no download and
      takes no further slot. */
  lemma {:induction false} RevokedIsFinal(s: State, es: seq<Event>)
    requires Runs(s, es) && s.ent.revoked
    ensures var end := After(s, es).ent; end.revoked && end.downloads == s.ent.downloads && end.used <= s.ent.used
    decreases |es|
  {
    if es != [] {
      RevokedIsFinal(Apply(s, es[0]), es[1..]);
    }
  }

  // ------------------------------------------------------------ the program

  class License {
    var ent: Entitlement

    constructor ()
      ensures ent == ISSUED && Valid()
    {
      ent := ISSUED;
      assert Active(ISSUED) == {};
    }

    ghost predicate Valid()
      reads this
    {
      ent.used == |Active(ent)|
    }

    function DeviceActive(d: nat): bool
      reads this
    {
      IsActive(ent, d)
    }

    /** A call that nothing interrupts never has to undo. */
    method Activate(d: nat, cap: int) returns (answer: Answer)
      requires Valid()
      modifies this
      ensures Valid()
      ensures answer == if IsActive(old(ent), d) then AlreadyActive
                        else if CanBump(old(ent), cap) then Activated else AtLimit
      ensures ent == if answer.Activated?
                     then old(ent).(used := old(ent).used + 1, devices := old(ent).devices[d := true])
                     else old(ent)
      ensures answer != AtLimit ==> DeviceActive(d)
      ensures answer == AlreadyActive <==> d in old(ent).devices && old(ent).devices[d]
      ensures answer == Activated <==> !(d in old(ent).devices && old(ent).devices[d]) && old(ent).used < cap && !old(ent).revoked
    {
      ghost var s := State(ent, map[], map[]);
      assert InFlight(s.calls) == {};
      var existing := d in ent.devices;
      if existing && ent.devices[d] {
        return AlreadyActive;
      }
      if !(ent.used < cap && !ent.revoked) {
        return AtLimit;
      }
      ent := ent.(used := ent.used + 1);
      ent := ent.(devices := ent.devices[d := true]);
      AddOne(Active(old(ent)), Active(ent), d);
      return Activated;
    }

    method DeactivateDevice(d: nat) returns (freed: bool)
      requires Valid()
      modifies this
      ensures Valid() && ent == Freed(old(ent), d) && (freed <==> IsActive(old(ent), d))
      ensures Active(ent) == Active(old(ent)) - {d}
      ensures !DeviceActive(d) && (freed ==> ent.used == old(ent).used - 1)
    {
      freed := d in ent.devices && ent.devices[d];
      if freed {
        FreeOk(ent, d);
        ent := ent.(devices := ent.devices[d := false]);
        if ent.used > 0 {
          ent := ent.(used := ent.used - 1);
        }
      }
    }

    method ClaimDownload(cap: int) returns (claimed: bool)
      modifies this
      ensures ent == Downloaded(old(ent), cap)
      ensures claimed <==> old(ent).downloads < cap && !old(ent).revoked
      ensures claimed ==> ent.downloads == old(ent).downloads + 1 <= cap
    {
      claimed := ent.downloads < cap && !ent.revoked;
      if claimed {
        ent := ent.(downloads := ent.downloads + 1);
      }
    }

    /** Idempotent: only the first call says it revoked anything. */
    method RevokeOnce() returns (revoked: bool)
      modifies this
      ensures ent == old(ent).(revoked := true) && revoked == !old(ent).revoked
    {
      revoked := !ent.revoked;
      ent := ent.(revoked := true);
    }
  }
}
