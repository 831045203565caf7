/**
 Where events are over whole runs of the reactor: none is lost, a removal that was asked for is carried out, and
 a timer fires once.
 */
module ReactorLives {
  import opened Reactor

  // ---- Events that are not lost ------------------------------------------------------------

  /** Whether an event is to stay unregistered: after it was frozen, and for a writing event from the start and
      whenever its handler has returned, until it is thawed. */
  function Asleep(s: State, schedule: seq<Action>, e: Event, asleep: bool): bool
    decreases |schedule|
  {
    if schedule == [] then asleep else Asleep(Do(s, schedule[0]), schedule[1..], e, Sleeps(s, schedule[0], e, asleep))
  }

  predicate Sleeps(s: State, a: Action, e: Event, asleep: bool) {
    if !Enabled(s, a) then asleep
    else
      match a
      case Carry(Insert(x)) => if x == e then e.kind == WRITE else asleep
      case Carry(Freeze(x)) => x == e || asleep
      case Carry(Thaw(x)) => x != e && asleep
      case Return(x, _) => (x == e && e.kind == WRITE) || asleep
      case _ => asleep
  }

  /** Registered, with its handler running, on its way back or on its way out. */
  predicate InAPlace(s: State, e: Event) { e in s.registered || Active(s, e) || s.promises[Remove(e)] > 0 }

  ghost predicate Kept(s: State, e: Event, asleep: bool) {
    && EventOk(s, e)
    && (e in s.made ==> s.promises[Insert(e)] > 0 || e in s.events || e in s.gone)
    && (e in s.events && !asleep ==> InAPlace(s, e))
  }

  lemma AskKeeps(s: State, p: Promise, e: Event, asleep: bool)
    requires Kept(s, e, asleep) && Enabled(s, Ask(p))
    ensures Kept(Do(s, Ask(p)), e, asleep)
  {
    AskOk(s, p, e);
    hide EventOk;
  }

  lemma CarryKeeps(s: State, p: Promise, e: Event, asleep: bool)
    requires Kept(s, e, asleep) && Enabled(s, Carry(p))
    ensures Kept(Do(s, Carry(p)), e, Sleeps(s, Carry(p), e, asleep))
  {
    StepOk(s, Carry(p), e);
    hide EventOk;
    if p.e == e {
      match p {
        case Insert(_) =>
        case Remove(_) =>
        case Freeze(_) =>
        case Thaw(_) =>
        case Reinsert(_) =>
      }
    }
  }

  lemma FireKeeps(s: State, x: Event, e: Event, asleep: bool)
    requires Kept(s, e, asleep) && Enabled(s, Fire(x))
    ensures Kept(Do(s, Fire(x)), e, asleep)
  {
    StepOk(s, Fire(x), e);
    hide EventOk;
  }

  lemma ReturnKeeps(s: State, x: Event, signal: Signal, e: Event, asleep: bool)
    requires Kept(s, e, asleep) && Enabled(s, Return(x, signal))
    ensures Kept(Do(s, Return(x, signal)), e, Sleeps(s, Return(x, signal), e, asleep))
  {
    StepOk(s, Return(x, signal), e);
    hide EventOk;
    var more := After(x, signal);
    assert x == e && e.kind != WRITE ==> more[Remove(e)] > 0 || more[Reinsert(e)] > 0;
    hide After;
  }

  lemma StepKeeps(s: State, a: Action, e: Event, asleep: bool)
    requires Kept(s, e, asleep)
    ensures Kept(Do(s, a), e, Sleeps(s, a, e, asleep))
  {
    if Enabled(s, a) {
      hide Kept, Enabled;
      match a {
        case Ask(p) => AskKeeps(s, p, e, asleep);
        case Carry(p) => CarryKeeps(s, p, e, asleep);
        case Fire(x) => FireKeeps(s, x, e, asleep);
        case Return(x, signal) => ReturnKeeps(s, x, signal, e, asleep);
      }
    }
  }

  lemma {:induction false} RunKeepsEvent(s: State, schedule: seq<Action>, e: Event, asleep: bool)
    requires Kept(s, e, asleep)
    ensures Kept(Run(s, schedule), e, Asleep(s, schedule, e, asleep))
    decreases |schedule|
  {
    hide Kept, Do, Sleeps;
    if schedule != [] {
      StepKeeps(s, schedule[0], e, asleep);
      RunKeepsEvent(Do(s, schedule[0]), schedule[1..], e, Sleeps(s, schedule[0], e, asleep));
    }
  }

  /** Once it was asked for, an event is about to come in, in, or removed. While it is in, and unless it was left
      asleep, it is registered, running, on its way back, or about to be removed: whatever its handler
      returns, it does not get lost. */
  lemma NoEventIsLost(schedule: seq<Action>, e: Event)
    ensures var s := Run(START, schedule);
      && (e in s.made ==> s.promises[Insert(e)] > 0 || e in s.events || e in s.gone)
      && (e in s.events && !Asleep(START, schedule, e, true) ==> InAPlace(s, e))
  {
    RunKeepsEvent(START, schedule, e, true);
    hide Run, EventOk;
  }

  // ---- Removals ----------------------------------------------------------------------------

  predicate OnItsWayOut(s: State, e: Event) { e in s.made && (s.promises[Remove(e)] > 0 || e !in s.events) && s.promises[Insert(e)] == 0 }

  lemma StaysOnItsWay(s: State, a: Action, e: Event)
    requires OnItsWayOut(s, e)
    ensures OnItsWayOut(Do(s, a), e)
  {
    if Enabled(s, a) {
      match a {
        case Ask(p) =>
        case Carry(p) =>
        case Fire(x) =>
        case Return(x, signal) =>
          assert After(x, signal)[Insert(e)] == 0;
          hide After;
      }
    }
  }

  lemma {:induction false} OutInTheEnd(s: State, schedule: seq<Action>, e: Event)
    requires OnItsWayOut(s, e)
    ensures OnItsWayOut(Run(s, schedule), e)
    decreases |schedule|
  {
    hide OnItsWayOut, Do;
    if schedule != [] {
      StaysOnItsWay(s, schedule[0], e);
      OutInTheEnd(Do(s, schedule[0]), schedule[1..], e);
    }
  }

  /** The handler asks for its event to be removed: it returns REMOVE, or the event is a one-shot timer. */
  predicate AsksToGo(e: Event, signal: Signal) { e.kind == TIMEOUT || signal == REMOVE }

  /** Whatever happens after such a return, the removal is waiting to be carried out or the event is out. */
  lemma RemovalIsCarriedOut(before: seq<Action>, later: seq<Action>, e: Event, signal: Signal)
    requires Enabled(Run(START, before), Return(e, signal)) && AsksToGo(e, signal)
    ensures var r := Run(Do(Run(START, before), Return(e, signal)), later);
      r.promises[Remove(e)] > 0 || e !in r.events
  {
    var s := Run(START, before);
    NothingYet(e);
    RunKeepsEvent(START, before, e, true);
    hide Run;
    ReturnAsks(s, e, signal);
    OutInTheEnd(Do(s, Return(e, signal)), later, e);
  }

  lemma NothingYet(e: Event)
    ensures Kept(START, e, true)
  {
  }

  lemma ReturnAsks(s: State, e: Event, signal: Signal)
    requires EventOk(s, e) && Enabled(s, Return(e, signal)) && AsksToGo(e, signal)
    ensures OnItsWayOut(Do(s, Return(e, signal)), e)
  {
    assert After(e, signal) == multiset{Remove(e)};
    hide After;
  }

  // ---- One-shot timers ---------------------------------------------------------------------

  /** How often e is activated. */
  function Fired(s: State, schedule: seq<Action>, e: Event): nat
    decreases |schedule|
  {
    if schedule == [] then 0
    else (if schedule[0] == Fire(e) && Enabled(s, schedule[0]) then 1 else 0) + Fired(Do(s, schedule[0]), schedule[1..], e)
  }

  /** How often it may yet be. */
  function ToFire(s: State, e: Event): nat {
    (if e in s.made then 0 else 1) + s.promises[Insert(e)] + Registrations(s, e)
  }

  ghost predicate OneShot(s: State, e: Event) { EventOk(s, e) && s.promises[Reinsert(e)] == 0 }

  lemma OneShotCarry(s: State, p: Promise, e: Event)
    requires OneShot(s, e) && e.kind == TIMEOUT && Enabled(s, Carry(p)) && p != Thaw(e)
    ensures var r := Do(s, Carry(p)); r.promises[Reinsert(e)] == 0 && ToFire(r, e) <= ToFire(s, e)
  {
    var r := s.(promises := s.promises - multiset{p});
    assert p != Reinsert(e);
    if p.e == e {
      match p {
        case Insert(_) =>
        case Remove(_) =>
        case Freeze(_) =>
        case Thaw(_) =>
        case Reinsert(_) =>
      }
    }
    hide EventOk;
  }

  lemma OneShotStep(s: State, a: Action, e: Event)
    requires OneShot(s, e) && e.kind == TIMEOUT && !Thaws(a, e)
    ensures OneShot(Do(s, a), e)
    ensures ToFire(Do(s, a), e) + (if a == Fire(e) && Enabled(s, a) then 1 else 0) <= ToFire(s, e)
  {
    StepOk(s, a, e);
    if Enabled(s, a) {
      match a {
        case Ask(p) =>
        case Carry(p) =>
          OneShotCarry(s, p, e);
          hide Do, EventOk, ToFire;
        case Fire(x) =>
        case Return(x, signal) =>
          assert After(x, signal)[Insert(e)] == 0 && After(x, signal)[Reinsert(e)] == 0;
          hide After, EventOk;
      }
    }
  }

  lemma {:induction false} FiredAtMost(s: State, schedule: seq<Action>, e: Event)
    requires OneShot(s, e) && e.kind == TIMEOUT && forall i | 0 <= i < |schedule| :: !Thaws(schedule[i], e)
    ensures Fired(s, schedule, e) <= ToFire(s, e)
    decreases |schedule|
  {
    hide OneShot, Do, ToFire, Enabled;
    if schedule != [] {
      assert !Thaws(schedule[0], e);
      OneShotStep(s, schedule[0], e);
      assert forall i | 0 <= i < |schedule[1..]| :: schedule[1..][i] == schedule[i + 1];
      FiredAtMost(Do(s, schedule[0]), schedule[1..], e);
    }
  }

  /** A one-shot timer that is not thawed fires once at most. */
  lemma TimerFiresOnce(schedule: seq<Action>, e: Event)
    requires e.kind == TIMEOUT && forall i | 0 <= i < |schedule| :: !Thaws(schedule[i], e)
    ensures Fired(START, schedule, e) <= 1
  {
    FiredAtMost(START, schedule, e);
  }
}
