/**
 The life of an event in the reactor: registered with the timer queue or the demultiplexer, running
 in a worker, on its way back, or out. Owner, workers and users take turns in any order.
 */
module Reactor {

  datatype Kind = TIMEOUT | PERIODIC | READ | WRITE

  datatype Event = Event(id: nat, kind: Kind)

  /** What the owner is asked to do. Reinsert is what a worker asks for when a handler has returned. */
  datatype Promise = Insert(e: Event) | Remove(e: Event) | Freeze(e: Event) | Thaw(e: Event) | Reinsert(e: Event)

  /** `events` is _eventset; `registered` what the timer queue and the demultiplexer hold; `running` the
      events whose handlers workers run; `made` and `gone` what was ever inserted, and removed. */
  datatype State = State(
    events: set<Event>, registered: set<Event>, running: multiset<Event>, promises: multiset<Promise>,
    made: set<Event>, gone: set<Event>)

  const START := State({}, {}, multiset{}, multiset{}, {}, {})

  datatype Signal = REMOVE | DEFAULT

  datatype Action =
    | Ask(p: Promise)                     // a user asks
    | Carry(p: Promise)                   // _carry_on_promises: the owner does what it was asked
    | Fire(e: Event)                      // _activate_event, for a timer that is due or a ready descriptor
    | Return(e: Event, signal: Signal)    // a worker's handler returns

  /** An event is running or on its way back. */
  predicate Active(s: State, e: Event) { s.running[e] > 0 || s.promises[Reinsert(e)] > 0 }

  /** Users insert new events only, leave reinserting to the reactor, and do not thaw active events. */
  predicate Enabled(s: State, a: Action) {
    match a
    case Ask(Insert(e)) => e !in s.made
    case Ask(Reinsert(e)) => false
    case Ask(p) => p.e in s.made
    case Carry(p) => s.promises[p] > 0 && (p.Thaw? ==> !Active(s, p.e))
    case Fire(e) => e in s.registered
    case Return(e, _) => s.running[e] > 0
  }

  /** A new event is registered at once, unless it is for writing. */
  function Inserted(s: State, e: Event): State {
    s.(events := s.events + {e}, registered := if e.kind == WRITE then s.registered else s.registered + {e})
  }

  /** _remove. */
  function Removed(s: State, e: Event): State {
    if e in s.events then s.(events := s.events - {e}, registered := s.registered - {e}, gone := s.gone + {e}) else s
  }

  /** _freeze. */
  function Frozen(s: State, e: Event): State {
    if e in s.events then s.(registered := s.registered - {e}) else s
  }

  /** _thaw, and the end of a reinsertion. */
  function Thawed(s: State, e: Event): State {
    if e in s.events then s.(registered := s.registered + {e}) else s
  }

  /** What a worker asks for when the handler of e has returned. */
  function After(e: Event, signal: Signal): multiset<Promise> {
    match e.kind
    case TIMEOUT => multiset{Remove(e)}
    case PERIODIC => if signal == REMOVE then multiset{Remove(e)} else multiset{Reinsert(e)}
    case READ => if signal == REMOVE then multiset{Remove(e)} else multiset{Reinsert(e)}
    case WRITE => if signal == REMOVE then multiset{Remove(e)} else multiset{}
  }

  function Carried(s: State, p: Promise): State {
    match p
    case Insert(e) => Inserted(s, e)
    case Remove(e) => Removed(s, e)
    case Freeze(e) => Frozen(s, e)
    case Thaw(e) => Thawed(s, e)
    case Reinsert(e) => Thawed(s, e)
  }

  function Do(s: State, a: Action): State {
    if !Enabled(s, a) then s
    else
      match a
      case Ask(p) => s.(promises := s.promises + multiset{p}, made := s.made + {p.e})
      case Carry(p) => Carried(s.(promises := s.promises - multiset{p}), p)
      case Fire(e) => s.(registered := s.registered - {e}, running := s.running + multiset{e})
      case Return(e, signal) => s.(running := s.running - multiset{e}, promises := s.promises + After(e, signal))
  }

  function Run(s: State, schedule: seq<Action>): State
    decreases |schedule|
  {
    if schedule == [] then s else Run(Do(s, schedule[0]), schedule[1..])
  }

  // ---- The invariant -----------------------------------------------------------------------

  function Registrations(s: State, e: Event): nat { if e in s.registered then 1 else 0 }

  /** Registered, running, or on its way back: one of these at most, and none before the event is in or
      about to be in; what is registered is in the event set, and what is gone is in nothing. */
  ghost predicate EventOk(s: State, e: Event) {
    && Registrations(s, e) + s.running[e] + s.promises[Reinsert(e)] + s.promises[Insert(e)] <= 1
    && (e in s.registered ==> e in s.events)
    && (s.promises[Insert(e)] > 0 ==> e !in s.events && e !in s.gone)
    && (e in s.gone ==> e !in s.events)
    && (e in s.events || e in s.gone || s.running[e] > 0 || s.promises[Reinsert(e)] > 0 || s.promises[Insert(e)] > 0 ==> e in s.made)
  }

  ghost predicate Inv(s: State) { forall e :: EventOk(s, e) }

  lemma AskOk(s: State, p: Promise, e: Event)
    requires EventOk(s, e) && Enabled(s, Ask(p))
    ensures EventOk(Do(s, Ask(p)), e)
  {
  }

  /** The owner takes a promise out of the queue. */
  lemma TakenOk(s: State, p: Promise, e: Event)
    requires EventOk(s, e) && s.promises[p] > 0
    ensures var r := s.(promises := s.promises - multiset{p});
      && EventOk(r, e)
      && (p == Insert(e) || p == Reinsert(e) ==>
            Registrations(r, e) + r.running[e] + r.promises[Reinsert(e)] + r.promises[Insert(e)] == 0 && e in r.made)
      && (p == Insert(e) ==> e !in r.gone)
      && (Active(r, e) ==> Active(s, e)) && r.promises[Insert(e)] <= s.promises[Insert(e)]
  {
  }

  lemma CarryOk(s: State, p: Promise, e: Event)
    requires EventOk(s, e) && Enabled(s, Carry(p))
    ensures EventOk(Do(s, Carry(p)), e)
  {
    TakenOk(s, p, e);
    hide Enabled, Active;
    var r := s.(promises := s.promises - multiset{p});
    if p == Thaw(e) && e in r.events {
      ThawOk(s, r, e);
    }
  }

  /** A thawed event is in and not active, so it may be registered. */
  lemma ThawOk(s: State, r: State, e: Event)
    requires EventOk(s, e) && EventOk(r, e) && Enabled(s, Carry(Thaw(e))) && r == s.(promises := s.promises - multiset{Thaw(e)})
    requires e in r.events
    ensures r.running[e] + r.promises[Reinsert(e)] + r.promises[Insert(e)] == 0
  {
  }

  lemma ReturnOk(s: State, x: Event, signal: Signal, e: Event)
    requires EventOk(s, e) && Enabled(s, Return(x, signal))
    ensures EventOk(Do(s, Return(x, signal)), e)
  {
    var more := After(x, signal);
    assert more[Insert(e)] == 0 && more[Reinsert(e)] <= if x == e then 1 else 0;
    hide After;
  }

  lemma StepOk(s: State, a: Action, e: Event)
    requires EventOk(s, e)
    ensures EventOk(Do(s, a), e)
  {
    if Enabled(s, a) {
      match a {
        case Ask(p) => AskOk(s, p, e);
        case Carry(p) => CarryOk(s, p, e);
        case Fire(x) =>
        case Return(x, signal) => ReturnOk(s, x, signal, e);
      }
    }
  }

  lemma {:induction false} RunKeeps(s: State, schedule: seq<Action>)
    requires Inv(s)
    ensures Inv(Run(s, schedule))
    decreases |schedule|
  {
    hide EventOk, Do;
    if schedule != [] {
      forall e ensures EventOk(Do(s, schedule[0]), e) {
        assert EventOk(s, e);
        StepOk(s, schedule[0], e);
      }
      RunKeeps(Do(s, schedule[0]), schedule[1..]);
    }
  }

  // ---- Every run ---------------------------------------------------------------------------

  /** An event that is registered is in the event set. An event is registered, running, or on its way
      back, in one of these and once at most: no handler runs twice at the same time. */
  lemma NoHandlerRunsTwice(schedule: seq<Action>, e: Event)
    ensures var s := Run(START, schedule);
      && (e in s.registered ==> e in s.events)
      && Registrations(s, e) + s.running[e] + s.promises[Reinsert(e)] <= 1
  {
    hide Run;
    assert Inv(START);
    RunKeeps(START, schedule);
    assert EventOk(Run(START, schedule), e);
  }

  lemma {:induction false} GoneStaysGone(s: State, schedule: seq<Action>, e: Event)
    requires Inv(s) && e in s.gone
    ensures e in Run(s, schedule).gone && Inv(Run(s, schedule))
    decreases |schedule|
  {
    RunKeeps(s, schedule);
    if schedule != [] {
      RunKeeps(s, [schedule[0]]);
      assert Run(s, [schedule[0]]) == Run(Do(s, schedule[0]), [schedule[0]][1..]);
      assert Run(Do(s, schedule[0]), []) == Do(s, schedule[0]);
      GoneStaysGone(Do(s, schedule[0]), schedule[1..], e);
    }
  }

  /** Once _remove has found the event and returned true, it is never registered or activated again,
      whatever follows; its handler may still be running. */
  lemma RemovedStaysOut(before: seq<Action>, later: seq<Action>, e: Event)
    requires var s := Run(START, before); Enabled(s, Carry(Remove(e))) && e in s.events
    ensures var r := Run(Do(Run(START, before), Carry(Remove(e))), later);
      e !in r.events && e !in r.registered && !Enabled(r, Fire(e))
  {
    assert Inv(START);
    RunKeeps(START, before);
    var s := Run(START, before);
    hide Run;
    RunKeeps(s, [Carry(Remove(e))]);
    OneStep(s, Carry(Remove(e)));
    GoneStaysGone(Do(s, Carry(Remove(e))), later, e);
    assert EventOk(Run(Do(s, Carry(Remove(e))), later), e);
  }

  lemma OneStep(s: State, a: Action)
    ensures Run(s, [a]) == Do(s, a)
  {
    assert Run(s, [a]) == Run(Do(s, a), [a][1..]);
  }

  // ---- Freezing ----------------------------------------------------------------------------

  predicate Thaws(a: Action, e: Event) { a == Carry(Thaw(e)) }

  /** An event that is in, not registered, and not coming back. */
  ghost predicate Quiet(s: State, e: Event) {
    EventOk(s, e) && e in s.made && e !in s.registered && !Active(s, e) && s.promises[Insert(e)] == 0
  }

  lemma QuietReturn(s: State, x: Event, signal: Signal, e: Event)
    requires Quiet(s, e) && Enabled(s, Return(x, signal))
    ensures !Active(Do(s, Return(x, signal)), e) && Do(s, Return(x, signal)).promises[Insert(e)] == 0
  {
    hide EventOk;
    var more := After(x, signal);
    assert more[Insert(e)] == 0 && (x != e ==> more[Reinsert(e)] == 0);
    hide After;
  }

  lemma QuietCarry(s: State, p: Promise, e: Event)
    requires Quiet(s, e) && Enabled(s, Carry(p)) && p != Thaw(e)
    ensures var r := Do(s, Carry(p)); e !in r.registered && !Active(r, e) && r.promises[Insert(e)] == 0
  {
    hide EventOk;
    var r := s.(promises := s.promises - multiset{p});
    assert p != Insert(e) && p != Reinsert(e);
    assert r.promises[Insert(e)] == 0 && r.promises[Reinsert(e)] == 0;
  }

  lemma QuietStep(s: State, a: Action, e: Event)
    requires Quiet(s, e) && !Thaws(a, e)
    ensures Quiet(Do(s, a), e)
  {
    StepOk(s, a, e);
    hide EventOk;
    if Enabled(s, a) {
      match a {
        case Ask(p) =>
        case Carry(p) =>
          QuietCarry(s, p, e);
          hide Active, Enabled;
        case Fire(x) =>
        case Return(x, signal) =>
          QuietReturn(s, x, signal, e);
          hide Active, After, Enabled;
      }
    }
  }

  /** An event that was not active when it was frozen stays unregistered until it is thawed. */
  lemma {:induction false} QuietUntilThawed(s: State, later: seq<Action>, e: Event)
    requires Quiet(s, e) && forall i | 0 <= i < |later| :: !Thaws(later[i], e)
    ensures e !in Run(s, later).registered
    decreases |later|
  {
    hide Do, EventOk, Active;
    if later != [] {
      assert !Thaws(later[0], e);
      QuietStep(s, later[0], e);
      assert forall i | 0 <= i < |later[1..]| :: later[1..][i] == later[i + 1];
      QuietUntilThawed(Do(s, later[0]), later[1..], e);
    }
  }

  /** A reading or periodic event that is active comes back without being thawed. */
  lemma ActiveComesBack(s: State, e: Event) returns (later: seq<Action>)
    requires EventOk(s, e) && e in s.events && Active(s, e) && e.kind in {PERIODIC, READ}
    ensures (forall i | 0 <= i < |later| :: !Thaws(later[i], e)) && e in Run(s, later).registered
  {
    if s.running[e] > 0 {
      later := [Return(e, DEFAULT), Carry(Reinsert(e))];
      var r := Do(s, Return(e, DEFAULT));
      assert later[1..] == [Carry(Reinsert(e))];
      OneStep(r, Carry(Reinsert(e)));
    } else {
      later := [Carry(Reinsert(e))];
      OneStep(s, Carry(Reinsert(e)));
    }
  }

  /** A frozen event is unregistered; it stays so until it is thawed exactly if it was not active. If it
      was, the return of its handler registers it again. */
  lemma FreezeHoldsUnlessActive(s: State, e: Event)
    requires Inv(s) && e in s.events && Enabled(s, Carry(Freeze(e))) && e.kind in {PERIODIC, READ}
    ensures var r := Do(s, Carry(Freeze(e)));
      && e !in r.registered
      && (Active(s, e) <==> exists later :: (forall i | 0 <= i < |later| :: !Thaws(later[i], e)) && e in Run(r, later).registered)
  {
    var r := Do(s, Carry(Freeze(e)));
    assert EventOk(s, e);
    StepOk(s, Carry(Freeze(e)), e);
    assert Active(r, e) <==> Active(s, e);
    hide Do, Active;
    if Active(s, e) {
      var later := ActiveComesBack(r, e);
    } else {
      forall later | forall i | 0 <= i < |later| :: !Thaws(later[i], e) ensures e !in Run(r, later).registered {
        FrozenIsQuiet(s, e, r);
        QuietUntilThawed(r, later, e);
      }
    }
  }

  lemma FrozenIsQuiet(s: State, e: Event, r: State)
    requires EventOk(s, e) && e in s.events && Enabled(s, Carry(Freeze(e))) && r == Do(s, Carry(Freeze(e))) && !Active(s, e)
    ensures Quiet(r, e)
  {
    StepOk(s, Carry(Freeze(e)), e);
  }

  lemma TwoSteps(s: State, a: Action, b: Action)
    ensures Run(s, [a, b]) == Do(Do(s, a), b)
  {
    hide Do;
    assert [a, b][1..] == [b] && [b][1..] == [];
    assert Run(Do(s, a), [b]) == Run(Do(Do(s, a), b), []);
  }

  lemma FiveSteps(s: State, a: Action, b: Action, c: Action, d: Action, e: Action)
    ensures Run(s, [a, b, c, d, e]) == Do(Do(Do(Do(Do(s, a), b), c), d), e)
  {
    hide Do;
    var r := Do(Do(Do(s, a), b), c);
    TwoSteps(r, d, e);
    assert [a, b, c, d, e][1..] == [b, c, d, e] && [b, c, d, e][1..] == [c, d, e] && [c, d, e][1..] == [d, e];
    assert Run(Do(Do(s, a), b), [c, d, e]) == Run(r, [d, e]);
    assert Run(Do(s, a), [b, c, d, e]) == Run(Do(Do(s, a), b), [c, d, e]);
  }

  /** A handler is running, and its event is frozen. */
  lemma FrozenWhileActive(e: Event) returns (s: State)
    requires e.kind in {PERIODIC, READ}
    ensures s == Do(Do(Do(Do(Do(START, Ask(Insert(e))), Carry(Insert(e))), Fire(e)), Ask(Freeze(e))), Carry(Freeze(e)))
    ensures e in s.events && e !in s.registered && s.running[e] == 1 && s.promises[Reinsert(e)] == 0
  {
    var s2 := Do(Do(START, Ask(Insert(e))), Carry(Insert(e)));
    assert e in s2.events && e in s2.registered && s2.running[e] == 0 && s2.promises[Reinsert(e)] == 0 && e in s2.made;
    var s3 := Do(s2, Fire(e));
    assert e in s3.events && s3.running[e] == 1 && s3.promises[Reinsert(e)] == 0 && e in s3.made;
    s := Do(Do(s3, Ask(Freeze(e))), Carry(Freeze(e)));
  }

  lemma BackAfterReturn(s: State, e: Event)
    requires e.kind in {PERIODIC, READ} && e in s.events && s.running[e] == 1
    ensures e in Do(Do(s, Return(e, DEFAULT)), Carry(Reinsert(e))).registered
  {
    var r := Do(s, Return(e, DEFAULT));
    assert r.promises[Reinsert(e)] > 0 && e in r.events;
  }

  /** From the start: an event is frozen while its handler runs, and registered when it has returned. */
  lemma FrozenComesBack(e: Event)
    requires e.kind in {PERIODIC, READ}
    ensures var before := [Ask(Insert(e)), Carry(Insert(e)), Fire(e), Ask(Freeze(e)), Carry(Freeze(e))];
            var after := [Return(e, DEFAULT), Carry(Reinsert(e))];
            && e in Run(START, before).events && e !in Run(START, before).registered
            && e in Run(Run(START, before), after).registered
  {
    var s := FrozenWhileActive(e);
    FiveSteps(START, Ask(Insert(e)), Carry(Insert(e)), Fire(e), Ask(Freeze(e)), Carry(Freeze(e)));
    hide Do;
    TwoSteps(s, Return(e, DEFAULT), Carry(Reinsert(e)));
    hide Run;
    BackAfterReturn(s, e);
  }
}
