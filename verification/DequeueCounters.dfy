/**
 The four counters of a producer's sub-queue: tailIndex (items published), headIndex (items
 claimed), dequeueOptimisticCount (items consumers have bid for) and dequeueOvercommit (bids
 that turned out to have nothing behind them).

 One producer and any number of consumers take atomic steps in any order. Indices are
 unbounded here; CircularLessThanIsLess says when the 64-bit comparison agrees. A dequeue is
 a bulk dequeue of at most one item: the two functions perform the same atomic operations
 then. Loads may be stale: they see any value up to the current one.
 */
module DequeueCounters {
  import opened Options

  type Thread = nat
  type Item

  // ---- The state ---------------------------------------------------------------------------

  /** A consumer's position, named after the atomic operation it performs next. */
  datatype Pc =
    | Idle
    | LoadOvercommit(max: nat, tail: nat)
    | LoadOptimistic(max: nat, tail: nat, overcommit: nat)
    | Bid(desired: nat, overcommit: nat)
    | ReloadTail(desired: nat, overcommit: nat, mine: nat)
    | GiveBack(excess: nat, actual: nat)
    | Take(actual: nat)

  datatype State = State(
    items: seq<Item>,         // every item ever published; tailIndex is its length
    head: nat,
    optimistic: nat,
    overcommit: nat,
    pc: map<Thread, Pc>)

  /** `seen` is the value a load returns; it is ignored by read-modify-write operations. */
  datatype Action =
    | Publish(more: seq<Item>)
    | Dequeue(t: Thread, max: nat, seen: nat)
    | Step(t: Thread, seen: nat)

  /** The items a consumer walks away with: those at [first, first + count). */
  datatype Taken = Taken(t: Thread, first: nat, count: nat)

  function Tail(s: State): nat { |s.items| }

  // ---- The steps ---------------------------------------------------------------------------

  predicate Enabled(s: State, a: Action) {
    match a
    case Publish(more) => true
    case Dequeue(t, max, seen) => t in s.pc && s.pc[t].Idle? && seen <= Tail(s)
    case Step(t, seen) =>
      && t in s.pc
      && match s.pc[t]
         case Idle => false
         case LoadOvercommit(_, _) => seen <= s.overcommit
         case LoadOptimistic(_, _, _) => seen <= s.optimistic
         case ReloadTail(_, _, _) => seen <= Tail(s)
         case _ => true
  }

  function Goto(s: State, t: Thread, p: Pc): State { s.(pc := s.pc[t := p]) }

  function Do(s: State, a: Action): State
    requires Enabled(s, a)
  {
    match a
    case Publish(more) => s.(items := s.items + more)
    case Dequeue(t, max, seen) => Goto(s, t, LoadOvercommit(max, seen))
    case Step(t, seen) =>
      match s.pc[t]
      case LoadOvercommit(max, tail) => Goto(s, t, LoadOptimistic(max, tail, seen))
      case LoadOptimistic(max, tail, over) =>
        var desired := tail - (seen - over);
        if 0 < desired then Goto(s, t, Bid(Min(desired, max), over)) else Goto(s, t, Idle)
      case Bid(desired, over) =>
        Goto(s.(optimistic := s.optimistic + desired), t, ReloadTail(desired, over, s.optimistic))
      case ReloadTail(desired, over, mine) =>
        var actual := seen - (mine - over);
        if 0 < actual then
          if actual < desired then Goto(s, t, GiveBack(desired - actual, actual))
          else Goto(s, t, Take(desired))
        else Goto(s, t, GiveBack(desired, 0))
      case GiveBack(excess, actual) =>
        Goto(s.(overcommit := s.overcommit + excess), t, if actual == 0 then Idle else Take(actual))
      case Take(actual) => Goto(s.(head := s.head + actual), t, Idle)
  }

  function Emits(s: State, a: Action): seq<Taken>
    requires Enabled(s, a)
  {
    if a.Step? && s.pc[a.t].Take? then [Taken(a.t, s.head, s.pc[a.t].actual)] else []
  }

  /** Any interleaving: actions that are not enabled where they occur are skipped. */
  function Run(s: State, schedule: seq<Action>): State
    decreases |schedule|
  {
    if schedule == [] then s
    else if Enabled(s, schedule[0]) then Run(Do(s, schedule[0]), schedule[1..])
    else Run(s, schedule[1..])
  }

  function Trace(s: State, schedule: seq<Action>): seq<Taken>
    decreases |schedule|
  {
    if schedule == [] then []
    else if Enabled(s, schedule[0]) then
      Emits(s, schedule[0]) + Trace(Do(s, schedule[0]), schedule[1..])
    else Trace(s, schedule[1..])
  }

  predicate Initial(s: State) {
    && s.items == [] && s.head == 0 && s.optimistic == 0 && s.overcommit == 0
    && forall t | t in s.pc :: s.pc[t].Idle?
  }

  // ---- The invariant -----------------------------------------------------------------------

  /** How far a bid has come. `given` and `taken` become known when the tail is reloaded. */
  datatype Stage = Open | Decided(taken: nat, gaveBack: bool) | Closed(taken: nat)

  /** One bid: it asked for `desired` items having seen `overcommit` bids fail. */
  datatype Claim = Claim(desired: nat, overcommit: nat, stage: Stage)

  /** What can be counted about a bid: what it asked for, the part known to be in vain, the
      part added to dequeueOvercommit so far, the part it was granted, and the part of that
      added to headIndex so far. */
  datatype Measure = Desired | Vain | Returned | Granted | Fetched

  function Weigh(m: Measure, c: Claim): nat {
    match m
    case Desired => c.desired
    case Vain => if c.stage.Open? || c.desired < c.stage.taken then 0 else c.desired - c.stage.taken
    case Returned =>
      if c.stage.Open? || c.desired < c.stage.taken || (c.stage.Decided? && !c.stage.gaveBack) then 0
      else c.desired - c.stage.taken
    case Granted => if c.stage.Open? then 0 else c.stage.taken
    case Fetched => if c.stage.Closed? then c.stage.taken else 0
  }

  function Sum(m: Measure, h: seq<Claim>): nat {
    if h == [] then 0 else Sum(m, h[..|h| - 1]) + Weigh(m, h[|h| - 1])
  }

  /** Claim i saw only failures of earlier bids, and what it was granted lies below the tail. */
  ghost predicate ClaimOk(h: seq<Claim>, i: nat, tail: nat)
    requires i < |h|
  {
    && (!h[i].stage.Open? ==> h[i].stage.taken <= h[i].desired)
    && h[i].overcommit <= Sum(Vain, h[..i])
    && (Weigh(Granted, h[i]) > 0 ==>
          Sum(Desired, h[..i]) - h[i].overcommit + Weigh(Granted, h[i]) <= tail)
  }

  /** The thread's position and the stage of the claim it is working on fit together. */
  ghost predicate Working(p: Pc, h: seq<Claim>, i: nat) {
    && i < |h|
    && match p
       case ReloadTail(desired, over, mine) =>
         h[i] == Claim(desired, over, Open) && mine == Sum(Desired, h[..i])
       case GiveBack(excess, actual) =>
         h[i].stage == Decided(actual, false) && h[i].desired == excess + actual
       case Take(actual) =>
         && h[i].stage.Decided? && h[i].stage.taken == actual <= h[i].desired
         && (h[i].stage.gaveBack || h[i].desired == actual)
       case _ => false
  }

  predicate Busy(p: Pc) { p.ReloadTail? || p.GiveBack? || p.Take? }

  /** Values loaded earlier are still below the counters that only grow. */
  ghost predicate Loaded(s: State, p: Pc) {
    match p
    case LoadOptimistic(_, _, over) => over <= s.overcommit
    case Bid(_, over) => over <= s.overcommit
    case _ => true
  }

  /** h: the bids in the order of their fetch_add; at: the bid each busy thread is working on. */
  ghost predicate Inv(s: State, h: seq<Claim>, at: map<Thread, nat>) {
    && s.optimistic == Sum(Desired, h)
    && s.overcommit == Sum(Returned, h)
    && s.head == Sum(Fetched, h)
    && (forall i {:trigger ClaimOk(h, i, Tail(s))} | 0 <= i < |h| :: ClaimOk(h, i, Tail(s)))
    && (forall t {:trigger Loaded(s, s.pc[t])} | t in s.pc :: Loaded(s, s.pc[t]))
    && (forall t {:trigger t in at} | t in s.pc :: Busy(s.pc[t]) <==> t in at)
    && (forall t {:trigger t in at} | t in at :: t in s.pc && Working(s.pc[t], h, at[t]))
    && (forall t, u | t in at && u in at && at[t] == at[u] :: t == u)
    && (forall i {:trigger h[i].stage} | 0 <= i < |h| && !h[i].stage.Closed? :: exists t :: t in at && at[t] == i)
  }

  // ---- Sums over the bids ------------------------------------------------------------------

  lemma SumAppend(m: Measure, h: seq<Claim>, c: Claim)
    ensures Sum(m, h + [c]) == Sum(m, h) + Weigh(m, c)
  {
    assert (h + [c])[..|h|] == h;
  }

  lemma {:induction false} SumUpdate(m: Measure, h: seq<Claim>, i: nat, c: Claim)
    requires i < |h|
    ensures Sum(m, h[i := c]) == Sum(m, h) - Weigh(m, h[i]) + Weigh(m, c)
  {
    var k := |h| - 1;
    if i == k {
      assert h[i := c][..k] == h[..k];
    } else {
      assert h[i := c][..k] == h[..k][i := c];
      SumUpdate(m, h[..k], i, c);
    }
  }

  /** Deciding or advancing a bid changes the sums of the prefixes that contain it, and no others. */
  lemma PrefixUpdate(m: Measure, h: seq<Claim>, i: nat, c: Claim, j: nat)
    requires i < |h| && j <= |h|
    ensures Sum(m, h[i := c][..j]) == Sum(m, h[..j]) + (if i < j then Weigh(m, c) - Weigh(m, h[i]) else 0)
  {
    if i < j {
      assert h[i := c][..j] == h[..j][i := c];
      SumUpdate(m, h[..j], i, c);
    } else {
      assert h[i := c][..j] == h[..j];
    }
  }

  lemma {:induction false} SumCompare(m: Measure, m': Measure, h: seq<Claim>)
    requires forall i | 0 <= i < |h| :: Weigh(m, h[i]) <= Weigh(m', h[i])
    ensures Sum(m, h) <= Sum(m', h)
  {
    if h != [] {
      SumCompare(m, m', h[..|h| - 1]);
    }
  }

  /** Every bid splits into what it may get and what was in vain. */
  lemma {:induction false} GrantedOrVain(h: seq<Claim>)
    requires forall i | 0 <= i < |h| :: !h[i].stage.Open? ==> h[i].stage.taken <= h[i].desired
    ensures Sum(Granted, h) + Sum(Vain, h) <= Sum(Desired, h)
  {
    if h != [] {
      GrantedOrVain(h[..|h| - 1]);
    }
  }

  /** All grants together fit below the tail: the last successful bid saw to that. */
  lemma {:induction false} GrantsFit(h: seq<Claim>, tail: nat)
    requires forall i {:trigger ClaimOk(h, i, tail)} | 0 <= i < |h| :: ClaimOk(h, i, tail)
    ensures Sum(Granted, h) <= tail
  {
    if h == [] {
    } else {
      var k := |h| - 1;
      assert ClaimOk(h, k, tail);
      forall i | 0 <= i < k ensures ClaimOk(h[..k], i, tail) {
        assert ClaimOk(h, i, tail);
        assert h[..k][..i] == h[..i];
      }
      if Weigh(Granted, h[k]) == 0 {
        GrantsFit(h[..k], tail);
      } else {
        forall i | 0 <= i < k ensures !h[i].stage.Open? ==> h[i].stage.taken <= h[i].desired {
          assert ClaimOk(h, i, tail);
        }
        GrantedOrVain(h[..k]);
      }
    }
  }

  // ---- Each step keeps the invariant -------------------------------------------------------

  /** Moving a thread that is not busy, before or after, needs no bookkeeping. */
  lemma MoveKeeps(s: State, h: seq<Claim>, at: map<Thread, nat>, t: Thread, p: Pc)
    requires Inv(s, h, at) && t in s.pc && !Busy(s.pc[t]) && !Busy(p) && Loaded(s, p)
    ensures Inv(Goto(s, t, p), h, at)
  {
    var r := Goto(s, t, p);
    assert t !in at;
    forall u | u in r.pc ensures Loaded(r, r.pc[u]) {
      assert Loaded(s, s.pc[u]);
    }
    forall i | 0 <= i < |h| ensures ClaimOk(h, i, Tail(r)) {
      assert ClaimOk(h, i, Tail(s));
    }
  }

  lemma PublishKeeps(s: State, h: seq<Claim>, at: map<Thread, nat>, more: seq<Item>)
    requires Inv(s, h, at)
    ensures Inv(Do(s, Publish(more)), h, at)
  {
    var r := Do(s, Publish(more));
    forall u | u in r.pc ensures Loaded(r, r.pc[u]) {
      assert Loaded(s, s.pc[u]);
    }
    forall i | 0 <= i < |h| ensures ClaimOk(h, i, Tail(r)) {
      assert ClaimOk(h, i, Tail(s));
    }
  }

  /** A new bid: everything it has seen returned came from bids before it. */
  lemma BidKeeps(s: State, h: seq<Claim>, at: map<Thread, nat>, t: Thread, seen: nat)
    returns (h': seq<Claim>, at': map<Thread, nat>)
    requires Inv(s, h, at) && t in s.pc && s.pc[t].Bid?
    ensures Inv(Do(s, Step(t, seen)), h', at')
  {
    var p, r := s.pc[t], Do(s, Step(t, seen));
    var c := Claim(p.desired, p.overcommit, Open);
    h', at' := h + [c], at[t := |h|];
    assert Loaded(s, p) && t !in at;
    SumAppend(Desired, h, c);
    SumAppend(Returned, h, c);
    SumAppend(Fetched, h, c);
    SumCompare(Returned, Vain, h);
    forall i | 0 <= i < |h'| ensures ClaimOk(h', i, Tail(r)) {
      assert h'[..i] == h[..i] || i == |h|;
      assert i == |h| ==> h'[..i] == h;
      assert i < |h| ==> ClaimOk(h, i, Tail(s));
    }
    forall u | u in r.pc ensures Loaded(r, r.pc[u]) {
      assert Loaded(s, s.pc[u]);
    }
    forall u | u in at' ensures u in r.pc && Working(r.pc[u], h', at'[u]) {
      if u == t {
        assert h'[..|h|] == h;
      } else {
        assert Working(s.pc[u], h, at[u]);
        assert h'[..at[u]] == h[..at[u]];
      }
    }
    forall i | 0 <= i < |h'| && !h'[i].stage.Closed? ensures exists u :: u in at' && at'[u] == i {
      if i < |h| {
        assert !h[i].stage.Closed?;
        var u :| u in at && at[u] == i;
        assert u in at' && at'[u] == i;
      } else {
        assert t in at' && at'[t] == i;
      }
    }
  }

  /** Advancing the stage of t's bid to c, which closes it or leaves t working on it. */
  lemma AdvanceKeeps(s: State, h: seq<Claim>, at: map<Thread, nat>, r: State, t: Thread, c: Claim) returns (at': map<Thread, nat>)
    requires Inv(s, h, at) && t in at && t in r.pc && r.pc == s.pc[t := r.pc[t]]
    requires var i := at[t];
      && i < |h|
      && c.desired == h[i].desired && c.overcommit == h[i].overcommit
      && r.optimistic == s.optimistic
      && r.overcommit == s.overcommit - Weigh(Returned, h[i]) + Weigh(Returned, c) >= s.overcommit
      && r.head == s.head - Weigh(Fetched, h[i]) + Weigh(Fetched, c)
      && Tail(r) == Tail(s)
      && ClaimOk(h[i := c], i, Tail(r))
      && Weigh(Vain, h[i]) <= Weigh(Vain, c)
      && (if c.stage.Closed? then !Busy(r.pc[t]) else Busy(r.pc[t]) && Working(r.pc[t], h[i := c], i))
      && Loaded(r, r.pc[t])
    ensures at' == (if c.stage.Closed? then at - {t} else at)
    ensures Inv(r, h[at[t] := c], at')
  {
    hide Sum;
    var i := at[t];
    var h' := h[i := c];
    at' := if c.stage.Closed? then at - {t} else at;
    SumUpdate(Desired, h, i, c);
    SumUpdate(Returned, h, i, c);
    SumUpdate(Fetched, h, i, c);
    forall j | 0 <= j < |h'| ensures ClaimOk(h', j, Tail(r)) {
      assert ClaimOk(h, j, Tail(s));
      PrefixUpdate(Vain, h, i, c, j);
      PrefixUpdate(Desired, h, i, c, j);
    }
    forall u | u in r.pc ensures Loaded(r, r.pc[u]) {
      assert Loaded(s, s.pc[u]);
    }
    forall u | u in at' ensures u in r.pc && Working(r.pc[u], h', at'[u]) {
      if u != t {
        assert Working(s.pc[u], h, at[u]) && at[u] != i;
        PrefixUpdate(Desired, h, i, c, at[u]);
      }
    }
    forall j | 0 <= j < |h'| && !h'[j].stage.Closed? ensures exists u :: u in at' && at'[u] == j {
      assert j != i ==> h'[j] == h[j];
      assert !h[j].stage.Closed? || j == i;
      if j != i {
        var u :| u in at && at[u] == j;
        assert u in at' && at'[u] == j;
      } else {
        assert t in at' && at'[t] == i;
      }
    }
  }

  lemma ReloadKeeps(s: State, h: seq<Claim>, at: map<Thread, nat>, t: Thread, seen: nat)
    returns (h': seq<Claim>, at': map<Thread, nat>)
    requires Inv(s, h, at) && Enabled(s, Step(t, seen)) && s.pc[t].ReloadTail?
    ensures Inv(Do(s, Step(t, seen)), h', at')
  {
    var r := Do(s, Step(t, seen));
    assert t in at;
    var i, p := at[t], s.pc[t];
    assert Working(p, h, i) && ClaimOk(h, i, Tail(s));
    var actual := seen - (p.mine - p.overcommit);
    var taken: nat := if 0 < actual then Min(actual, p.desired) else 0;
    var c := h[i].(stage := Decided(taken, false));
    assert h[i := c][..i] == h[..i];
    at' := AdvanceKeeps(s, h, at, r, t, c);
    h' := h[i := c];
  }

  lemma GiveBackKeeps(s: State, h: seq<Claim>, at: map<Thread, nat>, t: Thread, seen: nat)
    returns (h': seq<Claim>, at': map<Thread, nat>)
    requires Inv(s, h, at) && Enabled(s, Step(t, seen)) && s.pc[t].GiveBack?
    ensures Inv(Do(s, Step(t, seen)), h', at')
  {
    var r := Do(s, Step(t, seen));
    assert t in at;
    var i, p := at[t], s.pc[t];
    assert Working(p, h, i) && ClaimOk(h, i, Tail(s));
    var c := h[i].(stage := if p.actual == 0 then Closed(0) else Decided(p.actual, true));
    assert h[i := c][..i] == h[..i];
    at' := AdvanceKeeps(s, h, at, r, t, c);
    h' := h[i := c];
  }

  lemma TakeKeeps(s: State, h: seq<Claim>, at: map<Thread, nat>, t: Thread, seen: nat)
    returns (h': seq<Claim>, at': map<Thread, nat>)
    requires Inv(s, h, at) && Enabled(s, Step(t, seen)) && s.pc[t].Take?
    ensures Inv(Do(s, Step(t, seen)), h', at')
  {
    var r := Do(s, Step(t, seen));
    assert t in at;
    var i, p := at[t], s.pc[t];
    assert Working(p, h, i) && ClaimOk(h, i, Tail(s));
    var c := h[i].(stage := Closed(p.actual));
    assert h[i := c][..i] == h[..i];
    at' := AdvanceKeeps(s, h, at, r, t, c);
    h' := h[i := c];
  }

  lemma DoKeeps(s: State, h: seq<Claim>, at: map<Thread, nat>, a: Action)
    returns (h': seq<Claim>, at': map<Thread, nat>)
    requires Inv(s, h, at) && Enabled(s, a)
    ensures Inv(Do(s, a), h', at')
  {
    h', at' := h, at;
    match a {
      case Publish(more) => PublishKeeps(s, h, at, more);
      case Dequeue(t, max, seen) => MoveKeeps(s, h, at, t, LoadOvercommit(max, seen));
      case Step(t, seen) =>
        match s.pc[t] {
          case LoadOvercommit(max, tail) => MoveKeeps(s, h, at, t, LoadOptimistic(max, tail, seen));
          case LoadOptimistic(max, tail, over) =>
            assert Loaded(s, s.pc[t]);
            MoveKeeps(s, h, at, t, Do(s, a).pc[t]);
          case Bid(_, _) => h', at' := BidKeeps(s, h, at, t, seen);
          case ReloadTail(_, _, _) => h', at' := ReloadKeeps(s, h, at, t, seen);
          case GiveBack(_, _) => h', at' := GiveBackKeeps(s, h, at, t, seen);
          case Take(_) => h', at' := TakeKeeps(s, h, at, t, seen);
        }
    }
  }

  lemma {:induction false} RunKeeps(s: State, h: seq<Claim>, at: map<Thread, nat>, schedule: seq<Action>)
    returns (h': seq<Claim>, at': map<Thread, nat>)
    requires Inv(s, h, at)
    ensures Inv(Run(s, schedule), h', at')
    decreases |schedule|
  {
    if schedule == [] {
      h', at' := h, at;
    } else if Enabled(s, schedule[0]) {
      h', at' := DoKeeps(s, h, at, schedule[0]);
      h', at' := RunKeeps(Do(s, schedule[0]), h', at', schedule[1..]);
    } else {
      h', at' := RunKeeps(s, h, at, schedule[1..]);
    }
  }

  lemma Reachable(s: State, schedule: seq<Action>) returns (h: seq<Claim>, at: map<Thread, nat>)
    requires Initial(s)
    ensures Inv(Run(s, schedule), h, at)
  {
    h, at := RunKeeps(s, [], map[], schedule);
  }

  // ---- The promises ------------------------------------------------------------------------

  /** The assert in dequeue and dequeue_bulk: the overcommit a consumer saw, however stale, is at
      most the optimistic count its own fetch_add returned. */
  lemma OvercommitBelowBid(s: State, schedule: seq<Action>, t: Thread)
    requires Initial(s) && t in Run(s, schedule).pc && Run(s, schedule).pc[t].ReloadTail?
    ensures var p := Run(s, schedule).pc[t]; p.overcommit <= p.mine
  {
    var h, at := Reachable(s, schedule);
    var r := Run(s, schedule);
    assert t in at;
    var i := at[t];
    assert Working(r.pc[t], h, i) && ClaimOk(h, i, Tail(r));
    forall j | 0 <= j < i ensures Weigh(Vain, h[..i][j]) <= Weigh(Desired, h[..i][j]) {
    }
    SumCompare(Vain, Desired, h[..i]);
  }

  /** headIndex never passes tailIndex, not even by what has been granted but not yet fetched. */
  lemma HeadNeverPassesTail(s: State, schedule: seq<Action>)
    requires Initial(s)
    ensures Run(s, schedule).head <= Tail(Run(s, schedule))
    ensures forall t | t in Run(s, schedule).pc && Run(s, schedule).pc[t].Take? ::
      Run(s, schedule).head + Run(s, schedule).pc[t].actual <= Tail(Run(s, schedule))
  {
    var h, at := Reachable(s, schedule);
    GrantedFits(Run(s, schedule), h, at);
  }

  lemma GrantedFits(s: State, h: seq<Claim>, at: map<Thread, nat>)
    requires Inv(s, h, at)
    ensures s.head <= Tail(s)
    ensures forall t | t in s.pc && s.pc[t].Take? :: s.head + s.pc[t].actual <= Tail(s)
  {
    GrantsFit(h, Tail(s));
    SumCompare(Fetched, Granted, h);
    forall t | t in s.pc && s.pc[t].Take? ensures s.head + s.pc[t].actual <= Tail(s) {
      assert t in at && Working(s.pc[t], h, at[t]);
      var i, c := at[t], h[at[t]].(stage := Closed(s.pc[t].actual));
      SumUpdate(Fetched, h, i, c);
      SumUpdate(Granted, h, i, c);
      SumCompare(Fetched, Granted, h[i := c]);
    }
  }

  /** The claims in the order they were made tile the indices from one bound to the other. */
  ghost predicate Tiles(trace: seq<Taken>, from: nat, to: nat)
    decreases |trace|
  {
    if trace == [] then from == to
    else trace[0].first == from && Tiles(trace[1..], from + trace[0].count, to)
  }

  lemma {:induction false} ClaimsTile(s: State, schedule: seq<Action>)
    ensures Tiles(Trace(s, schedule), s.head, Run(s, schedule).head)
    decreases |schedule|
  {
    if schedule == [] {
    } else if Enabled(s, schedule[0]) {
      var r, e := Do(s, schedule[0]), Emits(s, schedule[0]);
      ClaimsTile(r, schedule[1..]);
      assert e == [] ==> e + Trace(r, schedule[1..]) == Trace(r, schedule[1..]);
      assert e != [] ==> (e + Trace(r, schedule[1..]))[1..] == Trace(r, schedule[1..]);
    } else {
      ClaimsTile(s, schedule[1..]);
    }
  }

  predicate Contains(c: Taken, i: nat) { c.first <= i < c.first + c.count }

  lemma {:induction false} TilesCover(trace: seq<Taken>, from: nat, to: nat, i: nat) returns (k: nat)
    requires Tiles(trace, from, to) && from <= i < to
    ensures k < |trace| && Contains(trace[k], i)
    ensures forall j | 0 <= j < |trace| && Contains(trace[j], i) :: j == k
    decreases |trace|
  {
    TilesAbove(trace[1..], from + trace[0].count, to);
    if i < from + trace[0].count {
      k := 0;
    } else {
      var k' := TilesCover(trace[1..], from + trace[0].count, to, i);
      k := k' + 1;
      forall j | 0 <= j < |trace| && Contains(trace[j], i) ensures j == k {
        assert j > 0 ==> trace[1..][j - 1] == trace[j];
      }
    }
  }

  lemma {:induction false} TilesAbove(trace: seq<Taken>, from: nat, to: nat)
    requires Tiles(trace, from, to)
    ensures from <= to
    ensures forall j | 0 <= j < |trace| :: from <= trace[j].first && trace[j].first + trace[j].count <= to
    decreases |trace|
  {
    if trace != [] {
      TilesAbove(trace[1..], from + trace[0].count, to);
      forall j | 0 < j < |trace| ensures from <= trace[j].first && trace[j].first + trace[j].count <= to {
        assert trace[1..][j - 1] == trace[j];
      }
    }
  }

  /** Each index below headIndex was claimed by exactly one dequeue, and no other index by any. */
  lemma EachIndexClaimedOnce(s: State, schedule: seq<Action>, i: nat) returns (k: nat)
    requires Initial(s)
    ensures var trace := Trace(s, schedule);
      if i < Run(s, schedule).head then
        && k < |trace| && Contains(trace[k], i)
        && forall j | 0 <= j < |trace| && Contains(trace[j], i) :: j == k
      else forall j | 0 <= j < |trace| :: !Contains(trace[j], i)
  {
    ClaimsTile(s, schedule);
    TilesAbove(Trace(s, schedule), 0, Run(s, schedule).head);
    if i < Run(s, schedule).head {
      k := TilesCover(Trace(s, schedule), 0, Run(s, schedule).head, i);
    } else {
      k := 0;
    }
  }

  /** Everything handed to consumers, claim by claim. */
  function Delivered(trace: seq<Taken>, items: seq<Item>): seq<Item>
    requires forall j | 0 <= j < |trace| :: trace[j].first + trace[j].count <= |items|
    decreases |trace|
  {
    if trace == [] then []
    else items[trace[0].first..trace[0].first + trace[0].count] + Delivered(trace[1..], items)
  }

  lemma {:induction false} TilesDeliver(trace: seq<Taken>, from: nat, to: nat, items: seq<Item>)
    requires Tiles(trace, from, to) && to <= |items|
    ensures from <= to
    ensures forall j | 0 <= j < |trace| :: trace[j].first + trace[j].count <= |items|
    ensures Delivered(trace, items) == items[from..to]
    decreases |trace|
  {
    TilesAbove(trace, from, to);
    if trace != [] {
      TilesAbove(trace[1..], from + trace[0].count, to);
      TilesDeliver(trace[1..], from + trace[0].count, to, items);
      assert items[from..to] == items[from..from + trace[0].count] + items[from + trace[0].count..to];
    }
  }

  /** The sub-queue is first-in first-out and loses nothing: the items handed out, in the order
      of the claims, are the first headIndex items published. */
  lemma QueueIsFifo(s: State, schedule: seq<Action>)
    requires Initial(s)
    ensures Run(s, schedule).head <= |Run(s, schedule).items|
    ensures forall j | 0 <= j < |Trace(s, schedule)| ::
      Trace(s, schedule)[j].first + Trace(s, schedule)[j].count <= |Run(s, schedule).items|
    ensures Delivered(Trace(s, schedule), Run(s, schedule).items) == Run(s, schedule).items[..Run(s, schedule).head]
  {
    ClaimsTile(s, schedule);
    HeadNeverPassesTail(s, schedule);
    TilesDeliver(Trace(s, schedule), 0, Run(s, schedule).head, Run(s, schedule).items);
  }

  /** A claimed range is published by the time it is claimed: nobody reads an item not yet there. */
  lemma ClaimedItemsArePublished(s: State, schedule: seq<Action>, a: Action)
    requires Initial(s) && Enabled(Run(s, schedule), a)
    ensures forall c | c in Emits(Run(s, schedule), a) :: c.first + c.count <= |Run(s, schedule).items|
  {
    HeadNeverPassesTail(s, schedule);
  }

  /** When all consumers are idle the failed bids have been given back exactly: the effective
      dequeue count is the number of items claimed. */
  lemma CountsSettle(s: State, schedule: seq<Action>)
    requires Initial(s)
    requires forall t | t in Run(s, schedule).pc :: Run(s, schedule).pc[t].Idle?
    ensures var r := Run(s, schedule); r.optimistic - r.overcommit == r.head <= Tail(r)
  {
    var h, at := Reachable(s, schedule);
    var r := Run(s, schedule);
    GrantedFits(r, h, at);
    forall i | 0 <= i < |h| ensures h[i].stage.Closed? && h[i].stage.taken <= h[i].desired {
      assert ClaimOk(h, i, Tail(r));
      if !h[i].stage.Closed? {
        assert false;
      }
    }
    ClosedBidsBalance(h);
  }

  lemma {:induction false} ClosedBidsBalance(h: seq<Claim>)
    requires forall i | 0 <= i < |h| :: h[i].stage.Closed? && h[i].stage.taken <= h[i].desired
    ensures Sum(Desired, h) == Sum(Returned, h) + Sum(Fetched, h)
  {
    if h != [] {
      ClosedBidsBalance(h[..|h| - 1]);
    }
  }

  /** What thread t sees when nothing is stale. */
  function Fresh(s: State, t: Thread): nat
    requires t in s.pc
  {
    match s.pc[t]
    case LoadOvercommit(_, _) => s.overcommit
    case LoadOptimistic(_, _, _) => s.optimistic
    case _ => Tail(s)
  }

  /** Thread t runs alone, with fresh loads, until its call returns. */
  function Alone(s: State, t: Thread, fuel: nat): (r: State)
    requires t in s.pc
    ensures t in r.pc
    decreases fuel
  {
    if fuel == 0 || s.pc[t].Idle? then s
    else Alone(Do(s, Step(t, Fresh(s, t))), t, fuel - 1)
  }

  /** With settled counters a lone dequeue of at most max items takes exactly as many as there are. */
  lemma DequeueAloneTakes(s: State, t: Thread, max: nat)
    requires t in s.pc && s.pc[t].Idle?
    requires s.optimistic - s.overcommit == s.head <= Tail(s)
    ensures var r := Alone(Do(s, Dequeue(t, max, Tail(s))), t, 5);
      && r.pc[t].Idle?
      && r.head == s.head + Min(max, Tail(s) - s.head)
      && r.optimistic - r.overcommit == r.head
      && r.items == s.items
  {
    var s1 := Do(s, Dequeue(t, max, Tail(s)));
    var s2 := Do(s1, Step(t, s1.overcommit));
    var s3 := Do(s2, Step(t, s2.optimistic));
    assert Alone(s1, t, 5) == Alone(s2, t, 4) == Alone(s3, t, 3);
    if s.head < Tail(s) {
      var s4 := Do(s3, Step(t, Tail(s3)));
      var s5 := Do(s4, Step(t, Tail(s4)));
      assert Alone(s3, t, 3) == Alone(s4, t, 2) == Alone(s5, t, 1);
    }
  }

  // ---- The 64-bit comparison ---------------------------------------------------------------

  const WORD: int := 0x1_0000_0000_0000_0000
  const HALF: int := 0x8000_0000_0000_0000

  /** details::circular_less_than on 64-bit unsigned integers. */
  predicate CircularLessThan(a: nat, b: nat) { (a - b) % WORD > HALF }

  /** For indices less than a whole range apart, comparing the wrapped values is comparing the
      indices exactly when neither is ahead by half the range (a may be, by exactly half). */
  lemma CircularLessThanIsLess(a: int, b: int)
    requires -WORD < a - b < WORD
    ensures (CircularLessThan(a % WORD, b % WORD) <==> a < b) <==> -HALF < a - b <= HALF
  {
    ModShift(a - b, a / WORD - b / WORD);
    assert a % WORD - b % WORD == (a - b) - WORD * (a / WORD - b / WORD);
  }

  lemma ModShift(x: int, k: int)
    ensures (x - WORD * k) % WORD == x % WORD
  {
  }
}
