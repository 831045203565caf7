/**
 What a call of the free list may rely on while others go on: a null from try_get means that the list was
 empty, a node from it was the head, and a call that is left alone ends after a bounded number of steps.
 */
module FreeListCalls {
  import opened Options
  import opened FreeList

  // ---- Runs in two parts -------------------------------------------------------------------

  lemma {:induction false} RunConcat(s: State, a: seq<Action>, b: seq<Action>)
    requires Typed(s)
    ensures Run(s, a + b) == Run(Run(s, a), b)
    decreases |a|
  {
    if a == [] {
      assert a + b == b;
    } else {
      assert (a + b)[0] == a[0] && (a + b)[1..] == a[1..] + b;
      RunConcat(if Enabled(s, a[0]) then Do(s, a[0]) else s, a[1..], b);
    }
  }

  /** The state after the first k actions. */
  function After(s: State, schedule: seq<Action>, k: nat): (r: State)
    requires Typed(s)
    ensures Typed(r) && r.pc.Keys == s.pc.Keys
  {
    Run(s, if k <= |schedule| then schedule[..k] else schedule)
  }

  /** The action hands a node to the caller. */
  predicate HandsOut(s: State, a: Action, n: Node) { Enabled(s, a) && Emits(s, a) == [Got(n)] }

  // ---- A null means an empty list ----------------------------------------------------------

  /** Inside try_get. */
  predicate InTryGet(p: Pc) {
    || p.ReadHead? || p.ReadRefs? || p.ClaimRefs? || p.ReadNext? || p.PopHead? || p.CheckRefs? || p.DropBoth? || p.DropOne?
    || ((p.LoadHead? || p.StoreNext? || p.StoreRefs? || p.PushHead? || p.UnpushRefs?) && p.back.ToTryGet?)
  }

  /** The call has loaded a null head. */
  predicate SawNull(p: Pc) {
    || (p.DropOne? && p.head.None?)
    || ((p.LoadHead? || p.StoreNext? || p.StoreRefs? || p.PushHead? || p.UnpushRefs?) && p.back == ToTryGet(None))
  }

  /** In no state of the schedule, before its end, is thread t idle. */
  predicate BusyUntilEnd(s: State, schedule: seq<Action>, t: Thread)
    requires Typed(s) && t in s.pc
  {
    forall m | 0 <= m < |schedule| :: !After(s, schedule, m).pc[t].Idle?
  }

  /** Thread t is handed no node. */
  ghost predicate GetsNothing(s: State, schedule: seq<Action>, t: Thread)
    requires Typed(s)
  {
    forall m, n | 0 <= m < |schedule| && schedule[m] == Step(t) :: !HandsOut(After(s, schedule, m), schedule[m], n)
  }

  lemma OtherSteps(s: State, a: Action, t: Thread)
    requires Typed(s) && Enabled(s, a) && a != Step(t) && t in s.pc && !s.pc[t].Idle?
    ensures Do(s, a).pc[t] == s.pc[t]
  {
  }

  /** One step of a try_get that finds the head not null. */
  lemma GoesOn(s: State, t: Thread)
    requires Typed(s) && t in s.pc && InTryGet(s.pc[t]) && !SawNull(s.pc[t]) && s.head.Some?
    requires forall n :: !HandsOut(s, Step(t), n)
    ensures var p := Do(s, Step(t)).pc[t]; InTryGet(p) && !SawNull(p)
  {
    if s.pc[t].DropBoth? { assert HandsOut(s, Step(t), s.pc[t].node); }
  }

  /** A run from its second action on. */
  lemma Later(s: State, schedule: seq<Action>, m: nat)
    requires Typed(s) && schedule != [] && m < |schedule|
    ensures var r := if Enabled(s, schedule[0]) then Do(s, schedule[0]) else s;
      After(r, schedule[1..], m) == After(s, schedule, m + 1) && Run(r, schedule[1..]) == Run(s, schedule)
  {
    hide Do, Enabled, Typed;
    assert schedule[..m + 1][1..] == schedule[1..][..m] && schedule[..m + 1][0] == schedule[0];
  }

  lemma Rest(s: State, schedule: seq<Action>, t: Thread)
    requires Typed(s) && t in s.pc && schedule != []
    ensures var r := if Enabled(s, schedule[0]) then Do(s, schedule[0]) else s;
      && (BusyUntilEnd(s, schedule, t) ==> BusyUntilEnd(r, schedule[1..], t))
      && (GetsNothing(s, schedule, t) ==> GetsNothing(r, schedule[1..], t))
  {
    hide Do, Enabled, Typed, Emits, After, HandsOut;
    var r, rest := if Enabled(s, schedule[0]) then Do(s, schedule[0]) else s, schedule[1..];
    forall m | 0 <= m < |rest| ensures After(r, rest, m) == After(s, schedule, m + 1) && rest[m] == schedule[m + 1] {
      Later(s, schedule, m);
    }
  }

  lemma Now(s: State, schedule: seq<Action>, t: Thread)
    requires Typed(s) && t in s.pc && schedule != []
    ensures BusyUntilEnd(s, schedule, t) ==> !s.pc[t].Idle?
    ensures GetsNothing(s, schedule, t) && schedule[0] == Step(t) && Enabled(s, Step(t)) ==> forall n :: !HandsOut(s, Step(t), n)
    ensures After(s, schedule, 0) == s
  {
    hide Typed, Do, Enabled, HandsOut;
    assert schedule[..0] == [];
    assert After(s, schedule, 0) == s;
  }

  lemma {:induction false} NullSeen(s: State, schedule: seq<Action>, t: Thread) returns (k: nat)
    requires Typed(s) && t in s.pc && InTryGet(s.pc[t]) && !SawNull(s.pc[t])
    requires BusyUntilEnd(s, schedule, t) && Run(s, schedule).pc[t].Idle? && GetsNothing(s, schedule, t)
    ensures k <= |schedule| && After(s, schedule, k).head.None?
    decreases |schedule|
  {
    k := 0;
    hide Do, Enabled, Emits, BusyUntilEnd, GetsNothing, Typed, HandsOut, SawNull;
    if schedule != [] {
      Now(s, schedule, t);
      if s.head.Some? {
        var a := schedule[0];
        if Enabled(s, a) {
          if a == Step(t) {
            GoesOn(s, t);
          } else {
            OtherSteps(s, a, t);
          }
        }
        Rest(s, schedule, t);
        var r := if Enabled(s, a) then Do(s, a) else s;
        Later(s, schedule, 0);
        hide After, Run, InTryGet;
        var l := NullSeen(r, schedule[1..], t);
        k := l + 1;
        LaterOrEnd(s, schedule, l);
      }
    }
  }

  lemma LaterOrEnd(s: State, schedule: seq<Action>, m: nat)
    requires Typed(s) && schedule != [] && m <= |schedule[1..]|
    ensures var r := if Enabled(s, schedule[0]) then Do(s, schedule[0]) else s;
      After(r, schedule[1..], m) == After(s, schedule, m + 1)
  {
    hide Do, Enabled, Typed;
    if m < |schedule[1..]| {
      Later(s, schedule, m);
    } else {
      assert schedule[..m + 1] == schedule && schedule[1..][..m] == schedule[1..];
    }
  }

  /** A call of try_get that begins with action i of the schedule and has ended after action j - 1. */
  predicate IsCall(s: State, schedule: seq<Action>, t: Thread, i: nat, j: nat)
    requires Typed(s) && t in s.pc
  {
    && i < j <= |schedule| && schedule[i] == TryGet(t) && Enabled(After(s, schedule, i), schedule[i])
    && (forall m | i < m < j :: !After(s, schedule, m).pc[t].Idle?)
    && After(s, schedule, j).pc[t].Idle?
  }

  lemma AfterParts(s: State, schedule: seq<Action>, i: nat, j: nat, m: nat)
    requires Typed(s) && i <= j <= |schedule| && m <= j - i
    ensures After(After(s, schedule, i), schedule[i..j], m) == After(s, schedule, i + m)
  {
    hide Typed;
    assert schedule[..i] + schedule[i..j][..m] == schedule[..i + m];
    RunConcat(s, schedule[..i], schedule[i..j][..m]);
  }

  lemma CallBegins(s: State, schedule: seq<Action>, t: Thread, i: nat)
    requires Typed(s) && t in s.pc && i < |schedule| && schedule[i] == TryGet(t) && Enabled(After(s, schedule, i), schedule[i])
    ensures After(s, schedule, i + 1).pc[t] == ReadHead
  {
    hide Typed;
    assert schedule[..i + 1] == schedule[..i] + [schedule[i]];
    RunConcat(s, schedule[..i], [schedule[i]]);
    assert [schedule[i]][1..] == [];
  }

  lemma WholeRun(s: State, schedule: seq<Action>)
    requires Typed(s)
    ensures Run(s, schedule) == After(s, schedule, |schedule|)
  {
    hide Typed, Run;
    assert schedule[..|schedule|] == schedule;
  }

  /** The call, up to action e - 1. */
  lemma CallFrom(s: State, schedule: seq<Action>, t: Thread, i: nat, j: nat, e: nat)
    requires Typed(s) && t in s.pc && IsCall(s, schedule, t, i, j) && i < e <= j
    ensures j <= |schedule|
    ensures var x, rest := After(s, schedule, i + 1), schedule[i + 1..e];
      && x.pc[t] == ReadHead && BusyUntilEnd(x, rest, t) && Run(x, rest) == After(s, schedule, e)
      && (forall m | 0 <= m <= |rest| :: After(x, rest, m) == After(s, schedule, i + 1 + m))
      && forall m | 0 <= m < |rest| :: rest[m] == schedule[i + 1 + m]
  {
    CallBegins(s, schedule, t, i);
    hide Typed, Enabled, Run;
    var x, rest := After(s, schedule, i + 1), schedule[i + 1..e];
    forall m | 0 <= m <= |rest| ensures After(x, rest, m) == After(s, schedule, i + 1 + m) {
      AfterParts(s, schedule, i + 1, e, m);
    }
    assert rest[..|rest|] == rest;
    assert Run(x, rest) == After(x, rest, |rest|) by { WholeRun(x, rest); }
    hide After;
    forall m | 0 <= m < |rest| ensures !After(x, rest, m).pc[t].Idle? {
      assert i < i + 1 + m < j;
    }
  }

  /** Whatever the others do: a try_get that returns without a node found the list empty at some time
      during the call. */
  lemma NullMeansEmpty(s: State, schedule: seq<Action>, t: Thread, i: nat, j: nat) returns (k: nat)
    requires Initial(s) && t in s.pc && IsCall(s, schedule, t, i, j)
    requires forall m, n | i < m < j && schedule[m] == Step(t) :: !HandsOut(After(s, schedule, m), schedule[m], n)
    ensures i < k <= j && After(s, schedule, k).head.None?
  {
    assert Typed(s);
    hide Typed, Initial, After, HandsOut, BusyUntilEnd, Run;
    CallFrom(s, schedule, t, i, j, j);
    var l := NullSeen(After(s, schedule, i + 1), schedule[i + 1..j], t);
    k := i + 1 + l;
  }

  // ---- A node was the head -----------------------------------------------------------------

  /** The call has taken node n off the list. */
  predicate Popped(p: Pc, n: Node) { (p.CheckRefs? || p.DropBoth?) && p.node == n }

  lemma PopStep(s: State, a: Action, t: Thread, n: Node)
    requires Typed(s) && Enabled(s, a) && t in s.pc && InTryGet(s.pc[t]) && !Popped(s.pc[t], n) && Popped(Do(s, a).pc[t], n)
    ensures a == Step(t) && s.pc[t].PopHead? && s.pc[t].node == n && s.head == Some(n)
  {
    if a != Step(t) { OtherSteps(s, a, t); }
  }

  lemma StaysInCall(s: State, t: Thread)
    requires Typed(s) && t in s.pc && InTryGet(s.pc[t]) && Enabled(s, Step(t)) && !Do(s, Step(t)).pc[t].Idle?
    ensures InTryGet(Do(s, Step(t)).pc[t])
  {
  }

  lemma {:induction false} PopSeen(s: State, schedule: seq<Action>, t: Thread, n: Node) returns (k: nat)
    requires Typed(s) && t in s.pc && InTryGet(s.pc[t]) && !Popped(s.pc[t], n)
    requires BusyUntilEnd(s, schedule, t) && Popped(Run(s, schedule).pc[t], n)
    ensures k < |schedule| && schedule[k] == Step(t)
    ensures var x := After(s, schedule, k);
      && Enabled(x, Step(t)) && x.pc[t].PopHead? && x.pc[t].node == n && x.head == Some(n)
      && After(s, schedule, k + 1) == Do(x, Step(t))
    decreases |schedule|
  {
    hide Do, Enabled, Typed, BusyUntilEnd, InTryGet;
    assert schedule != [];
    var a := schedule[0];
    var r := if Enabled(s, a) then Do(s, a) else s;
    Now(s, schedule, t);
    Later(s, schedule, 0);
    assert After(r, schedule[1..], 0) == r by { assert schedule[1..][..0] == []; }
    if Popped(r.pc[t], n) {
      PopStep(s, a, t, n);
      k := 0;
    } else {
      Rest(s, schedule, t);
      NotYetEnded(r, schedule[1..], t, n);
      if Enabled(s, a) {
        if a == Step(t) { StaysInCall(s, t); } else { OtherSteps(s, a, t); }
      }
      hide Popped, After, Run;
      var l := PopSeen(r, schedule[1..], t, n);
      k := l + 1;
      LaterOrEnd(s, schedule, l);
      LaterOrEnd(s, schedule, l + 1);
    }
  }

  lemma NotYetEnded(r: State, schedule: seq<Action>, t: Thread, n: Node)
    requires Typed(r) && t in r.pc && BusyUntilEnd(r, schedule, t) && Popped(Run(r, schedule).pc[t], n)
    ensures !r.pc[t].Idle?
  {
    hide Typed, BusyUntilEnd, Do, Enabled;
    if schedule != [] { Now(r, schedule, t); }
  }

  lemma NextOfHead(x: State, list: seq<Node>, t: Thread)
    requires Inv(x, list) && t in x.pc && x.pc[t].PopHead? && x.head == Some(x.pc[t].node)
    ensures x.pc[t].node in x.next && Do(x, Step(t)).head == x.next[x.pc[t].node]
  {
    assert Remembers(x, x.pc[t]);
  }

  lemma HandedIsPopped(x: State, t: Thread, n: Node)
    requires t in x.pc && HandsOut(x, Step(t), n)
    ensures Popped(x.pc[t], n)
  {
  }

  lemma AfterKeeps(s: State, schedule: seq<Action>, k: nat) returns (list: seq<Node>)
    requires Initial(s)
    ensures Inv(After(s, schedule, k), list)
  {
    InitialInv(s);
    hide Initial, Inv, Run;
    list := RunKeeps(s, [], if k <= |schedule| then schedule[..k] else schedule);
  }

  lemma CallPops(s: State, schedule: seq<Action>, t: Thread, i: nat, j: nat, n: Node) returns (k: nat)
    requires Typed(s) && t in s.pc && IsCall(s, schedule, t, i, j) && i < j - 1
    requires Popped(After(s, schedule, j - 1).pc[t], n)
    ensures i < k < j <= |schedule| && schedule[k] == Step(t)
    ensures var x := After(s, schedule, k);
      && Enabled(x, Step(t)) && x.pc[t].PopHead? && x.pc[t].node == n && x.head == Some(n)
      && After(s, schedule, k + 1) == Do(x, Step(t))
  {
    hide Typed, After, BusyUntilEnd, Run, Enabled, Do, IsCall;
    CallFrom(s, schedule, t, i, j, j - 1);
    var rest := schedule[i + 1..j - 1];
    var l := PopSeen(After(s, schedule, i + 1), rest, t, n);
    k := i + 1 + l;
    assert rest[l] == schedule[k];
  }

  /** The node that a try_get returns was the head at some time during the call, and the call itself then
      made the next node the head. */
  lemma GotWasTheHead(s: State, schedule: seq<Action>, t: Thread, i: nat, j: nat, n: Node) returns (k: nat)
    requires Initial(s) && t in s.pc && IsCall(s, schedule, t, i, j)
    requires i < j - 1 && HandsOut(After(s, schedule, j - 1), Step(t), n)
    ensures i < k < j <= |schedule| && schedule[k] == Step(t)
    ensures var x := After(s, schedule, k);
      x.head == Some(n) && n in x.next && After(s, schedule, k + 1).head == x.next[n]
  {
    assert Typed(s);
    hide Typed, Initial, After, Run, Enabled, Do, Inv, IsCall;
    HandedIsPopped(After(s, schedule, j - 1), t, n);
    hide HandsOut;
    k := CallPops(s, schedule, t, i, j, n);
    var list := AfterKeeps(s, schedule, k);
    NextOfHead(After(s, schedule, k), list, t);
  }

  // ---- A call that is left alone ends ------------------------------------------------------

  /** What a thread that goes on with this head has before it: the head itself it can take; of another node
      of the list it finds that it is not the head; of any other it may have to put that back first. */
  ghost function LoopRank(s: State, list: seq<Node>, head: Option<Node>): nat {
    if head.None? then 0 else if s.head == head then 6 else if head.value in list then 11 else 20
  }

  ghost function BackRank(list: seq<Node>, b: Return): nat {
    match b
    case ToAdd => 0
    case ToTryGet(head) => if head.None? then 0 else if head.value in list then 11 else 20
  }

  /** How many steps the thread takes at most if it is left alone. */
  ghost function Rank(s: State, list: seq<Node>, p: Pc): nat {
    match p
    case Idle => 0
    case MarkRefs(n) => 5
    case LoadHead(n, b) => 4 + BackRank(list, b)
    case StoreNext(n, h, b) => (if h == s.head then 3 else 7) + BackRank(list, b)
    case StoreRefs(n, h, b) => (if h == s.head then 2 else 6) + BackRank(list, b)
    case PushHead(n, h, b) => (if h == s.head then 1 else 5) + BackRank(list, b)
    case UnpushRefs(n, h, b) => (if h == s.head then 4 else 8) + BackRank(list, b)
    case ReadHead => 7
    case ReadRefs(n) => LoopRank(s, list, Some(n))
    case ClaimRefs(n, r) => if n in s.refs && s.refs[n] != r then 8 else LoopRank(s, list, Some(n)) - 1
    case ReadNext(n) => LoopRank(s, list, Some(n)) - 2
    case PopHead(n, x) => LoopRank(s, list, Some(n)) - 3
    case CheckRefs(n) => 2
    case DropBoth(n) => 1
    case DropOne(n, h) => if n in s.refs && s.refs[n] == SHOULD_BE_ON_FREELIST + 1 then 5 + BackRank(list, ToTryGet(h)) else 1 + LoopRank(s, list, h)
  }

  lemma HeadIsListed(s: State, list: seq<Node>)
    requires Inv(s, list) && s.head.Some?
    ensures list != [] && list[0] == s.head.value
  {
  }

  /** The word of a node on the list counts the list, and is not marked. */
  lemma ListedRefs(s: State, list: seq<Node>, n: Node)
    requires Inv(s, list) && n in list && n in s.refs
    ensures s.refs[n] % (REFS_MASK + 1) != 0 && s.refs[n] != SHOULD_BE_ON_FREELIST + 1
  {
    assert NodeOk(s, list, n);
    HoldersBounded(s, n);
    hide Holders, Carried, Chain;
  }

  lemma AddLowers(s: State, list: seq<Node>, t: Thread)
    requires Inv(s, list) && t in s.pc && InAdd(s.pc[t])
    ensures var r := Advance(s, t); t in r.pc && Rank(r, ListAfter(s, list, t), r.pc[t]) < Rank(s, list, s.pc[t])
  {
    assert PcTyped(s.refs.Keys, s.pc[t]);
    hide FetchAdd, Inv, Typed;
  }

  lemma GetLowers(s: State, list: seq<Node>, t: Thread)
    requires Inv(s, list) && t in s.pc && !InAdd(s.pc[t]) && !s.pc[t].Idle?
    ensures var r := Advance(s, t); t in r.pc && Rank(r, ListAfter(s, list, t), r.pc[t]) < Rank(s, list, s.pc[t])
  {
    var p := s.pc[t];
    assert PcTyped(s.refs.Keys, p);
    if s.head.Some? { HeadIsListed(s, list); }
    if !p.ReadHead? && p.node in list { ListedRefs(s, list, p.node); }
    hide FetchAdd, Inv, Typed;
  }

  /** One step of a thread on its own. */
  lemma StepLowers(s: State, list: seq<Node>, t: Thread) returns (list': seq<Node>)
    requires Inv(s, list) && t in s.pc && !s.pc[t].Idle?
    ensures var r := Advance(s, t);
      && Inv(r, list') && t in r.pc && Rank(r, list', r.pc[t]) < Rank(s, list, s.pc[t])
  {
    list' := StepKeeps(s, list, t);
    if InAdd(s.pc[t]) { AddLowers(s, list, t); } else { GetLowers(s, list, t); }
    hide Inv, Rank, ListAfter, Advance;
  }

  lemma RankIsBounded(s: State, list: seq<Node>, p: Pc)
    ensures Rank(s, list, p) <= 28
  {
  }

  lemma {:induction false} AloneEnds(s: State, list: seq<Node>, t: Thread) returns (n: nat)
    requires Inv(s, list) && t in s.pc
    ensures n <= Rank(s, list, s.pc[t]) && Alone(s, t, n).pc[t].Idle?
    decreases Rank(s, list, s.pc[t])
  {
    assert Typed(s);
    n := 0;
    if !s.pc[t].Idle? {
      var list' := StepLowers(s, list, t);
      AdvanceTyped(s, t);
      hide Inv, Rank, Advance, Typed;
      var m := AloneEnds(Advance(s, t), list', t);
      n := m + 1;
    }
  }

  /** From whatever state a run has come to, a call that is in progress ends after at most 28 steps of its
      own if the others pause: no state is a dead end, and no thread has to wait for another. */
  lemma CallsEndAlone(s: State, schedule: seq<Action>, t: Thread) returns (n: nat)
    requires Initial(s) && t in s.pc
    ensures n <= 28 && Alone(Run(s, schedule), t, n).pc[t].Idle?
  {
    InitialInv(s);
    hide Initial, Inv, Run, Rank;
    var list := RunKeeps(s, [], schedule);
    var r := Run(s, schedule);
    n := AloneEnds(r, list, t);
    RankIsBounded(r, list, r.pc[t]);
  }
}
