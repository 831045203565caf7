/**
 What one dequeue gets while others dequeue as well: how much it bids for, takes and gives back follows from
 what its loads returned and from where its bid came in the order of the bids.
 */
module DequeueCalls {
  import opened Options
  import opened DequeueCounters

  // ---- The records of a call ---------------------------------------------------------------

  /** One operation of a consumer: what it returned if it is a load, the optimistic count before it, what it
      added to the two counts, and what it took away. */
  datatype Record = Record(value: nat, before: nat, bid: int, back: int, took: nat)

  function RecordOf(s: State, a: Action): Record
    requires a.Step? && Enabled(s, a)
  {
    var r, e := Do(s, a), Emits(s, a);
    Record(a.seen, s.optimistic, r.optimistic - s.optimistic, r.overcommit - s.overcommit, if e == [] then 0 else e[0].count)
  }

  function Next(s: State, a: Action): State { if Enabled(s, a) then Do(s, a) else s }

  /** The operations of consumer t in a run. */
  function Records(s: State, schedule: seq<Action>, t: Thread): seq<Record>
    decreases |schedule|
  {
    if schedule == [] then []
    else
      var a := schedule[0];
      (if a.Step? && a.t == t && Enabled(s, a) then [RecordOf(s, a)] else []) + Records(Next(s, a), schedule[1..], t)
  }

  function After(s: State, schedule: seq<Action>, k: nat): State {
    Run(s, if k <= |schedule| then schedule[..k] else schedule)
  }

  /** Consumer t is busy in every state before the end of the schedule, and idle there. */
  predicate IsBusy(s: State, schedule: seq<Action>, t: Thread) {
    && (forall m | 0 <= m < |schedule| :: t in After(s, schedule, m).pc && !After(s, schedule, m).pc[t].Idle?)
    && t in Run(s, schedule).pc && Run(s, schedule).pc[t].Idle?
  }

  function Bids(rs: seq<Record>): int { if rs == [] then 0 else rs[0].bid + Bids(rs[1..]) }

  function Backs(rs: seq<Record>): int { if rs == [] then 0 else rs[0].back + Backs(rs[1..]) }

  function Takes(rs: seq<Record>): int { if rs == [] then 0 else rs[0].took + Takes(rs[1..]) }

  /** So many of the items bid for are there: the part of the bid that lies below the tail. */
  function There(bid: nat, from: int, tail: int): nat {
    if tail <= from then 0 else if from + bid <= tail then bid else tail - from
  }

  /** How many operations a call has before it at most. */
  function StepsLeft(p: Pc): nat {
    match p
    case Idle => 0 case Take(_) => 1 case GiveBack(_, _) => 2 case ReloadTail(_, _, _) => 3
    case Bid(_, _) => 4 case LoadOptimistic(_, _, _) => 5 case LoadOvercommit(_, _) => 6
  }

  /** From position p on: what is given back and taken in the end, and what is bid for. */
  ghost predicate EndsAs(p: Pc, rs: seq<Record>) {
    && |rs| <= StepsLeft(p)
    && match p
       case Idle => rs == []
       case Take(n) => Bids(rs) == 0 && Backs(rs) == 0 && Takes(rs) == n
       case GiveBack(e, n) => Bids(rs) == 0 && Backs(rs) == e && Takes(rs) == n
       case ReloadTail(d, over, mine) =>
         && rs != [] && Bids(rs) == 0
         && var n := There(d, mine - over, rs[0].value); Backs(rs) == d - n && Takes(rs) == n
       case Bid(d, over) =>
         && |rs| >= 2 && rs[0].bid == d && Bids(rs) == d
         && var n := There(d, rs[0].before - over, rs[1].value); Backs(rs) == d - n && Takes(rs) == n
       case LoadOptimistic(max, tail, over) =>
         && rs != [] && rs[0].bid == 0
         && var left := tail - (rs[0].value - over);
            if left <= 0 then Bids(rs) == 0 && Backs(rs) == 0 && Takes(rs) == 0
            else
              && |rs| >= 3 && rs[1].bid == Min(left, max) && Bids(rs) == Min(left, max)
              && var n := There(Min(left, max), rs[1].before - over, rs[2].value); Backs(rs) == Min(left, max) - n && Takes(rs) == n
       case LoadOvercommit(max, tail) =>
         && |rs| >= 2 && rs[0].bid == rs[1].bid == 0
         && var left := tail - (rs[1].value - rs[0].value);
            if left <= 0 then Bids(rs) == 0 && Backs(rs) == 0 && Takes(rs) == 0
            else
              && |rs| >= 4 && rs[2].bid == Min(left, max) && Bids(rs) == Min(left, max)
              && var n := There(Min(left, max), rs[2].before - rs[0].value, rs[3].value); Backs(rs) == Min(left, max) - n && Takes(rs) == n
  }

  lemma SumsOf(r: Record, rs: seq<Record>)
    ensures var all := [r] + rs;
      && all[1..] == rs && Bids(all) == r.bid + Bids(rs) && Backs(all) == r.back + Backs(rs) && Takes(all) == r.took + Takes(rs)
    ensures Bids([]) == Backs([]) == Takes([]) == 0
  {
    assert ([r] + rs)[1..] == rs;
  }

  lemma OwnLoad(s: State, a: Action, t: Thread, rs: seq<Record>)
    requires a.Step? && a.t == t && Enabled(s, a) && EndsAs(Do(s, a).pc[t], rs)
    requires s.pc[t].LoadOvercommit? || s.pc[t].LoadOptimistic?
    ensures EndsAs(s.pc[t], [RecordOf(s, a)] + rs)
  {
    SumsOf(RecordOf(s, a), rs);
    hide Bids, Backs, Takes;
  }

  lemma OwnBid(s: State, a: Action, t: Thread, rs: seq<Record>)
    requires a.Step? && a.t == t && Enabled(s, a) && EndsAs(Do(s, a).pc[t], rs)
    requires s.pc[t].Bid? || s.pc[t].ReloadTail?
    ensures EndsAs(s.pc[t], [RecordOf(s, a)] + rs)
  {
    SumsOf(RecordOf(s, a), rs);
    hide Bids, Backs, Takes;
  }

  lemma OwnEnd(s: State, a: Action, t: Thread, rs: seq<Record>)
    requires a.Step? && a.t == t && Enabled(s, a) && EndsAs(Do(s, a).pc[t], rs)
    requires s.pc[t].GiveBack? || s.pc[t].Take?
    ensures EndsAs(s.pc[t], [RecordOf(s, a)] + rs)
  {
    SumsOf(RecordOf(s, a), rs);
    hide Bids, Backs, Takes;
  }

  lemma OwnStep(s: State, a: Action, t: Thread, rs: seq<Record>)
    requires a.Step? && a.t == t && Enabled(s, a) && EndsAs(Do(s, a).pc[t], rs)
    ensures EndsAs(s.pc[t], [RecordOf(s, a)] + rs)
  {
    hide EndsAs, Do, RecordOf;
    match s.pc[t] {
      case LoadOvercommit(_, _) => OwnLoad(s, a, t, rs);
      case LoadOptimistic(_, _, _) => OwnLoad(s, a, t, rs);
      case Bid(_, _) => OwnBid(s, a, t, rs);
      case ReloadTail(_, _, _) => OwnBid(s, a, t, rs);
      case GiveBack(_, _) => OwnEnd(s, a, t, rs);
      case Take(_) => OwnEnd(s, a, t, rs);
      case Idle =>
    }
  }

  lemma OtherStep(s: State, a: Action, t: Thread)
    requires Enabled(s, a) && t in s.pc && !s.pc[t].Idle? && !(a.Step? && a.t == t)
    ensures t in Do(s, a).pc && Do(s, a).pc[t] == s.pc[t]
  {
  }

  lemma Later(s: State, schedule: seq<Action>, m: nat)
    requires schedule != [] && m < |schedule|
    ensures After(Next(s, schedule[0]), schedule[1..], m) == After(s, schedule, m + 1)
    ensures Run(Next(s, schedule[0]), schedule[1..]) == Run(s, schedule)
  {
    hide Do, Enabled;
    assert schedule[..m + 1][1..] == schedule[1..][..m] && schedule[..m + 1][0] == schedule[0];
  }

  lemma RestIsBusy(s: State, schedule: seq<Action>, t: Thread)
    requires schedule != [] && IsBusy(s, schedule, t)
    ensures t in s.pc && !s.pc[t].Idle? && IsBusy(Next(s, schedule[0]), schedule[1..], t)
  {
    hide After, Next, Run;
    assert After(s, schedule, 0) == s by { assert schedule[..0] == []; AtStart(s, schedule); }
    var r, rest := Next(s, schedule[0]), schedule[1..];
    forall m | 0 <= m < |rest| ensures t in After(r, rest, m).pc && !After(r, rest, m).pc[t].Idle? {
      Later(s, schedule, m);
    }
    Later(s, schedule, 0);
  }

  lemma AtStart(s: State, schedule: seq<Action>)
    ensures After(s, schedule, 0) == s
  {
    assert schedule[..0] == [];
  }

  lemma {:induction false} CallEnds(s: State, schedule: seq<Action>, t: Thread)
    requires t in s.pc && IsBusy(s, schedule, t)
    ensures EndsAs(s.pc[t], Records(s, schedule, t))
    decreases |schedule|
  {
    hide EndsAs, Do, RecordOf;
    if schedule == [] {
      assert EndsAs(Idle, []) by { NothingLeft(); }
    } else {
      var a := schedule[0];
      RestIsBusy(s, schedule, t);
      var rest := Records(Next(s, a), schedule[1..], t);
      if Enabled(s, a) {
        if a.Step? && a.t == t {
          assert t in Do(s, a).pc by { StaysThere(s, a, t); }
          hide IsBusy;
          CallEnds(Next(s, a), schedule[1..], t);
          OwnStep(s, a, t, rest);
        } else {
          OtherStep(s, a, t);
          hide IsBusy;
          CallEnds(Next(s, a), schedule[1..], t);
          assert [] + rest == rest;
        }
      } else {
        hide IsBusy;
        CallEnds(s, schedule[1..], t);
        assert [] + rest == rest;
      }
    }
  }

  lemma NothingLeft()
    ensures EndsAs(Idle, [])
  {
  }

  lemma StaysThere(s: State, a: Action, t: Thread)
    requires Enabled(s, a) && t in s.pc
    ensures t in Do(s, a).pc
  {
  }

  /** A whole call, in any interleaving: with `tail`, `over` and `count` what its first three loads returned, it
      bids for what seems to be left, at most max; with m the count before its bid and `now` the tail that it
      loaded then, it takes the part of its bid that lies below that tail, and gives the rest back. */
  lemma DequeueTakesItsShare(s: State, t: Thread, max: nat, tail: nat, schedule: seq<Action>)
    requires Enabled(s, Dequeue(t, max, tail)) && IsBusy(Do(s, Dequeue(t, max, tail)), schedule, t)
    ensures var rs := Records(Do(s, Dequeue(t, max, tail)), schedule, t);
      && 2 <= |rs| <= 6
      && var over, count := rs[0].value, rs[1].value;
         var left := tail - (count - over);
         if left <= 0 then Bids(rs) == 0 && Backs(rs) == 0 && Takes(rs) == 0
         else
           && |rs| >= 4 && Bids(rs) == rs[2].bid == Min(left, max)
           && var d, m, now, n := Bids(rs), rs[2].before, rs[3].value, Takes(rs);
              && Backs(rs) == d - n && 0 <= n <= d
              && (n == d || (n > 0 && m - over + n == now) || (n == 0 && now <= m - over))
              && (n == d ==> m - over + n <= now || d == 0)
  {
    var r := Do(s, Dequeue(t, max, tail));
    CallEnds(r, schedule, t);
    hide Records, IsBusy, Bids, Backs, Takes;
  }
}
