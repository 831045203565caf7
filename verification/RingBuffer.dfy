/**
 The bounded queue between one producer and one consumer: a ring of slots and two indices. Every load
 and store is a step. Each index is the list of the values stored in it, and a load by the other side may
 see any of them that is not older than what that side saw before.
 */
module RingBuffer {

  // ---- The machine -------------------------------------------------------------------------

  /** The producer: at rest, with its own index loaded, sure of room, or with the item in its slot. */
  datatype Producer<T> = Resting | Begun(item: T, curr: nat) | Writing(item: T, curr: nat, next: nat) | Written(item: T, next: nat)

  /** The consumer: at rest, with its own index loaded, sure of an item, or with the item read. */
  datatype Consumer<T> = Resting | Begun(curr: nat) | Reading(curr: nat) | Taken(item: T, curr: nat)

  /** `tails` and `heads` are the values stored in the two indices, `headSeen` and `tailSeen` the last ones
      the other side loaded; `pushed` and `popped` are what push accepted and what pop delivered. */
  datatype State<T> = State(slots: seq<T>, tails: seq<nat>, heads: seq<nat>, headSeen: nat, tailSeen: nat,
                            producer: Producer<T>, consumer: Consumer<T>, pushed: seq<T>, popped: seq<T>)

  /** Push and Pop begin a call; Produce and Consume take its next step, a load of the other side's
      index seeing the value stored there at `view`. */
  datatype Action<T> = Push(item: T) | Produce(view: nat) | Pop | Consume(view: nat)

  /** _forward. */
  function Forward(i: nat, c: nat): (j: nat)
    requires i < c
    ensures j < c && (j == i + 1 || (j == 0 && i + 1 == c))
  {
    Next(i, c);
    (i + 1) % c
  }

  lemma Next(i: nat, c: nat)
    requires i < c
    ensures (i + 1) % c == if i + 1 == c then 0 else i + 1
  {
  }

  function Produced<T>(s: State<T>, view: nat): State<T> {
    var c := |s.slots|;
    match s.producer
    case Resting => s
    case Begun(x, curr) =>
      if curr < c && s.headSeen <= view < |s.heads| then
        var next := Forward(curr, c);
        s.(headSeen := view, producer := if next != s.heads[view] then Writing(x, curr, next) else Producer.Resting)
      else s
    case Writing(x, curr, next) =>
      if curr < c then s.(slots := s.slots[curr := x], producer := Written(x, next)) else s
    case Written(x, next) => s.(tails := s.tails + [next], producer := Producer.Resting, pushed := s.pushed + [x])
  }

  function Consumed<T>(s: State<T>, view: nat): State<T> {
    var c := |s.slots|;
    match s.consumer
    case Resting => s
    case Begun(curr) =>
      if s.tailSeen <= view < |s.tails| then
        s.(tailSeen := view, consumer := if curr == s.tails[view] then Consumer.Resting else Reading(curr))
      else s
    case Reading(curr) => if curr < c then s.(consumer := Taken(s.slots[curr], curr)) else s
    case Taken(x, curr) =>
      if curr < c then
        s.(heads := s.heads + [Forward(curr, c)], consumer := Consumer.Resting, popped := s.popped + [x])
      else s
  }

  function Do<T>(s: State<T>, a: Action<T>): State<T> {
    match a
    case Push(x) => if s.producer.Resting? && s.tails != [] then s.(producer := Producer.Begun(x, s.tails[|s.tails| - 1])) else s
    case Produce(view) => Produced(s, view)
    case Pop => if s.consumer.Resting? && s.heads != [] then s.(consumer := Consumer.Begun(s.heads[|s.heads| - 1])) else s
    case Consume(view) => Consumed(s, view)
  }

  function Run<T>(s: State<T>, schedule: seq<Action<T>>): State<T>
    decreases |schedule|
  {
    if schedule == [] then s else Run(Do(s, schedule[0]), schedule[1..])
  }

  predicate Fresh<T>(s: State<T>) {
    |s.slots| > 0 && s.tails == [0] && s.heads == [0] && s.headSeen == 0 && s.tailSeen == 0
    && s.producer.Resting? && s.consumer.Resting? && s.pushed == [] && s.popped == []
  }

  // ---- Places round the ring ---------------------------------------------------------------

  /** The slot of item k. */
  function At(k: nat, c: nat): (i: nat)
    requires c > 0
    ensures i < c
  {
    if k == 0 then 0 else Forward(At(k - 1, c), c)
  }

  /** Going on for less than a round. */
  lemma {:induction false} AtPlus(k: nat, d: nat, c: nat)
    requires d < c
    ensures At(k + d, c) == if At(k, c) + d < c then At(k, c) + d else At(k, c) + d - c
  {
    if d > 0 {
      AtPlus(k, d - 1, c);
      assert At(k + d, c) == Forward(At(k + (d - 1), c), c);
    }
  }

  /** Within a round every item has a slot of its own. */
  lemma Apart(i: nat, j: nat, c: nat)
    requires i < j < i + c
    ensures At(i, c) != At(j, c)
  {
    AtPlus(i, j - i, c);
  }

  lemma FullCircle(k: nat, c: nat)
    requires c > 0
    ensures At(k + c, c) == At(k, c)
  {
    AtPlus(k, c - 1, c);
    assert At(k + c, c) == Forward(At(k + (c - 1), c), c);
  }

  // ---- The invariant -----------------------------------------------------------------------

  ghost predicate Counted<T>(s: State<T>) {
    var c, n, m := |s.slots|, |s.pushed|, |s.popped|;
    && c > 0
    && |s.tails| == n + 1 && |s.heads| == m + 1
    && (forall k :: 0 <= k <= n ==> s.tails[k] == At(k, c))
    && (forall k :: 0 <= k <= m ==> s.heads[k] == At(k, c))
    && s.headSeen <= m <= s.tailSeen <= n < s.headSeen + c
  }

  /** The slots from head to tail hold what was pushed and not yet popped. */
  ghost predicate Held<T>(s: State<T>)
    requires |s.slots| > 0
  {
    && s.popped <= s.pushed
    && (forall k :: |s.popped| <= k < |s.pushed| ==> s.slots[At(k, |s.slots|)] == s.pushed[k])
  }

  ghost predicate ProducerKnows<T>(s: State<T>)
    requires |s.slots| > 0
  {
    var c, n := |s.slots|, |s.pushed|;
    match s.producer
    case Resting => true
    case Begun(x, curr) => curr == At(n, c)
    case Writing(x, curr, next) => curr == At(n, c) && next == At(n + 1, c) && n + 1 < s.headSeen + c
    case Written(x, next) => next == At(n + 1, c) && n + 1 < s.headSeen + c && s.slots[At(n, c)] == x
  }

  ghost predicate ConsumerKnows<T>(s: State<T>)
    requires |s.slots| > 0
  {
    var c, m := |s.slots|, |s.popped|;
    match s.consumer
    case Resting => true
    case Begun(curr) => curr == At(m, c)
    case Reading(curr) => curr == At(m, c) && m < s.tailSeen
    case Taken(x, curr) => curr == At(m, c) && m < s.tailSeen && m < |s.pushed| && x == s.pushed[m]
  }

  ghost predicate Inv<T>(s: State<T>) { Counted(s) && Held(s) && ProducerKnows(s) && ConsumerKnows(s) }

  lemma AtNext(k: nat, c: nat)
    requires c > 0
    ensures At(k + 1, c) == Forward(At(k, c), c)
  {
  }

  lemma PushSees<T>(s: State<T>, view: nat)
    requires Inv(s) && s.producer.Begun?
    ensures Inv(Produced(s, view))
  {
    var c, n := |s.slots|, |s.pushed|;
    AtNext(n, c);
    if s.headSeen <= view < |s.heads| && n + 1 == view + c { FullCircle(view, c); }
    hide At, Forward;
  }

  lemma PushWrites<T>(s: State<T>, view: nat)
    requires Inv(s) && s.producer.Writing?
    ensures Inv(Produced(s, view))
  {
    var c, n, m := |s.slots|, |s.pushed|, |s.popped|;
    forall k | m <= k < n ensures At(k, c) != At(n, c) { Apart(k, n, c); }
    hide At, Forward;
  }

  lemma PushStores<T>(s: State<T>, view: nat)
    requires Inv(s) && s.producer.Written?
    ensures Inv(Produced(s, view))
  {
    hide At, Forward;
  }

  lemma ProducedKeeps<T>(s: State<T>, view: nat)
    requires Inv(s)
    ensures Inv(Produced(s, view)) && |Produced(s, view).slots| == |s.slots|
  {
    match s.producer
    case Resting =>
    case Begun(_, _) => PushSees(s, view); hide At, Forward, Inv;
    case Writing(_, _, _) => PushWrites(s, view); hide At, Forward, Inv;
    case Written(_, _) => PushStores(s, view); hide At, Forward, Inv;
  }

  lemma PopSees<T>(s: State<T>, view: nat)
    requires Inv(s) && s.consumer.Begun?
    ensures Inv(Consumed(s, view))
  {
    hide At, Forward;
  }

  lemma PopReads<T>(s: State<T>, view: nat)
    requires Inv(s) && s.consumer.Reading?
    ensures Inv(Consumed(s, view))
  {
    hide At, Forward;
  }

  lemma PopStores<T>(s: State<T>, view: nat)
    requires Inv(s) && s.consumer.Taken?
    ensures Inv(Consumed(s, view))
  {
    AtNext(|s.popped|, |s.slots|);
    hide At, Forward;
  }

  lemma ConsumedKeeps<T>(s: State<T>, view: nat)
    requires Inv(s)
    ensures Inv(Consumed(s, view)) && |Consumed(s, view).slots| == |s.slots|
  {
    match s.consumer
    case Resting =>
    case Begun(_) => PopSees(s, view); hide At, Forward, Inv;
    case Reading(_) => PopReads(s, view); hide At, Forward, Inv;
    case Taken(_, _) => PopStores(s, view); hide At, Forward, Inv;
  }

  lemma DoKeeps<T>(s: State<T>, a: Action<T>)
    requires Inv(s)
    ensures Inv(Do(s, a)) && |Do(s, a).slots| == |s.slots|
  {
    match a
    case Push(_) => hide At, Produced, Consumed;
    case Produce(view) => ProducedKeeps(s, view); hide At, Produced, Consumed, Inv;
    case Pop => hide At, Produced, Consumed;
    case Consume(view) => ConsumedKeeps(s, view); hide At, Produced, Consumed, Inv;
  }

  lemma {:induction false} RunKeeps<T>(s: State<T>, schedule: seq<Action<T>>)
    requires Inv(s)
    ensures Inv(Run(s, schedule)) && |Run(s, schedule).slots| == |s.slots|
    decreases |schedule|
  {
    if schedule != [] {
      DoKeeps(s, schedule[0]);
      RunKeeps(Do(s, schedule[0]), schedule[1..]);
      hide Inv, Do;
    }
  }

  // ---- What every interleaving keeps -------------------------------------------------------

  /** Whatever the two sides do and however old the indices they see, what comes out is what went in, in
      order, and no more than all slots but one are filled. */
  lemma PoppedIsPrefixOfPushed<T>(s: State<T>, schedule: seq<Action<T>>)
    requires Fresh(s)
    ensures var r := Run(s, schedule);
            r.popped <= r.pushed && |r.pushed| - |r.popped| <= |s.slots| - 1
  {
    RunKeeps(s, schedule);
  }

  /** A slot is never written while it is being read. */
  lemma NoSlotIsShared<T>(s: State<T>, schedule: seq<Action<T>>)
    requires Fresh(s)
    ensures var r := Run(s, schedule);
            r.producer.Writing? && r.consumer.Reading? ==> r.producer.curr != r.consumer.curr
  {
    RunKeeps(s, schedule);
    var r := Run(s, schedule);
    if r.producer.Writing? && r.consumer.Reading? { Apart(|r.popped|, |r.pushed|, |r.slots|); }
  }

  lemma PushRefused<T>(r: State<T>)
    requires Inv(r) && r.producer.Begun?
    ensures r.heads != []
    ensures Produced(r, |r.heads| - 1).producer.Resting? <==> |r.pushed| - |r.popped| == |r.slots| - 1
  {
    var c, n, m := |r.slots|, |r.pushed|, |r.popped|;
    AtNext(n, c);
    if n + 1 == m + c { FullCircle(m, c); } else if m < n + 1 { Apart(m, n + 1, c); }
    hide At, Forward, Held;
  }

  lemma PopRefused<T>(r: State<T>)
    requires Inv(r) && r.consumer.Begun?
    ensures r.tails != []
    ensures Consumed(r, |r.tails| - 1).consumer.Resting? <==> r.pushed == r.popped
  {
    var c, n, m := |r.slots|, |r.pushed|, |r.popped|;
    if m < n { Apart(m, n, c); } else { assert r.pushed == r.popped; }
    hide At, Forward;
  }

  /** A call that sees the other side's latest store is refused exactly when it must be: push with all
      slots but one filled, pop with none. */
  lemma RefusedOnlyWhenDue<T>(s: State<T>, schedule: seq<Action<T>>)
    requires Fresh(s)
    ensures var r := Run(s, schedule);
            && r.heads != [] && r.tails != []
            && (r.producer.Begun? ==>
                 (Produced(r, |r.heads| - 1).producer.Resting? <==> |r.pushed| - |r.popped| == |s.slots| - 1))
            && (r.consumer.Begun? ==>
                 (Consumed(r, |r.tails| - 1).consumer.Resting? <==> r.pushed == r.popped))
  {
    RunKeeps(s, schedule);
    var r := Run(s, schedule);
    hide Run;
    if r.producer.Begun? { PushRefused(r); }
    if r.consumer.Begun? { PopRefused(r); }
    hide Inv, Produced, Consumed;
  }

  // ---- The size queries --------------------------------------------------------------------

  /** size; the sums cannot wrap below zero. */
  function Size<T>(s: State<T>): nat
    requires |s.slots| > 0 && s.tails != [] && s.heads != []
  {
    (s.tails[|s.tails| - 1] - s.heads[|s.heads| - 1] + |s.slots|) % |s.slots|
  }

  /** capacity: the room left. */
  function Capacity<T>(s: State<T>): nat
    requires |s.slots| > 0 && s.tails != [] && s.heads != []
  {
    (s.heads[|s.heads| - 1] - s.tails[|s.tails| - 1] + |s.slots| - 1) % |s.slots|
  }

  lemma Wrapped(x: int, c: nat)
    requires 0 <= x < 2 * c
    ensures x % c == if x < c then x else x - c
  {
    if x >= c { assert x == c + (x - c); }
  }

  lemma Sizes(t: nat, h: nat, c: nat)
    requires t < c && h < c
    ensures (t - h + c) % c == if t >= h then t - h else t - h + c
    ensures (t - h + c) % c + (h - t + c - 1) % c == c - 1
  {
    Wrapped(t - h + c, c);
    Wrapped(h - t + c - 1, c);
  }

  lemma SizeCounts<T>(r: State<T>)
    requires Counted(r)
    ensures Size(r) == |r.pushed| - |r.popped|
    ensures Size(r) + Capacity(r) == |r.slots| - 1
  {
    var c, n, m := |r.slots|, |r.pushed|, |r.popped|;
    AtPlus(m, n - m, c);
    var t, h := At(n, c), At(m, c);
    assert r.tails[n] == t && r.heads[m] == h;
    hide At, Counted;
    Sizes(t, h, c);
  }

  /** With both sides between two stores the queries count the items held and the room left. */
  lemma SizeAndCapacity<T>(s: State<T>, schedule: seq<Action<T>>)
    requires Fresh(s)
    ensures var r := Run(s, schedule);
            && |r.slots| > 0 && r.tails != [] && r.heads != []
            && Size(r) == |r.pushed| - |r.popped|
            && Size(r) + Capacity(r) == |s.slots| - 1
  {
    RunKeeps(s, schedule);
    var r := Run(s, schedule);
    SizeCounts(r);
    hide Run, At, Held, ProducerKnows, ConsumerKnows, Size, Capacity;
  }

  // ---- Whole calls -------------------------------------------------------------------------

  lemma FourSteps<T>(s: State<T>, a: Action<T>, b: Action<T>, c: Action<T>, d: Action<T>)
    ensures Run(s, [a, b, c, d]) == Do(Do(Do(Do(s, a), b), c), d)
  {
    hide Do;
    assert [a, b, c, d][1..] == [b, c, d] && [b, c, d][1..] == [c, d] && [c, d][1..] == [d] && [d][1..] == [];
    assert Run(Do(Do(Do(s, a), b), c), [d]) == Run(Do(Do(Do(Do(s, a), b), c), d), []);
    assert Run(Do(Do(s, a), b), [c, d]) == Run(Do(Do(Do(s, a), b), c), [d]);
    assert Run(Do(s, a), [b, c, d]) == Run(Do(Do(s, a), b), [c, d]);
  }

  lemma PushDone<T>(r: State<T>, x: T)
    requires Inv(r) && r.producer.Resting?
    ensures r.heads != []
    ensures var e := Do(Do(Do(Do(r, Push(x)), Produce(|r.heads| - 1)), Produce(0)), Produce(0));
      && e.producer.Resting? && e.popped == r.popped
      && e.pushed == if |r.pushed| - |r.popped| == |r.slots| - 1 then r.pushed else r.pushed + [x]
  {
    var b := Do(r, Push(x));
    DoKeeps(r, Push(x));
    PushRefused(b);
    hide At, Inv;
  }

  lemma PopDone<T>(r: State<T>)
    requires Inv(r) && r.consumer.Resting?
    ensures r.tails != []
    ensures var e := Do(Do(Do(Do(r, Pop), Consume(|r.tails| - 1)), Consume(0)), Consume(0));
      && e.consumer.Resting? && e.pushed == r.pushed
      && (r.pushed == r.popped ==> e.popped == r.popped)
      && (r.pushed != r.popped ==> |r.popped| < |r.pushed| && e.popped == r.popped + [r.pushed[|r.popped|]])
  {
    var b := Do(r, Pop);
    DoKeeps(r, Pop);
    PopRefused(b);
    var c := Do(b, Consume(|r.tails| - 1));
    DoKeeps(b, Consume(|r.tails| - 1));
    var d := Do(c, Consume(0));
    DoKeeps(c, Consume(0));
    assert d.consumer.Taken? ==> d.consumer.item == d.pushed[|d.popped|];
    hide At, Inv;
  }

  /** A push that the other side does not disturb and that sees its latest store adds its item behind what was
      pushed, unless all slots but one are filled; a pop delivers the first item that was not popped yet, unless
      there is none. */
  lemma LoneCalls<T>(s: State<T>, schedule: seq<Action<T>>, x: T)
    requires Fresh(s)
    ensures var r := Run(s, schedule);
      && r.heads != [] && r.tails != []
      && (r.producer.Resting? ==>
            var e := Run(r, [Push(x), Produce(|r.heads| - 1), Produce(0), Produce(0)]);
            && e.producer.Resting? && e.popped == r.popped
            && e.pushed == if |r.pushed| - |r.popped| == |s.slots| - 1 then r.pushed else r.pushed + [x])
      && (r.consumer.Resting? ==>
            var e := Run(r, [Pop, Consume(|r.tails| - 1), Consume(0), Consume(0)]);
            && e.consumer.Resting? && e.pushed == r.pushed
            && (r.pushed == r.popped ==> e.popped == r.popped)
            && (r.pushed != r.popped ==> |r.popped| < |r.pushed| && e.popped == r.popped + [r.pushed[|r.popped|]]))
  {
    RunKeeps(s, schedule);
    var r := Run(s, schedule);
    hide Run, Do;
    SomeStores(r);
    if r.producer.Resting? {
      PushDone(r, x);
      FourSteps(r, Push(x), Produce(|r.heads| - 1), Produce(0), Produce(0));
    }
    if r.consumer.Resting? {
      PopDone(r);
      FourSteps(r, Pop, Consume(|r.tails| - 1), Consume(0), Consume(0));
    }
    hide Inv;
  }

  lemma SomeStores<T>(r: State<T>)
    requires Inv(r)
    ensures r.heads != [] && r.tails != []
  {
  }

  // ---- Nothing comes in unasked ------------------------------------------------------------

  /** The items of the calls of push, in order. */
  function Asked<T>(s: State<T>, schedule: seq<Action<T>>): seq<T>
    decreases |schedule|
  {
    if schedule == [] then [] else OfCall(s, schedule[0]) + Asked(Do(s, schedule[0]), schedule[1..])
  }

  function OfCall<T>(s: State<T>, a: Action<T>): seq<T> {
    if a.Push? && s.producer.Resting? && s.tails != [] then [a.item] else []
  }

  /** The item of the call that is under way. */
  function InHand<T>(s: State<T>): seq<T> {
    match s.producer
    case Resting => []
    case Begun(x, _) => [x]
    case Writing(x, _, _) => [x]
    case Written(x, _) => [x]
  }

  /** a is what is left of b without some of its items. */
  ghost predicate Within<T>(a: seq<T>, b: seq<T>)
    decreases |b|
  {
    a == [] || (b != [] && (Within(a, b[..|b| - 1]) || (a[|a| - 1] == b[|b| - 1] && Within(a[..|a| - 1], b[..|b| - 1]))))
  }

  lemma WithinGrows<T>(a: seq<T>, b: seq<T>, x: T)
    requires Within(a, b)
    ensures Within(a + [x], b + [x])
  {
    assert (a + [x])[..|a|] == a && (b + [x])[..|b|] == b;
  }

  lemma {:induction false} WithinShrinks<T>(a: seq<T>, b: seq<T>)
    requires Within(a, b) && a != []
    ensures Within(a[..|a| - 1], b)
    decreases |b|
  {
    if |a| > 1 && Within(a, b[..|b| - 1]) {
      WithinShrinks(a, b[..|b| - 1]);
    }
  }

  lemma ProducedWithin<T>(s: State<T>, view: nat, asked: seq<T>)
    requires Within(s.pushed + InHand(s), asked)
    ensures var r := Produced(s, view); Within(r.pushed + InHand(r), asked)
  {
    var r, before := Produced(s, view), s.pushed + InHand(s);
    if r.pushed + InHand(r) != before {
      assert before[..|before| - 1] == s.pushed == r.pushed + InHand(r);
      WithinShrinks(before, asked);
    }
    hide Within;
  }

  lemma ConsumedLeaves<T>(s: State<T>, view: nat)
    ensures var r := Consumed(s, view); r.pushed == s.pushed && InHand(r) == InHand(s)
  {
  }

  lemma StepWithin<T>(s: State<T>, a: Action<T>, asked: seq<T>)
    requires Within(s.pushed + InHand(s), asked)
    ensures var r := Do(s, a); Within(r.pushed + InHand(r), asked + OfCall(s, a))
  {
    hide Within, Produced, Consumed;
    assert asked + [] == asked;
    match a {
      case Push(x) =>
        if OfCall(s, a) != [] {
          assert s.pushed + InHand(s) == s.pushed && s.pushed + InHand(Do(s, a)) == s.pushed + [x];
          WithinGrows(s.pushed, asked, x);
        }
      case Produce(view) => ProducedWithin(s, view, asked);
      case Pop =>
      case Consume(view) => ConsumedLeaves(s, view);
    }
  }

  lemma {:induction false} RunWithin<T>(s: State<T>, schedule: seq<Action<T>>, asked: seq<T>)
    requires Within(s.pushed + InHand(s), asked)
    ensures var r := Run(s, schedule); Within(r.pushed + InHand(r), asked + Asked(s, schedule))
    decreases |schedule|
  {
    hide Within, Do, InHand, OfCall;
    if schedule == [] {
      assert asked + [] == asked;
    } else {
      StepWithin(s, schedule[0], asked);
      RunWithin(Do(s, schedule[0]), schedule[1..], asked + OfCall(s, schedule[0]));
      assert asked + OfCall(s, schedule[0]) + Asked(Do(s, schedule[0]), schedule[1..]) == asked + Asked(s, schedule);
    }
  }

  /** What was pushed are items of calls of push, each call's once at most, in the order of the calls. */
  lemma OnlyAskedIsPushed<T>(s: State<T>, schedule: seq<Action<T>>)
    requires Fresh(s)
    ensures Within(Run(s, schedule).pushed, Asked(s, schedule))
  {
    RunWithin(s, schedule, []);
    var r := Run(s, schedule);
    hide Run, Asked;
    var all := r.pushed + InHand(r);
    assert [] + Asked(s, schedule) == Asked(s, schedule);
    if InHand(r) != [] {
      assert all[..|all| - 1] == r.pushed;
      WithinShrinks(all, Asked(s, schedule));
    } else {
      assert all == r.pushed;
    }
    hide Within;
  }
}
