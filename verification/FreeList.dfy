/**
 The lock-free free list: a stack of nodes with a 32-bit reference word per node. Its top
 bit (SHOULD_BE_ON_FREELIST) says "put me back when nobody looks at me any more", the other
 31 bits count the list's own reference and the threads that are reading the node.

 Every atomic load, store, compare-exchange or fetch_add is one step of one thread, under
 sequential consistency. A schedule is any sequence of calls and steps.
 */
module FreeList {
  import opened Options

  type Node = nat
  type Thread = nat

  const REFS_MASK: nat := 0x7FFF_FFFF
  const SHOULD_BE_ON_FREELIST: nat := 0x8000_0000
  const WORD: nat := 0x1_0000_0000

  // ---- The state ---------------------------------------------------------------------------

  /** Where add_knowing_refcount_is_zero returns to: its two callers. */
  datatype Return = ToAdd | ToTryGet(head: Option<Node>)

  /** A thread's position, named after the atomic operation it performs next. */
  datatype Pc =
    | Idle
    | MarkRefs(node: Node)                                        // add: fetch_add(SHOULD_BE)
    | LoadHead(node: Node, back: Return)                          // add_knowing_refcount_is_zero
    | StoreNext(node: Node, head: Option<Node>, back: Return)
    | StoreRefs(node: Node, head: Option<Node>, back: Return)
    | PushHead(node: Node, head: Option<Node>, back: Return)      // compare_exchange on the head
    | UnpushRefs(node: Node, head: Option<Node>, back: Return)    // fetch_add(SHOULD_BE - 1)
    | ReadHead                                                    // try_get
    | ReadRefs(node: Node)
    | ClaimRefs(node: Node, refs: nat)                            // compare_exchange on the refs
    | ReadNext(node: Node)
    | PopHead(node: Node, next: Option<Node>)                     // compare_exchange on the head
    | CheckRefs(node: Node)                                       // the assert
    | DropBoth(node: Node)                                        // fetch_add(-2)
    | DropOne(node: Node, head: Option<Node>)                     // fetch_add(-1)

  /** `owned` is the client's side of the contract: the nodes callers hold and may add. */
  datatype State = State(
    head: Option<Node>,
    refs: map<Node, nat>,
    next: map<Node, Option<Node>>,
    pc: map<Thread, Pc>,
    owned: set<Node>)

  datatype Action = Add(t: Thread, n: Node) | TryGet(t: Thread) | Step(t: Thread)

  /** What callers see: a node handed in through add, or handed out by try_get. */
  datatype Event = Added(n: Node) | Got(n: Node)

  predicate Known(nodes: set<Node>, p: Option<Node>) {
    p.Some? ==> p.value in nodes
  }

  predicate ReturnTyped(nodes: set<Node>, b: Return) {
    b.ToTryGet? ==> Known(nodes, b.head)
  }

  predicate PcTyped(nodes: set<Node>, p: Pc) {
    match p
    case Idle => true
    case ReadHead => true
    case LoadHead(n, b) => n in nodes && ReturnTyped(nodes, b)
    case StoreNext(n, h, b) => n in nodes && Known(nodes, h) && ReturnTyped(nodes, b)
    case StoreRefs(n, h, b) => n in nodes && Known(nodes, h) && ReturnTyped(nodes, b)
    case PushHead(n, h, b) => n in nodes && Known(nodes, h) && ReturnTyped(nodes, b)
    case UnpushRefs(n, h, b) => n in nodes && Known(nodes, h) && ReturnTyped(nodes, b)
    case PopHead(n, x) => n in nodes && Known(nodes, x)
    case DropOne(n, h) => n in nodes && Known(nodes, h)
    case _ => p.node in nodes
  }

  /** Every pointer points to a node that exists (nodes are never freed). */
  predicate Typed(s: State) {
    var nodes := s.refs.Keys;
    && s.next.Keys == nodes
    && Known(nodes, s.head)
    && s.owned <= nodes
    && (forall n | n in s.next :: Known(nodes, s.next[n]))
    && (forall t {:trigger PcTyped(nodes, s.pc[t])} | t in s.pc :: PcTyped(nodes, s.pc[t]))
  }

  // ---- The steps ---------------------------------------------------------------------------

  /** An unsigned 32-bit fetch_add. */
  function FetchAdd(word: nat, delta: int): nat { (word + delta) % WORD }

  /** The head of try_get's while loop. */
  function Loop(head: Option<Node>): Pc {
    if head.None? then Idle else ReadRefs(head.value)
  }

  function Resume(b: Return): Pc {
    match b
    case ToAdd => Idle
    case ToTryGet(head) => Loop(head)
  }

  function Goto(s: State, t: Thread, p: Pc): State { s.(pc := s.pc[t := p]) }

  function SetRefs(s: State, n: Node, r: nat): State { s.(refs := s.refs[n := r]) }

  /** Thread t performs its next atomic operation. */
  function Advance(s: State, t: Thread): State
    requires Typed(s) && t in s.pc
  {
    assert PcTyped(s.refs.Keys, s.pc[t]);
    match s.pc[t]
    case Idle => s
    case MarkRefs(n) =>
      Goto(SetRefs(s, n, FetchAdd(s.refs[n], SHOULD_BE_ON_FREELIST)), t,
           if s.refs[n] == 0 then LoadHead(n, ToAdd) else Idle)
    case LoadHead(n, b) => Goto(s, t, StoreNext(n, s.head, b))
    case StoreNext(n, h, b) => Goto(s.(next := s.next[n := h]), t, StoreRefs(n, h, b))
    case StoreRefs(n, h, b) => Goto(SetRefs(s, n, 1), t, PushHead(n, h, b))
    case PushHead(n, h, b) =>
      if s.head == h then Goto(s.(head := Some(n)), t, Resume(b))
      else Goto(s, t, UnpushRefs(n, s.head, b))
    case UnpushRefs(n, h, b) =>
      Goto(SetRefs(s, n, FetchAdd(s.refs[n], SHOULD_BE_ON_FREELIST - 1)), t,
           if s.refs[n] == 1 then StoreNext(n, h, b) else Resume(b))
    case ReadHead => Goto(s, t, Loop(s.head))
    case ReadRefs(n) =>
      Goto(s, t, if s.refs[n] % (REFS_MASK + 1) == 0 then ReadHead else ClaimRefs(n, s.refs[n]))
    case ClaimRefs(n, r) =>
      if s.refs[n] == r then Goto(SetRefs(s, n, FetchAdd(r, 1)), t, ReadNext(n))
      else Goto(s, t, ReadHead)
    case ReadNext(n) => Goto(s, t, PopHead(n, s.next[n]))
    case PopHead(n, x) =>
      if s.head == Some(n) then Goto(s.(head := x), t, CheckRefs(n))
      else Goto(s, t, DropOne(n, s.head))
    case CheckRefs(n) => Goto(s, t, DropBoth(n))
    case DropBoth(n) =>
      Goto(SetRefs(s, n, FetchAdd(s.refs[n], -2)), t, Idle).(owned := s.owned + {n})
    case DropOne(n, h) =>
      Goto(SetRefs(s, n, FetchAdd(s.refs[n], -1)), t,
           if s.refs[n] == SHOULD_BE_ON_FREELIST + 1 then LoadHead(n, ToTryGet(h)) else Loop(h))
  }

  /** Replacing the fields of s by well-typed ones and moving one thread keeps types. */
  lemma GotoTyped(s: State, r: State, t: Thread, p: Pc)
    requires Typed(s) && t in s.pc && PcTyped(s.refs.Keys, p)
    requires r.pc == s.pc && r.refs.Keys == s.refs.Keys && r.next.Keys == s.next.Keys
    requires r.owned <= s.refs.Keys && Known(s.refs.Keys, r.head)
    requires forall n | n in r.next :: Known(s.refs.Keys, r.next[n])
    ensures Typed(Goto(r, t, p))
    ensures Goto(r, t, p).refs.Keys == s.refs.Keys && Goto(r, t, p).pc.Keys == s.pc.Keys
  {
  }

  /** A step keeps the nodes and the threads, and never makes a pointer dangle. */
  lemma AdvanceTyped(s: State, t: Thread)
    requires Typed(s) && t in s.pc
    ensures Typed(Advance(s, t))
    ensures Advance(s, t).refs.Keys == s.refs.Keys && Advance(s, t).pc.Keys == s.pc.Keys
  {
    hide FetchAdd, Typed;
    if InAdd(s.pc[t]) {
      AddAdvanceTyped(s, t);
    } else {
      GetAdvanceTyped(s, t);
    }
  }

  predicate InAdd(p: Pc) {
    p.MarkRefs? || p.LoadHead? || p.StoreNext? || p.StoreRefs? || p.PushHead? || p.UnpushRefs?
  }

  lemma AddAdvanceTyped(s: State, t: Thread)
    requires Typed(s) && t in s.pc && InAdd(s.pc[t])
    ensures Typed(Advance(s, t))
    ensures Advance(s, t).refs.Keys == s.refs.Keys && Advance(s, t).pc.Keys == s.pc.Keys
  {
    hide FetchAdd;
    var p := s.pc[t];
    assert PcTyped(s.refs.Keys, p);
    var q := Advance(s, t).pc[t];
    match p {
      case MarkRefs(n) => GotoTyped(s, SetRefs(s, n, Advance(s, t).refs[n]), t, q);
      case StoreNext(n, h, b) => GotoTyped(s, s.(next := s.next[n := h]), t, q);
      case StoreRefs(n, h, b) => GotoTyped(s, SetRefs(s, n, 1), t, q);
      case PushHead(n, h, b) => GotoTyped(s, s.(head := Advance(s, t).head), t, q);
      case UnpushRefs(n, h, b) => GotoTyped(s, SetRefs(s, n, Advance(s, t).refs[n]), t, q);
      case _ => GotoTyped(s, s, t, q);
    }
  }

  lemma GetAdvanceTyped(s: State, t: Thread)
    requires Typed(s) && t in s.pc && !InAdd(s.pc[t])
    ensures Typed(Advance(s, t))
    ensures Advance(s, t).refs.Keys == s.refs.Keys && Advance(s, t).pc.Keys == s.pc.Keys
  {
    hide FetchAdd;
    var p := s.pc[t];
    assert PcTyped(s.refs.Keys, p);
    var q := Advance(s, t).pc[t];
    match p {
      case ClaimRefs(n, r) => GotoTyped(s, s.(refs := Advance(s, t).refs), t, q);
      case PopHead(n, x) => GotoTyped(s, s.(head := Advance(s, t).head), t, q);
      case DropBoth(n) => GotoTyped(s, SetRefs(s, n, Advance(s, t).refs[n]), t, Idle);
      case DropOne(n, h) => GotoTyped(s, SetRefs(s, n, Advance(s, t).refs[n]), t, q);
      case _ => GotoTyped(s, s, t, q);
    }
  }

  /** A call is made by an idle thread, and a caller only adds a node it owns. */
  predicate Enabled(s: State, a: Action) {
    match a
    case Add(t, n) => t in s.pc && s.pc[t].Idle? && n in s.owned
    case TryGet(t) => t in s.pc && s.pc[t].Idle?
    case Step(t) => t in s.pc && !s.pc[t].Idle?
  }

  function Do(s: State, a: Action): (r: State)
    requires Typed(s) && Enabled(s, a)
    ensures Typed(r)
    ensures r.refs.Keys == s.refs.Keys && r.pc.Keys == s.pc.Keys
  {
    match a
    case Add(t, n) => Goto(s.(owned := s.owned - {n}), t, MarkRefs(n))
    case TryGet(t) => Goto(s, t, ReadHead)
    case Step(t) => AdvanceTyped(s, t); Advance(s, t)
  }

  function Emits(s: State, a: Action): seq<Event>
    requires Enabled(s, a)
  {
    match a
    case Add(t, n) => [Added(n)]
    case TryGet(t) => []
    case Step(t) => if s.pc[t].DropBoth? then [Got(s.pc[t].node)] else []
  }

  /** Any interleaving: actions that are not enabled where they occur are skipped. */
  function Run(s: State, schedule: seq<Action>): (r: State)
    requires Typed(s)
    ensures Typed(r) && r.pc.Keys == s.pc.Keys
    decreases |schedule|
  {
    if schedule == [] then s
    else if Enabled(s, schedule[0]) then Run(Do(s, schedule[0]), schedule[1..])
    else Run(s, schedule[1..])
  }

  function Trace(s: State, schedule: seq<Action>): seq<Event>
    requires Typed(s)
    decreases |schedule|
  {
    if schedule == [] then []
    else if Enabled(s, schedule[0]) then
      Emits(s, schedule[0]) + Trace(Do(s, schedule[0]), schedule[1..])
    else Trace(s, schedule[1..])
  }

  /** An empty list: callers own every node, no thread is inside a call, and there are fewer
      threads than the 31-bit counter can count. */
  ghost predicate Initial(s: State) {
    && Typed(s)
    && s.head.None?
    && s.owned == s.refs.Keys
    && (forall n | n in s.refs :: s.refs[n] == 0)
    && (forall t | t in s.pc :: s.pc[t].Idle?)
    && |s.pc| < REFS_MASK
  }

  // ---- The invariant -----------------------------------------------------------------------

  /** The thread has counted itself in the node's reference word. */
  predicate Holds(p: Pc, n: Node) {
    (p.ReadNext? || p.PopHead? || p.CheckRefs? || p.DropBoth? || p.DropOne?) && p.node == n
  }

  /** The thread alone decides what becomes of the node, which is neither listed nor owned. */
  predicate Carries(p: Pc, n: Node) {
    (p.MarkRefs? || p.LoadHead? || p.StoreNext? || p.StoreRefs? || p.PushHead? || p.UnpushRefs?
     || p.CheckRefs? || p.DropBoth?) && p.node == n
  }

  ghost function Holders(s: State, n: Node): set<Thread> {
    set t | t in s.pc && Holds(s.pc[t], n)
  }

  ghost predicate Carried(s: State, n: Node) {
    exists t :: t in s.pc && Carries(s.pc[t], n)
  }

  /** What the reference word of a carried node must be, by the carrier's position. */
  ghost predicate CarriedRefs(p: Pc, refs: nat, holders: nat) {
    match p
    case MarkRefs(_) => refs == holders
    case LoadHead(_, _) => refs == SHOULD_BE_ON_FREELIST && holders == 0
    case StoreNext(_, _, _) => refs == SHOULD_BE_ON_FREELIST && holders == 0
    case StoreRefs(_, _, _) => refs == SHOULD_BE_ON_FREELIST && holders == 0
    case _ => refs == 1 + holders
  }

  /** Exactly one of: owned by a caller; on the list; carried by one thread; or left, marked,
      to whichever reader drops its reference last. */
  ghost predicate NodeOk(s: State, list: seq<Node>, n: Node)
    requires n in s.refs
  {
    var h := |Holders(s, n)|;
    if n in s.owned then n !in list && !Carried(s, n) && s.refs[n] == h
    else if n in list then !Carried(s, n) && s.refs[n] == 1 + h
    else if Carried(s, n) then
      && (forall t, u | t in s.pc && u in s.pc && Carries(s.pc[t], n) && Carries(s.pc[u], n) :: t == u)
      && (forall t | t in s.pc && Carries(s.pc[t], n) :: CarriedRefs(s.pc[t], s.refs[n], h))
    else s.refs[n] == SHOULD_BE_ON_FREELIST + h && h > 0
  }

  /** From p the next pointers run through exactly the given nodes and then end. */
  ghost predicate Chain(s: State, p: Option<Node>, list: seq<Node>)
    decreases |list|
  {
    if list == [] then p.None?
    else p == Some(list[0]) && list[0] in s.next && Chain(s, s.next[list[0]], list[1..])
  }

  ghost predicate NoDuplicates(list: seq<Node>) {
    forall i, j | 0 <= i < j < |list| :: list[i] != list[j]
  }

  /** What a thread remembers about next pointers is still true. */
  ghost predicate Remembers(s: State, p: Pc) {
    match p
    case StoreRefs(n, h, _) => n in s.next && s.next[n] == h
    case PushHead(n, h, _) => n in s.next && s.next[n] == h
    case ClaimRefs(n, r) => r % (REFS_MASK + 1) != 0
    case PopHead(n, x) => n in s.next && s.next[n] == x
    case _ => true
  }

  ghost predicate Inv(s: State, list: seq<Node>) {
    && Typed(s)
    && |s.pc| < REFS_MASK
    && Chain(s, s.head, list)
    && NoDuplicates(list)
    && (forall n {:trigger NodeOk(s, list, n)} | n in s.refs :: NodeOk(s, list, n))
    && (forall t {:trigger Remembers(s, s.pc[t])} | t in s.pc :: Remembers(s, s.pc[t]))
  }

  // ---- Counting readers --------------------------------------------------------------------

  lemma HoldersAfter(s: State, r: State, t: Thread, n: Node)
    requires t in s.pc && t in r.pc && r.pc == s.pc[t := r.pc[t]]
    ensures Holders(r, n) == if Holds(r.pc[t], n) then Holders(s, n) + {t} else Holders(s, n) - {t}
    ensures |Holders(r, n)| == |Holders(s, n)| + (if Holds(r.pc[t], n) then 1 else 0) - (if Holds(s.pc[t], n) then 1 else 0)
  {
    var others := Holders(s, n) - {t};
    assert Holders(r, n) == if Holds(r.pc[t], n) then Holders(s, n) + {t} else Holders(s, n) - {t};
    assert Holders(s, n) == if Holds(s.pc[t], n) then others + {t} else others;
    assert Holders(r, n) == if Holds(r.pc[t], n) then others + {t} else others;
  }

  lemma HoldersBounded(s: State, n: Node)
    ensures |Holders(s, n)| <= |s.pc|
  {
    SubsetCardinality(Holders(s, n), s.pc.Keys);
  }

  lemma SubsetCardinality<T>(a: set<T>, b: set<T>)
    requires a <= b
    ensures |a| <= |b|
  {
    assert b == a + (b - a);
  }

  // ---- Frames ------------------------------------------------------------------------------

  /** Thread t moved, and of all nodes only m may have been touched. */
  ghost predicate OnlyTouches(s: State, list: seq<Node>, r: State, list': seq<Node>, t: Thread, m: Node) {
    && Typed(s) && Typed(r)
    && t in s.pc && t in r.pc && r.pc == s.pc[t := r.pc[t]]
    && r.refs.Keys == s.refs.Keys
    && (forall n | n in s.refs && n != m ::
          && r.refs[n] == s.refs[n]
          && (n in r.owned <==> n in s.owned)
          && (n in list' <==> n in list)
          && !Holds(s.pc[t], n) && !Holds(r.pc[t], n) && !Carries(s.pc[t], n) && !Carries(r.pc[t], n))
  }

  /** A node thread t does not carry is carried by the same threads as before, standing where they stood. */
  lemma CarriersFrame(s: State, r: State, t: Thread, n: Node)
    requires t in s.pc && t in r.pc && r.pc == s.pc[t := r.pc[t]]
    requires !Carries(s.pc[t], n) && !Carries(r.pc[t], n)
    ensures forall u | u in r.pc && Carries(r.pc[u], n) :: u in s.pc && s.pc[u] == r.pc[u]
    ensures Carried(r, n) == Carried(s, n)
  {
    hide Carries;
    if Carried(s, n) {
      var u :| u in s.pc && Carries(s.pc[u], n);
      assert u in r.pc && Carries(r.pc[u], n);
    }
  }

  lemma NodeFrame(s: State, list: seq<Node>, r: State, list': seq<Node>, t: Thread, m: Node, n: Node)
    requires OnlyTouches(s, list, r, list', t, m)
    requires n in s.refs && n != m && NodeOk(s, list, n)
    ensures NodeOk(r, list', n)
  {
    hide Typed, Holds, Holders, Carries, Carried, CarriedRefs;
    HoldersAfter(s, r, t, n);
    CarriersFrame(s, r, t, n);
  }

  lemma OtherNodes(s: State, list: seq<Node>, r: State, list': seq<Node>, t: Thread, m: Node)
    requires OnlyTouches(s, list, r, list', t, m)
    requires forall n {:trigger NodeOk(s, list, n)} | n in s.refs :: NodeOk(s, list, n)
    ensures forall n {:trigger NodeOk(r, list', n)} | n in r.refs && n != m :: NodeOk(r, list', n)
  {
    forall n | n in r.refs && n != m ensures NodeOk(r, list', n) {
      NodeFrame(s, list, r, list', t, m, n);
    }
  }

  lemma ChainFrame(s: State, r: State, p: Option<Node>, list: seq<Node>)
    requires Chain(s, p, list)
    requires r.next.Keys == s.next.Keys
    requires forall n | n in list && n in s.next :: r.next[n] == s.next[n]
    ensures Chain(r, p, list)
    decreases |list|
  {
    if list != [] {
      ChainFrame(s, r, s.next[list[0]], list[1..]);
    }
  }

  /** A carried node is in nobody else's hands. */
  lemma CarriedAlone(s: State, list: seq<Node>, t: Thread, n: Node)
    requires Inv(s, list) && t in s.pc && Carries(s.pc[t], n)
    ensures n in s.refs && n !in s.owned && n !in list
    ensures forall u | u in s.pc && u != t :: !Carries(s.pc[u], n)
    ensures CarriedRefs(s.pc[t], s.refs[n], |Holders(s, n)|)
  {
    assert PcTyped(s.refs.Keys, s.pc[t]);
    assert Carried(s, n);
    assert NodeOk(s, list, n);
  }

  /** The carried node m is fine in r if its carrier is t and its word fits the position. */
  lemma StillCarried(s: State, r: State, list: seq<Node>, t: Thread, m: Node)
    requires t in s.pc && t in r.pc && r.pc == s.pc[t := r.pc[t]]
    requires m in r.refs && m !in r.owned && m !in list
    requires Carries(r.pc[t], m)
    requires forall u | u in s.pc && u != t :: !Carries(s.pc[u], m)
    requires CarriedRefs(r.pc[t], r.refs[m], |Holders(r, m)|)
    ensures NodeOk(r, list, m)
  {
    assert Carried(r, m);
  }

  /** Nobody carries m after t lets go of it. */
  lemma NotCarried(s: State, r: State, t: Thread, m: Node)
    requires t in s.pc && t in r.pc && r.pc == s.pc[t := r.pc[t]]
    requires forall u | u in s.pc && u != t :: !Carries(s.pc[u], m)
    requires !Carries(r.pc[t], m)
    ensures !Carried(r, m)
  {
  }

  // ---- Each step keeps the invariant -------------------------------------------------------

  lemma Assemble(s: State, list: seq<Node>, r: State, list': seq<Node>, t: Thread, m: Node)
    requires Inv(s, list) && OnlyTouches(s, list, r, list', t, m)
    requires Chain(r, r.head, list') && NoDuplicates(list')
    requires m in r.refs ==> NodeOk(r, list', m)
    requires Remembers(r, r.pc[t])
    requires OthersRemember(s, r, t)
    ensures Inv(r, list')
  {
    hide Holders;
    OtherNodes(s, list, r, list', t, m);
    assert r.pc.Keys == s.pc.Keys;
    forall u | u in r.pc ensures Remembers(r, r.pc[u]) {
      assert u != t ==> Remembers(r, s.pc[u]);
    }
  }

  ghost predicate OthersRemember(s: State, r: State, t: Thread) {
    forall u {:trigger Remembers(r, s.pc[u])} | u in s.pc && u != t :: Remembers(r, s.pc[u])
  }

  lemma NextUnchanged(s: State, list: seq<Node>, r: State, t: Thread)
    requires Inv(s, list) && r.next == s.next
    ensures OthersRemember(s, r, t)
  {
    forall u | u in s.pc && u != t ensures Remembers(r, s.pc[u]) {
      assert Remembers(s, s.pc[u]);
    }
  }

  /** Steps that only move the thread: no word, pointer or owner changes. */
  lemma MoveKeeps(s: State, list: seq<Node>, t: Thread, p: Pc, m: Node)
    requires Inv(s, list) && t in s.pc && PcTyped(s.refs.Keys, p)
    requires forall n | n != m :: !Holds(s.pc[t], n) && !Carries(s.pc[t], n) && !Holds(p, n) && !Carries(p, n)
    requires Holds(p, m) == Holds(s.pc[t], m) && Carries(p, m) == Carries(s.pc[t], m)
    requires forall r: nat, h: nat | Carries(p, m) && CarriedRefs(s.pc[t], r, h) :: CarriedRefs(p, r, h)
    requires Remembers(s, p)
    ensures Inv(Goto(s, t, p), list)
  {
    hide Holders, NoDuplicates, Holds;
    var r := Goto(s, t, p);
    GotoTyped(s, s, t, p);
    NextUnchanged(s, list, r, t);
    ChainFrame(s, r, s.head, list);
    HoldersAfter(s, r, t, m);
    if Carries(p, m) {
      CarriedAlone(s, list, t, m);
      StillCarried(s, r, list, t, m);
    } else if m in s.refs {
      assert NodeOk(s, list, m);
      CarriedFrame(s, r, t, m);
    }
    Assemble(s, list, r, list, t, m);
  }

  /** If t carries m neither before nor after, it is carried after iff it was before, by the same threads. */
  lemma CarriedFrame(s: State, r: State, t: Thread, m: Node)
    requires t in s.pc && t in r.pc && r.pc == s.pc[t := r.pc[t]]
    requires !Carries(s.pc[t], m) && !Carries(r.pc[t], m)
    ensures Carried(s, m) <==> Carried(r, m)
  {
    if Carried(s, m) {
      var u :| u in s.pc && Carries(s.pc[u], m);
      assert u in r.pc && Carries(r.pc[u], m);
    }
    if Carried(r, m) {
      var u :| u in r.pc && Carries(r.pc[u], m);
      assert u in s.pc && Carries(s.pc[u], m);
    }
  }

  lemma AddKeeps(s: State, list: seq<Node>, t: Thread, n: Node)
    requires Inv(s, list) && Enabled(s, Add(t, n))
    ensures Inv(Do(s, Add(t, n)), list)
  {
    hide Holders;
    var r := Do(s, Add(t, n));
    assert NodeOk(s, list, n);
    HoldersAfter(s, r, t, n);
    NextUnchanged(s, list, r, t);
    ChainFrame(s, r, s.head, list);
    assert forall u | u in s.pc :: !Carries(s.pc[u], n);
    StillCarried(s, r, list, t, n);
    Assemble(s, list, r, list, t, n);
  }

  /** The node that is marked: its adder goes on with it, or leaves it to its readers. */
  lemma MarkedNodeOk(s: State, list: seq<Node>, t: Thread)
    requires Inv(s, list) && t in s.pc && s.pc[t].MarkRefs?
    ensures var r, n := Do(s, Step(t)), s.pc[t].node; n in r.refs && NodeOk(r, list, n)
  {
    hide Holders, Typed;
    var r, n := Do(s, Step(t)), s.pc[t].node;
    CarriedAlone(s, list, t, n);
    HoldersAfter(s, r, t, n);
    HoldersBounded(s, n);
    if s.refs[n] == 0 {
      StillCarried(s, r, list, t, n);
    } else {
      NotCarried(s, r, t, n);
    }
  }

  lemma MarkKeeps(s: State, list: seq<Node>, t: Thread)
    requires Inv(s, list) && t in s.pc && s.pc[t].MarkRefs?
    ensures Inv(Do(s, Step(t)), list)
  {
    hide Holders, Typed, NodeOk;
    var r, n := Do(s, Step(t)), s.pc[t].node;
    MarkedNodeOk(s, list, t);
    NextUnchanged(s, list, r, t);
    ChainFrame(s, r, s.head, list);
    Assemble(s, list, r, list, t, n);
  }

  lemma StoreNextKeeps(s: State, list: seq<Node>, t: Thread)
    requires Inv(s, list) && t in s.pc && s.pc[t].StoreNext?
    ensures Inv(Do(s, Step(t)), list)
  {
    var r, n := Do(s, Step(t)), s.pc[t].node;
    CarriedAlone(s, list, t, n);
    HoldersAfter(s, r, t, n);
    ChainFrame(s, r, s.head, list);
    StillCarried(s, r, list, t, n);
    forall u | u in s.pc && u != t ensures Remembers(r, s.pc[u]) {
      assert u !in Holders(s, n);
      assert Remembers(s, s.pc[u]);
    }
    Assemble(s, list, r, list, t, n);
  }

  lemma StoreRefsKeeps(s: State, list: seq<Node>, t: Thread)
    requires Inv(s, list) && t in s.pc && s.pc[t].StoreRefs?
    ensures Inv(Do(s, Step(t)), list)
  {
    var r, n := Do(s, Step(t)), s.pc[t].node;
    CarriedAlone(s, list, t, n);
    HoldersAfter(s, r, t, n);
    NextUnchanged(s, list, r, t);
    ChainFrame(s, r, s.head, list);
    StillCarried(s, r, list, t, n);
    assert Remembers(s, s.pc[t]);
    Assemble(s, list, r, list, t, n);
  }

  /** The push succeeds: the node becomes the head of the list. */
  lemma PushKeeps(s: State, list: seq<Node>, t: Thread)
    requires Inv(s, list) && t in s.pc && s.pc[t].PushHead? && s.head == s.pc[t].head
    ensures Inv(Do(s, Step(t)), [s.pc[t].node] + list)
  {
    hide Holders, Typed, Carried, FetchAdd;
    var r, n := Do(s, Step(t)), s.pc[t].node;
    var list' := [n] + list;
    CarriedAlone(s, list, t, n);
    HoldersAfter(s, r, t, n);
    NotCarried(s, r, t, n);
    assert Remembers(s, s.pc[t]);
    NextUnchanged(s, list, r, t);
    ChainFrame(s, r, s.head, list);
    assert list'[1..] == list;
    Assemble(s, list, r, list', t, n);
  }

  lemma UnpushKeeps(s: State, list: seq<Node>, t: Thread)
    requires Inv(s, list) && t in s.pc && s.pc[t].UnpushRefs?
    ensures Inv(Do(s, Step(t)), list)
  {
    hide Typed, Carried;
    hide Holders, Chain;
    var r, n := Do(s, Step(t)), s.pc[t].node;
    CarriedAlone(s, list, t, n);
    HoldersAfter(s, r, t, n);
    HoldersBounded(s, n);
    NextUnchanged(s, list, r, t);
    ChainFrame(s, r, s.head, list);
    if s.refs[n] == 1 {
      StillCarried(s, r, list, t, n);
    } else {
      NotCarried(s, r, t, n);
    }
    Assemble(s, list, r, list, t, n);
  }

  /** One more or one fewer reader of a node nobody's status depends on: the word follows. */
  lemma CountFollows(s: State, list: seq<Node>, r: State, t: Thread, n: Node, change: int)
    requires n in s.refs && NodeOk(s, list, n)
    requires t in s.pc && t in r.pc && r.pc == s.pc[t := r.pc[t]]
    requires !Carries(s.pc[t], n) && !Carries(r.pc[t], n)
    requires |Holders(r, n)| == |Holders(s, n)| + change
    requires n in r.refs && r.refs[n] == s.refs[n] + change && r.owned == s.owned
    requires |Holders(s, n)| > 0 || s.refs[n] != SHOULD_BE_ON_FREELIST
    requires |Holders(r, n)| > 0 || r.refs[n] != SHOULD_BE_ON_FREELIST
    ensures NodeOk(r, list, n)
  {
    CarriedFrame(s, r, t, n);
    if n !in s.owned && n !in list && Carried(s, n) {
      forall u | u in r.pc && Carries(r.pc[u], n) ensures CarriedRefs(r.pc[u], r.refs[n], |Holders(r, n)|) {
        assert u != t && CarriedRefs(s.pc[u], s.refs[n], |Holders(s, n)|);
      }
    }
  }

  /** The claim succeeds: one more reader is counted, whatever has become of the node since. */
  lemma ClaimKeeps(s: State, list: seq<Node>, t: Thread)
    requires Inv(s, list) && t in s.pc && s.pc[t].ClaimRefs?
    requires s.pc[t].node in s.refs && s.refs[s.pc[t].node] == s.pc[t].refs
    requires s.pc[t].refs % (REFS_MASK + 1) != 0
    ensures Inv(Do(s, Step(t)), list)
  {
    hide Holders, NodeOk, Chain;
    var r, n := Do(s, Step(t)), s.pc[t].node;
    HoldersAfter(s, r, t, n);
    WordBounded(s, list, n);
    CountFollows(s, list, r, t, n, 1);
    NextUnchanged(s, list, r, t);
    ChainFrame(s, r, s.head, list);
    Assemble(s, list, r, list, t, n);
  }

  /** The 31-bit count never overflows into the top bit, nor out of the word. */
  lemma WordBounded(s: State, list: seq<Node>, n: Node)
    requires Inv(s, list) && n in s.refs
    ensures NodeOk(s, list, n)
    ensures s.refs[n] <= REFS_MASK || SHOULD_BE_ON_FREELIST <= s.refs[n] < WORD - 1
    ensures forall t | t in s.pc && Holds(s.pc[t], n) :: s.refs[n] > 0 && s.refs[n] != SHOULD_BE_ON_FREELIST
  {
    assert NodeOk(s, list, n);
    HoldersBounded(s, n);
    if Carried(s, n) {
      var u :| u in s.pc && Carries(s.pc[u], n);
      assert CarriedRefs(s.pc[u], s.refs[n], |Holders(s, n)|);
    }
    forall t | t in s.pc && Holds(s.pc[t], n) ensures s.refs[n] > 0 && s.refs[n] != SHOULD_BE_ON_FREELIST {
      assert t in Holders(s, n);
    }
  }

  /** The pop succeeds: the head leaves the list, and t carries it to its caller. */
  lemma PopKeeps(s: State, list: seq<Node>, t: Thread)
    requires Inv(s, list) && t in s.pc && s.pc[t].PopHead? && s.head == Some(s.pc[t].node)
    ensures list != [] && list[0] == s.pc[t].node
    ensures Inv(Do(s, Step(t)), list[1..])
  {
    hide Holders, PcTyped;
    var r, n := Do(s, Step(t)), s.pc[t].node;
    assert NodeOk(s, list, n) && Remembers(s, s.pc[t]);
    HoldersAfter(s, r, t, n);
    NextUnchanged(s, list, r, t);
    ChainFrame(s, r, s.next[n], list[1..]);
    StillCarried(s, r, list[1..], t, n);
    Assemble(s, list, r, list[1..], t, n);
  }

  lemma DropBothKeeps(s: State, list: seq<Node>, t: Thread)
    requires Inv(s, list) && t in s.pc && s.pc[t].DropBoth?
    ensures Inv(Do(s, Step(t)), list)
  {
    hide Typed;
    var r, n := Do(s, Step(t)), s.pc[t].node;
    CarriedAlone(s, list, t, n);
    HoldersAfter(s, r, t, n);
    HoldersBounded(s, n);
    assert t in Holders(s, n);
    NextUnchanged(s, list, r, t);
    ChainFrame(s, r, s.head, list);
    NotCarried(s, r, t, n);
    Assemble(s, list, r, list, t, n);
  }

  /** A reader gives up its reference; if it was the last on a marked node, it must put the node back. */
  lemma DropOneKeeps(s: State, list: seq<Node>, t: Thread)
    requires Inv(s, list) && t in s.pc && s.pc[t].DropOne?
    ensures Inv(Do(s, Step(t)), list)
  {
    hide NodeOk, Chain, Typed;
    hide Holders;
    var r, n := Do(s, Step(t)), s.pc[t].node;
    HoldersAfter(s, r, t, n);
    WordBounded(s, list, n);
    assert t in Holders(s, n);
    if s.refs[n] == SHOULD_BE_ON_FREELIST + 1 {
      LastReader(s, list, t, n);
      StillCarried(s, r, list, t, n);
    } else {
      CountFollows(s, list, r, t, n, -1);
    }
    NextUnchanged(s, list, r, t);
    ChainFrame(s, r, s.head, list);
    Assemble(s, list, r, list, t, n);
  }

  lemma LastReader(s: State, list: seq<Node>, t: Thread, n: Node)
    requires Inv(s, list) && n in s.refs && s.refs[n] == SHOULD_BE_ON_FREELIST + 1
    ensures n !in s.owned && n !in list && |Holders(s, n)| == 1
    ensures forall u | u in s.pc :: !Carries(s.pc[u], n)
  {
    assert NodeOk(s, list, n);
    HoldersBounded(s, n);
  }

  /** Every call and every step keeps the invariant, for the list it leaves behind. */
  lemma DoKeeps(s: State, list: seq<Node>, a: Action) returns (list': seq<Node>)
    requires Inv(s, list) && Enabled(s, a)
    ensures Inv(Do(s, a), list')
  {
    list' := list;
    match a {
      case Add(t, n) => AddKeeps(s, list, t, n);
      case TryGet(t) => MoveKeeps(s, list, t, ReadHead, 0);
      case Step(t) => list' := StepKeeps(s, list, t);
    }
  }

  /** The list after thread t's next operation. */
  ghost function ListAfter(s: State, list: seq<Node>, t: Thread): seq<Node>
    requires t in s.pc
  {
    var p := s.pc[t];
    if p.PushHead? && s.head == p.head then [p.node] + list
    else if p.PopHead? && s.head == Some(p.node) && list != [] then list[1..]
    else list
  }

  lemma StepKeeps(s: State, list: seq<Node>, t: Thread) returns (list': seq<Node>)
    requires Inv(s, list) && Enabled(s, Step(t))
    ensures list' == ListAfter(s, list, t) && Inv(Do(s, Step(t)), list')
  {
    list' := list;
    var p := s.pc[t];
    assert PcTyped(s.refs.Keys, p) && Remembers(s, p);
    match p {
      case MarkRefs(n) => MarkKeeps(s, list, t);
      case LoadHead(n, b) => MoveKeeps(s, list, t, StoreNext(n, s.head, b), n);
      case StoreNext(n, h, b) => StoreNextKeeps(s, list, t);
      case StoreRefs(n, h, b) => StoreRefsKeeps(s, list, t);
      case PushHead(n, h, b) =>
        if s.head == h {
          PushKeeps(s, list, t);
          list' := [n] + list;
        } else {
          MoveKeeps(s, list, t, UnpushRefs(n, s.head, b), n);
        }
      case UnpushRefs(n, h, b) => UnpushKeeps(s, list, t);
      case ReadHead => MoveKeeps(s, list, t, Loop(s.head), 0);
      case ReadRefs(n) =>
        MoveKeeps(s, list, t, if s.refs[n] % (REFS_MASK + 1) == 0 then ReadHead else ClaimRefs(n, s.refs[n]), 0);
      case ClaimRefs(n, r) =>
        if s.refs[n] == r {
          ClaimKeeps(s, list, t);
        } else {
          MoveKeeps(s, list, t, ReadHead, 0);
        }
      case ReadNext(n) => MoveKeeps(s, list, t, PopHead(n, s.next[n]), n);
      case PopHead(n, x) =>
        if s.head == Some(n) {
          PopKeeps(s, list, t);
          list' := list[1..];
        } else {
          MoveKeeps(s, list, t, DropOne(n, s.head), n);
        }
      case CheckRefs(n) => MoveKeeps(s, list, t, DropBoth(n), n);
      case DropBoth(n) => DropBothKeeps(s, list, t);
      case DropOne(n, h) => DropOneKeeps(s, list, t);
    }
  }

  lemma InitialInv(s: State)
    requires Initial(s)
    ensures Inv(s, [])
  {
    forall n | n in s.refs ensures NodeOk(s, [], n) {
      assert Holders(s, n) == {};
      assert !Carried(s, n);
    }
    forall t | t in s.pc ensures Remembers(s, s.pc[t]) {
      assert s.pc[t].Idle?;
    }
  }

  lemma {:induction false} RunKeeps(s: State, list: seq<Node>, schedule: seq<Action>) returns (list': seq<Node>)
    requires Inv(s, list)
    ensures Inv(Run(s, schedule), list')
    decreases |schedule|
  {
    if schedule == [] {
      list' := list;
    } else if Enabled(s, schedule[0]) {
      var mid := DoKeeps(s, list, schedule[0]);
      list' := RunKeeps(Do(s, schedule[0]), mid, schedule[1..]);
    } else {
      list' := RunKeeps(s, list, schedule[1..]);
    }
  }

  // ---- The promises ------------------------------------------------------------------------

  /** In every interleaving the chain from the head is finite and free of repetitions, and no
      node a caller owns is on it. */
  lemma ListIsSound(s: State, schedule: seq<Action>) returns (list: seq<Node>)
    requires Initial(s)
    ensures var r := Run(s, schedule); Chain(r, r.head, list) && NoDuplicates(list)
    ensures forall n | n in list :: n in s.refs && n !in Run(s, schedule).owned
  {
    InitialInv(s);
    list := RunKeeps(s, [], schedule);
    ChainKnown(Run(s, schedule), Run(s, schedule).head, list);
    RunKeys(s, schedule);
    forall n | n in list ensures n !in Run(s, schedule).owned {
      assert NodeOk(Run(s, schedule), list, n);
    }
  }

  lemma ChainKnown(s: State, p: Option<Node>, list: seq<Node>)
    requires Typed(s) && Chain(s, p, list)
    ensures forall n | n in list :: n in s.refs
    decreases |list|
  {
    if list != [] {
      ChainKnown(s, s.next[list[0]], list[1..]);
    }
  }

  lemma RunKeys(s: State, schedule: seq<Action>)
    requires Typed(s)
    ensures Run(s, schedule).refs.Keys == s.refs.Keys
    decreases |schedule|
  {
    if schedule != [] {
      RunKeys(if Enabled(s, schedule[0]) then Do(s, schedule[0]) else s, schedule[1..]);
    }
  }

  /** The assert in try_get never fires: a node just taken off the list is not marked. */
  lemma TakenNodeIsUnmarked(s: State, schedule: seq<Action>, t: Thread)
    requires Initial(s) && t in s.pc
    requires Run(s, schedule).pc[t].CheckRefs?
    ensures var r := Run(s, schedule);
      var n := r.pc[t].node; n in r.refs && r.refs[n] < SHOULD_BE_ON_FREELIST
  {
    InitialInv(s);
    var list := RunKeeps(s, [], schedule);
    var r := Run(s, schedule);
    CarriedAlone(r, list, t, r.pc[t].node);
    HoldersBounded(r, r.pc[t].node);
  }

  /** When every call has returned, each node is owned by a caller or on the list, never both:
      no node is lost and none is duplicated. */
  lemma NoNodeIsLost(s: State, schedule: seq<Action>) returns (list: seq<Node>)
    requires Initial(s)
    requires forall t | t in s.pc :: Run(s, schedule).pc[t].Idle?
    ensures Run(s, schedule).refs.Keys == s.refs.Keys
    ensures Chain(Run(s, schedule), Run(s, schedule).head, list)
    ensures forall n | n in s.refs :: (n in Run(s, schedule).owned) != (n in list)
    ensures forall n | n in s.refs :: Run(s, schedule).refs[n] == if n in list then 1 else 0
  {
    InitialInv(s);
    list := RunKeeps(s, [], schedule);
    var r := Run(s, schedule);
    RunKeys(s, schedule);
    forall n | n in s.refs ensures (n in r.owned) != (n in list) && r.refs[n] == if n in list then 1 else 0 {
      assert NodeOk(r, list, n);
      assert Holders(r, n) == {};
      assert !Carried(r, n);
    }
  }

  /** A trace in which each node is handed out only while nobody owns it and handed in only by its owner. */
  ghost predicate Fair(owned: set<Node>, trace: seq<Event>)
    decreases |trace|
  {
    trace != [] ==>
      match trace[0]
      case Added(n) => n in owned && Fair(owned - {n}, trace[1..])
      case Got(n) => n !in owned && Fair(owned + {n}, trace[1..])
  }

  lemma {:induction false} TraceIsFair(s: State, list: seq<Node>, schedule: seq<Action>)
    requires Inv(s, list)
    ensures Fair(s.owned, Trace(s, schedule))
    decreases |schedule|
  {
    if schedule == [] {
    } else if Enabled(s, schedule[0]) {
      var a, r := schedule[0], Do(s, schedule[0]);
      var mid := DoKeeps(s, list, a);
      TraceIsFair(r, mid, schedule[1..]);
      var e, rest := Emits(s, a), Trace(r, schedule[1..]);
      if a.Step? && s.pc[a.t].DropBoth? {
        CarriedAlone(s, list, a.t, s.pc[a.t].node);
      }
      OwnedChange(s, a);
      assert e == [] ==> e + rest == rest;
      assert e != [] ==> (e + rest)[0] == e[0] && (e + rest)[1..] == rest;
    } else {
      TraceIsFair(s, list, schedule[1..]);
    }
  }

  lemma OwnedChange(s: State, a: Action)
    requires Typed(s) && Enabled(s, a)
    ensures Do(s, a).owned ==
      if Emits(s, a) == [] then s.owned
      else match Emits(s, a)[0]
           case Added(n) => s.owned - {n}
           case Got(n) => s.owned + {n}
  {
  }

  lemma {:induction false} OwnedIsNotHandedOut(owned: set<Node>, trace: seq<Event>, j: nat, n: Node) returns (k: nat)
    requires Fair(owned, trace) && n in owned && j < |trace| && trace[j] == Got(n)
    ensures k < j && trace[k] == Added(n)
    decreases |trace|
  {
    if trace[0] == Added(n) {
      k := 0;
    } else {
      var owned' := match trace[0] case Added(m) => owned - {m} case Got(m) => owned + {m};
      var k' := OwnedIsNotHandedOut(owned', trace[1..], j - 1, n);
      k := k' + 1;
    }
  }

  lemma {:induction false} FairBetween(owned: set<Node>, trace: seq<Event>, i: nat, j: nat, n: Node) returns (k: nat)
    requires Fair(owned, trace) && i < j < |trace| && trace[i] == Got(n) && trace[j] == Got(n)
    ensures i < k < j && trace[k] == Added(n)
    decreases |trace|
  {
    var owned' := match trace[0] case Added(m) => owned - {m} case Got(m) => owned + {m};
    var k' := if i == 0 then 0 else i - 1;
    if i == 0 {
      k' := OwnedIsNotHandedOut(owned', trace[1..], j - 1, n);
    } else {
      k' := FairBetween(owned', trace[1..], i - 1, j - 1, n);
    }
    k := k' + 1;
  }

  /** No interleaving hands a node out twice without an add of that node in between. */
  lemma NeverHandedOutTwice(s: State, schedule: seq<Action>, i: nat, j: nat, n: Node) returns (k: nat)
    requires Initial(s)
    requires i < j < |Trace(s, schedule)|
    requires Trace(s, schedule)[i] == Got(n) && Trace(s, schedule)[j] == Got(n)
    ensures i < k < j && Trace(s, schedule)[k] == Added(n)
  {
    InitialInv(s);
    TraceIsFair(s, [], schedule);
    k := FairBetween(s.owned, Trace(s, schedule), i, j, n);
  }

  // ---- Alone, the free list is a stack -------------------------------------------------------

  ghost predicate Quiet(s: State, list: seq<Node>) {
    Inv(s, list) && forall t | t in s.pc :: s.pc[t].Idle?
  }

  function Alone(s: State, t: Thread, steps: nat): (r: State)
    requires Typed(s) && t in s.pc
    ensures Typed(r) && r.pc.Keys == s.pc.Keys
    decreases steps
  {
    if steps == 0 then s else
      AdvanceTyped(s, t);
      Alone(Advance(s, t), t, steps - 1)
  }

  lemma AloneSplits(s: State, t: Thread, k: nat, m: nat)
    requires Typed(s) && t in s.pc
    ensures Alone(s, t, k + m) == Alone(Alone(s, t, k), t, m)
    decreases k
  {
    if k > 0 {
      AdvanceTyped(s, t);
      AloneSplits(Advance(s, t), t, k - 1, m);
    }
  }

  /** One step of t: where it gets to, without the invariant in the way. */
  ghost predicate Moved(s: State, r: State, t: Thread, p: Pc, owned: set<Node>) {
    t in s.pc && r.pc == s.pc[t := p] && r.owned == owned
  }

  lemma OneStep(s: State, t: Thread)
    requires Typed(s) && t in s.pc
    ensures Alone(s, t, 1) == Advance(s, t) && Typed(Advance(s, t))
    ensures Advance(s, t).pc.Keys == s.pc.Keys
  {
    AdvanceTyped(s, t);
    assert Alone(s, t, 1) == Alone(Advance(s, t), t, 0);
  }

  lemma MovedTwice(s: State, m: State, r: State, t: Thread, p: Pc, q: Pc, o: set<Node>, o': set<Node>)
    requires Moved(s, m, t, p, o) && Moved(m, r, t, q, o')
    ensures Moved(s, r, t, q, o')
  {
  }

  /** With no other call in progress, add pushes the node: the five steps of the call. */
  lemma AddAlonePushes(s: State, list: seq<Node>, t: Thread, n: Node)
    requires Quiet(s, list) && Enabled(s, Add(t, n))
    ensures var r := Alone(Do(s, Add(t, n)), t, 5);
      && Quiet(r, [n] + list)
      && r.owned == s.owned - {n}
  {
    var s0, s1, s2 := MarkAlone(s, list, t, n);
    var s3, s4, s5 := LinkAlone(s2, list, t);
    FiveSteps(s0, s1, s2, s3, s4, s5, t);
    MovedTwice(s, s2, s5, t, s2.pc[t], Idle, s2.owned, s5.owned);
  }

  lemma FiveSteps(s0: State, s1: State, s2: State, s3: State, s4: State, s5: State, t: Thread)
    requires Typed(s0) && Typed(s1) && Typed(s2) && Typed(s3) && Typed(s4)
    requires t in s0.pc && t in s1.pc && t in s2.pc && t in s3.pc && t in s4.pc
    requires s1 == Advance(s0, t) && s2 == Advance(s1, t) && s3 == Advance(s2, t)
    requires s4 == Advance(s3, t) && s5 == Advance(s4, t)
    ensures Alone(s0, t, 5) == s5
  {
    OneStep(s0, t);
    OneStep(s1, t);
    OneStep(s2, t);
    OneStep(s3, t);
    OneStep(s4, t);
    AloneSplits(s0, t, 1, 4);
    AloneSplits(s1, t, 1, 3);
    AloneSplits(s2, t, 1, 2);
    AloneSplits(s3, t, 1, 1);
  }

  /** add: mark the node, see that nobody reads it, load the head. */
  lemma MarkAlone(s: State, list: seq<Node>, t: Thread, n: Node) returns (s0: State, s1: State, s2: State)
    requires Quiet(s, list) && Enabled(s, Add(t, n))
    ensures s0 == Do(s, Add(t, n)) && Typed(s0) && t in s0.pc && s1 == Advance(s0, t)
    ensures Typed(s1) && t in s1.pc && s2 == Advance(s1, t)
    ensures Inv(s2, list) && Moved(s, s2, t, StoreNext(n, s2.head, ToAdd), s.owned - {n})
  {
    QuietRefs(s, list, n);
    AddKeeps(s, list, t, n);
    s0 := Do(s, Add(t, n));
    s1 := Marked(s0, list, t);
    s2 := Loaded(s1, list, t);
    MovedTwice(s, s0, s1, t, MarkRefs(n), LoadHead(n, ToAdd), s0.owned, s1.owned);
    MovedTwice(s, s1, s2, t, LoadHead(n, ToAdd), s2.pc[t], s1.owned, s2.owned);
  }

  lemma Marked(s: State, list: seq<Node>, t: Thread) returns (r: State)
    requires Inv(s, list) && t in s.pc && s.pc[t].MarkRefs?
    requires s.pc[t].node in s.refs && s.refs[s.pc[t].node] == 0
    ensures r == Advance(s, t) && Inv(r, list) && Moved(s, r, t, LoadHead(s.pc[t].node, ToAdd), s.owned)
  {
    MarkKeeps(s, list, t);
    r := Advance(s, t);
  }

  lemma Loaded(s: State, list: seq<Node>, t: Thread) returns (r: State)
    requires Inv(s, list) && t in s.pc && s.pc[t].LoadHead?
    ensures r == Advance(s, t) && Inv(r, list)
    ensures Moved(s, r, t, StoreNext(s.pc[t].node, r.head, s.pc[t].back), s.owned)
  {
    assert PcTyped(s.refs.Keys, s.pc[t]);
    MoveKeeps(s, list, t, StoreNext(s.pc[t].node, s.head, s.pc[t].back), s.pc[t].node);
    r := Advance(s, t);
  }

  /** add: point the node at the head, count the list's reference, push. */
  lemma LinkAlone(s: State, list: seq<Node>, t: Thread) returns (s1: State, s2: State, s3: State)
    requires Inv(s, list) && t in s.pc && s.pc[t].StoreNext? && s.pc[t].head == s.head && s.pc[t].back == ToAdd
    ensures s1 == Advance(s, t) && Typed(s1) && t in s1.pc && s2 == Advance(s1, t)
    ensures Typed(s2) && t in s2.pc && s3 == Advance(s2, t)
    ensures Inv(s3, [s.pc[t].node] + list) && Moved(s, s3, t, Idle, s.owned)
  {
    var n := s.pc[t].node;
    s1 := Linked(s, list, t);
    s2 := Counted(s1, list, t);
    s3 := Pushed(s2, list, t);
    MovedTwice(s, s1, s2, t, s1.pc[t], s2.pc[t], s.owned, s.owned);
    MovedTwice(s, s2, s3, t, s2.pc[t], Idle, s.owned, s.owned);
  }

  lemma Linked(s: State, list: seq<Node>, t: Thread) returns (r: State)
    requires Inv(s, list) && t in s.pc && s.pc[t].StoreNext?
    ensures r == Advance(s, t) && Inv(r, list) && r.head == s.head
    ensures Moved(s, r, t, StoreRefs(s.pc[t].node, s.pc[t].head, s.pc[t].back), s.owned)
  {
    StoreNextKeeps(s, list, t);
    r := Advance(s, t);
  }

  lemma Counted(s: State, list: seq<Node>, t: Thread) returns (r: State)
    requires Inv(s, list) && t in s.pc && s.pc[t].StoreRefs?
    ensures r == Advance(s, t) && Inv(r, list) && r.head == s.head
    ensures Moved(s, r, t, PushHead(s.pc[t].node, s.pc[t].head, s.pc[t].back), s.owned)
  {
    StoreRefsKeeps(s, list, t);
    r := Advance(s, t);
  }

  lemma Pushed(s: State, list: seq<Node>, t: Thread) returns (r: State)
    requires Inv(s, list) && t in s.pc && s.pc[t].PushHead? && s.head == s.pc[t].head && s.pc[t].back == ToAdd
    ensures r == Advance(s, t) && Inv(r, [s.pc[t].node] + list) && Moved(s, r, t, Idle, s.owned)
  {
    PushKeeps(s, list, t);
    r := Advance(s, t);
  }

  /** With no other call in progress, try_get pops the head, or returns null on an empty list. */
  lemma TryGetAlonePops(s: State, list: seq<Node>, t: Thread)
    requires Quiet(s, list) && Enabled(s, TryGet(t))
    ensures list == [] ==> Alone(Do(s, TryGet(t)), t, 1) == s
    ensures list != [] ==>
      var r := Alone(Do(s, TryGet(t)), t, 7);
      && Quiet(r, list[1..])
      && r.owned == s.owned + {list[0]}
  {
    if list == [] {
      var s0 := Do(s, TryGet(t));
      OneStep(s0, t);
      assert Advance(s0, t).pc == s.pc;
    } else {
      PopsHead(s, list, t);
    }
  }

  lemma TwoMoreSteps(s0: State, s5: State, s6: State, s7: State, t: Thread)
    requires Typed(s0) && t in s0.pc && Alone(s0, t, 5) == s5
    requires Typed(s5) && t in s5.pc && s6 == Advance(s5, t)
    requires Typed(s6) && t in s6.pc && s7 == Advance(s6, t)
    ensures Alone(s0, t, 7) == s7
  {
    hide Advance, Typed;
    OneStep(s5, t);
    OneStep(s6, t);
    AloneSplits(s5, t, 1, 1);
    AloneSplits(s0, t, 5, 2);
  }

  lemma PopsHead(s: State, list: seq<Node>, t: Thread)
    requires Quiet(s, list) && Enabled(s, TryGet(t)) && list != []
    ensures var r := Alone(Do(s, TryGet(t)), t, 7);
      && Quiet(r, list[1..])
      && r.owned == s.owned + {list[0]}
  {
    var s0, s3 := StartsPop(s, list, t);
    var s7 := EndsPop(s0, s3, list, t);
    MovedTwice(s, s0, s3, t, ReadHead, s3.pc[t], s.owned, s.owned);
    MovedTwice(s, s3, s7, t, s3.pc[t], Idle, s.owned, s7.owned);
    StaysQuiet(s, s7, list, list[1..], t, s7.owned);
  }

  lemma Asked(s: State, list: seq<Node>, t: Thread) returns (r: State)
    requires Quiet(s, list) && Enabled(s, TryGet(t))
    ensures r == Do(s, TryGet(t)) && Inv(r, list) && r.refs == s.refs && Moved(s, r, t, ReadHead, s.owned)
  {
    MoveKeeps(s, list, t, ReadHead, 0);
    r := Do(s, TryGet(t));
  }

  /** try_get up to the claimed head. */
  lemma StartsPop(s: State, list: seq<Node>, t: Thread) returns (s0: State, s3: State)
    requires Quiet(s, list) && Enabled(s, TryGet(t)) && list != []
    ensures s0 == Do(s, TryGet(t)) && Typed(s0) && t in s0.pc && Alone(s0, t, 3) == s3
    ensures Moved(s, s0, t, ReadHead, s.owned)
    ensures Inv(s3, list) && Moved(s0, s3, t, ReadNext(list[0]), s.owned)
  {
    hide Typed, Chain, NodeOk, Remembers, Alone, Advance, NoDuplicates, Do;
    s0 := Asked(s, list, t);
    var s1, s2;
    s1, s2, s3 := ClaimAlone(s, list, s0, t);
    OneStep(s0, t);
    OneStep(s1, t);
    OneStep(s2, t);
    AloneSplits(s0, t, 1, 2);
    AloneSplits(s1, t, 1, 1);
  }

  /** try_get from the claimed head on. */
  lemma EndsPop(s0: State, s3: State, list: seq<Node>, t: Thread) returns (s7: State)
    requires Typed(s0) && t in s0.pc && Alone(s0, t, 3) == s3
    requires Inv(s3, list) && list != [] && t in s3.pc && s3.pc[t] == ReadNext(list[0])
    ensures Alone(s0, t, 7) == s7 && Inv(s7, list[1..]) && Moved(s3, s7, t, Idle, s3.owned + {list[0]})
  {
    hide Typed, Chain, NodeOk, Remembers, Advance, NoDuplicates, Alone;
    var s4, s5 := PopAlone(s3, list, t);
    var s6;
    s6, s7 := ReturnAlone(s5, list[1..], t);
    MovedTwice(s3, s5, s7, t, s5.pc[t], Idle, s3.owned, s7.owned);
    OneStep(s3, t);
    OneStep(s4, t);
    AloneSplits(s3, t, 1, 1);
    AloneSplits(s0, t, 3, 2);
    TwoMoreSteps(s0, s5, s6, s7, t);
  }

  lemma StaysQuiet(s: State, r: State, list: seq<Node>, list': seq<Node>, t: Thread, owned: set<Node>)
    requires Quiet(s, list) && Inv(r, list') && Moved(s, r, t, Idle, owned)
    ensures Quiet(r, list')
  {
    hide Inv;
  }

  /** try_get on a quiet list: find the head and count ourselves among its readers. */
  lemma ClaimAlone(s: State, list: seq<Node>, s0: State, t: Thread) returns (s1: State, s2: State, s3: State)
    requires Quiet(s, list) && list != [] && t in s.pc
    requires Inv(s0, list) && Moved(s, s0, t, ReadHead, s.owned) && s0.refs == s.refs
    ensures s1 == Advance(s0, t) && Typed(s1) && t in s1.pc && s2 == Advance(s1, t)
    ensures Typed(s2) && t in s2.pc && s3 == Advance(s2, t)
    ensures Inv(s3, list) && Moved(s0, s3, t, ReadNext(list[0]), s.owned)
  {
    var n := list[0];
    QuietListed(s, list, n);
    s1 := Looked(s0, list, t);
    s2 := Weighed(s1, list, t);
    s3 := Claimed(s2, list, t);
    MovedTwice(s0, s1, s2, t, s1.pc[t], s2.pc[t], s.owned, s.owned);
    MovedTwice(s0, s2, s3, t, s2.pc[t], s3.pc[t], s.owned, s.owned);
  }

  lemma Looked(s: State, list: seq<Node>, t: Thread) returns (r: State)
    requires Inv(s, list) && t in s.pc && s.pc[t].ReadHead? && list != []
    ensures r == Advance(s, t) && Inv(r, list) && r.refs == s.refs && Moved(s, r, t, ReadRefs(list[0]), s.owned)
  {
    MoveKeeps(s, list, t, ReadRefs(list[0]), 0);
    r := Advance(s, t);
  }

  lemma Weighed(s: State, list: seq<Node>, t: Thread) returns (r: State)
    requires Inv(s, list) && t in s.pc && s.pc[t].ReadRefs?
    requires s.pc[t].node in s.refs && s.refs[s.pc[t].node] == 1
    ensures r == Advance(s, t) && Inv(r, list) && r.refs == s.refs
    ensures Moved(s, r, t, ClaimRefs(s.pc[t].node, 1), s.owned)
  {
    MoveKeeps(s, list, t, ClaimRefs(s.pc[t].node, 1), 0);
    r := Advance(s, t);
  }

  lemma Claimed(s: State, list: seq<Node>, t: Thread) returns (r: State)
    requires Inv(s, list) && t in s.pc && s.pc[t].ClaimRefs? && s.pc[t].refs == 1
    requires s.pc[t].node in s.refs && s.refs[s.pc[t].node] == 1
    ensures r == Advance(s, t) && Inv(r, list) && Moved(s, r, t, ReadNext(s.pc[t].node), s.owned)
  {
    ClaimKeeps(s, list, t);
    r := Advance(s, t);
  }

  /** try_get on a quiet list: read the next node and swing the head to it. */
  lemma PopAlone(s: State, list: seq<Node>, t: Thread) returns (s1: State, s2: State)
    requires Inv(s, list) && t in s.pc && list != [] && s.pc[t] == ReadNext(list[0])
    ensures s1 == Advance(s, t) && Typed(s1) && t in s1.pc && s2 == Advance(s1, t)
    ensures Inv(s2, list[1..]) && Moved(s, s2, t, CheckRefs(list[0]), s.owned)
  {
    s1 := Peeked(s, list, t);
    s2 := Popped(s1, list, t);
    MovedTwice(s, s1, s2, t, s1.pc[t], s2.pc[t], s.owned, s.owned);
  }

  lemma Peeked(s: State, list: seq<Node>, t: Thread) returns (r: State)
    requires Inv(s, list) && t in s.pc && s.pc[t].ReadNext?
    ensures r == Advance(s, t) && Inv(r, list) && r.head == s.head && s.pc[t].node in s.next
    ensures Moved(s, r, t, PopHead(s.pc[t].node, s.next[s.pc[t].node]), s.owned)
  {
    var n := s.pc[t].node;
    assert PcTyped(s.refs.Keys, s.pc[t]);
    MoveKeeps(s, list, t, PopHead(n, s.next[n]), n);
    r := Advance(s, t);
  }

  lemma Popped(s: State, list: seq<Node>, t: Thread) returns (r: State)
    requires Inv(s, list) && t in s.pc && s.pc[t].PopHead? && s.head == Some(s.pc[t].node)
    ensures r == Advance(s, t) && list != [] && Inv(r, list[1..])
    ensures Moved(s, r, t, CheckRefs(s.pc[t].node), s.owned)
  {
    PopKeeps(s, list, t);
    r := Advance(s, t);
  }

  /** try_get: drop our reference and the list's, and return the node. */
  lemma ReturnAlone(s: State, list: seq<Node>, t: Thread) returns (s1: State, s2: State)
    requires Inv(s, list) && t in s.pc && s.pc[t].CheckRefs?
    ensures s1 == Advance(s, t) && Typed(s1) && t in s1.pc && s2 == Advance(s1, t)
    ensures Inv(s2, list) && Moved(s, s2, t, Idle, s.owned + {s.pc[t].node})
  {
    s1 := Checked(s, list, t);
    s2 := Dropped(s1, list, t);
    MovedTwice(s, s1, s2, t, s1.pc[t], Idle, s.owned, s2.owned);
  }

  lemma Checked(s: State, list: seq<Node>, t: Thread) returns (r: State)
    requires Inv(s, list) && t in s.pc && s.pc[t].CheckRefs?
    ensures r == Advance(s, t) && Inv(r, list) && Moved(s, r, t, DropBoth(s.pc[t].node), s.owned)
  {
    assert PcTyped(s.refs.Keys, s.pc[t]);
    MoveKeeps(s, list, t, DropBoth(s.pc[t].node), s.pc[t].node);
    r := Advance(s, t);
  }

  lemma Dropped(s: State, list: seq<Node>, t: Thread) returns (r: State)
    requires Inv(s, list) && t in s.pc && s.pc[t].DropBoth?
    ensures r == Advance(s, t) && Inv(r, list) && Moved(s, r, t, Idle, s.owned + {s.pc[t].node})
  {
    DropBothKeeps(s, list, t);
    r := Advance(s, t);
  }

  lemma QuietRefs(s: State, list: seq<Node>, n: Node)
    requires Quiet(s, list) && n in s.owned
    ensures n in s.refs && s.refs[n] == 0
  {
    assert NodeOk(s, list, n);
    assert Holders(s, n) == {};
  }

  lemma QuietListed(s: State, list: seq<Node>, n: Node)
    requires Quiet(s, list) && n in list
    ensures n in s.refs && s.refs[n] == 1
  {
    ChainKnown(s, s.head, list);
    assert NodeOk(s, list, n);
    assert Holders(s, n) == {};
  }
}
