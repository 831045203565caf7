/**
 What the clients of the master are told, over every run: why a solution is sent, that the solution
 of a graph that ends well reports each of its containers once, and that no graph is answered twice.
 */
module MasterAnswers {
  import opened Options
  import opened Scheduler
  import opened MasterState
  import opened MasterBooks

  /** One report for each container, none with an error, and no others. */
  ghost predicate Complete(s: Solution, cs: Containers) {
    && NoErrors(s.infos) && |s.infos| == |cs|
    && (forall i, j | 0 <= i < j < |s.infos| :: s.infos[i].task != s.infos[j].task)
    && (forall i | 0 <= i < |s.infos| :: s.infos[i].task.graph == s.graph && InContainers(cs, s.infos[i].task.container))
    && (forall j | 0 <= j < |cs| :: InInfos(s.infos, TaskId(s.graph, cs[j].0)))
  }

  lemma AllReported(g: Key, cs: Containers, infos: seq<TaskInfo>)
    requires Accounted(g, cs, infos, map[]) && forall i, j | 0 <= i < j < |cs| :: cs[i].0 != cs[j].0
    ensures |infos| == |cs|
  {
    var a, b := set i | 0 <= i < |infos| :: infos[i].task, set j | 0 <= j < |cs| :: TaskId(g, cs[j].0);
    forall t | t in b ensures t in a {
      var j :| 0 <= j < |cs| && t == TaskId(g, cs[j].0);
      assert InInfos(infos, t);
    }
    forall t | t in a ensures t in b {
      var i :| 0 <= i < |infos| && infos[i].task == t;
      assert InContainers(cs, t.container);
    }
    assert a == b;
    InfosCount(infos);
    ContainersCount(g, cs);
  }

  lemma {:induction false} InfosCount(infos: seq<TaskInfo>)
    requires forall i, j | 0 <= i < j < |infos| :: infos[i].task != infos[j].task
    ensures |(set i | 0 <= i < |infos| :: infos[i].task)| == |infos|
    decreases |infos|
  {
    if infos != [] {
      var n := |infos| - 1;
      InfosCount(infos[..n]);
      assert (set i | 0 <= i < |infos| :: infos[i].task) == (set i | 0 <= i < n :: infos[..n][i].task) + {infos[n].task};
    }
  }

  lemma {:induction false} ContainersCount(g: Key, cs: Containers)
    requires forall i, j | 0 <= i < j < |cs| :: cs[i].0 != cs[j].0
    ensures |(set j | 0 <= j < |cs| :: TaskId(g, cs[j].0))| == |cs|
    decreases |cs|
  {
    if cs != [] {
      var n := |cs| - 1;
      ContainersCount(g, cs[..n]);
      assert (set j | 0 <= j < |cs| :: TaskId(g, cs[j].0)) == (set j | 0 <= j < n :: TaskId(g, cs[..n][j].0)) + {TaskId(g, cs[n].0)};
    }
  }

  // ---- What the handlers do to the solutions -----------------------------------------------

  lemma {:induction false} PlaceAllSolves(m: Master, g: Key, cs: Containers)
    requires Ordered(m) && g in m.graphs
    ensures var r := PlaceAll(m, g, cs); r.Some? ==> r.value.solutions == m.solutions && r.value.nextGraph == m.nextGraph
    decreases |cs|
  {
    hide Ordered, Chosen;
    if cs != [] && Chosen(m, cs[0].1).Some? {
      var a := Chosen(m, cs[0].1).value;
      PlaceOneOrdered(m, g, cs[0], a);
      PlaceAllSolves(PlaceOne(m, g, cs[0], a), g, cs[1..]);
    }
  }

  /** Starting graphs answers nobody and forgets no graph. */
  lemma {:induction false} DequeueSolves(m: Master)
    requires Ordered(m)
    ensures Dequeue(m).solutions == m.solutions && Dequeue(m).graphs.Keys == m.graphs.Keys
    ensures Dequeue(m).nextGraph == m.nextGraph
    decreases |m.queue|
  {
    hide PlaceAll;
    if m.queue != [] {
      var g, rest := m.queue[0], m.queue[1..];
      if g !in m.graphs {
        DequeueSolves(m.(queue := rest));
      } else {
        var n := m.(queue := rest);
        if m.graphs[g].containers.Some? {
          PlaceAllSolves(n, g, m.graphs[g].containers.value);
        }
        var r := TryDequeue(n, g);
        if r.Some? {
          DequeueSolves(r.value);
        }
      }
    }
  }

  // ---- Why a solution is sent --------------------------------------------------------------

  /** A solution says that the graph does not fit; or a task of it ended, with an error or as the last
      one with a complete account; or an agent that held a task of it was lost; or its client was. */
  ghost predicate Justified(m: Master, e: Event, s: Solution) {
    && s.graph in m.graphs
    && var x := m.graphs[s.graph];
       match e
       case OnTopology(g, cs) => s == Solution(g, [], false) && Ordered(m) && !Assignable(Resources(m), Needs(cs))
       case OnTaskInfo(a, info) =>
         && s.graph == info.task.graph && s.fits && x.containers.Some?
         && s.infos == x.infos + [info] && NoErrors(x.infos)
         && (info.error || Complete(s, x.containers.value))
       case AgentLost(a, ts) => s.fits && s.infos == x.infos && NoErrors(s.infos) && exists t :: t in ts && t.graph == s.graph
       case GraphLost(g) => s == Solution(g, x.infos, true) && NoErrors(s.infos)
       case _ => false
  }

  /** The solutions after a step are those before it and justified ones. */
  ghost predicate OnlyJustified(m: Master, e: Event, solutions: seq<Solution>) {
    m.solutions <= solutions && forall k | |m.solutions| <= k < |solutions| :: Justified(m, e, solutions[k])
  }

  lemma NoneAnswered(m: Master, e: Event)
    ensures OnlyJustified(m, e, m.solutions)
  {
  }

  lemma OneAnswered(m: Master, e: Event, s: Solution)
    requires Justified(m, e, s)
    ensures OnlyJustified(m, e, m.solutions + [s])
  {
  }

  /** A task's end: the graph goes on, ends with an error, or ends well. */
  lemma TaskEndIsAnswered(m: Master, a: Key, info: TaskInfo)
    requires Inv(m) && Enabled(m, OnTaskInfo(a, info)) && m.agents[a].released.Some?
    ensures var g, n := info.task.graph, Settle(Book(m, a, info), info);
      if g in m.graphs && (info.error || m.graphs[g].placement.Keys == {info.task}) then
        && n.solutions == m.solutions + [Solution(g, m.graphs[g].infos + [info], true)] && g !in n.graphs
        && m.graphs[g].containers.Some? && NoErrors(m.graphs[g].infos)
        && (!info.error ==> Complete(Solution(g, m.graphs[g].infos + [info], true), m.graphs[g].containers.value))
      else n.solutions == m.solutions
  {
    hide Sum, Balanced, Ordered, PlacedOk, QueueOk;
    var g := info.task.graph;
    if g in m.graphs {
      assert GraphOk(m, g) && Known(m, a, info.task);
      var x := m.graphs[g];
      hide Inv, Known;
      if x.placement.Keys == {info.task} {
        assert x.placement - {info.task} == map[];
        if !info.error {
          LastReport(g, x, info);
        }
      } else {
        var t :| t in x.placement.Keys && t != info.task;
        assert t in x.placement - {info.task};
      }
    }
  }

  lemma LastReport(g: Key, x: Graph, info: TaskInfo)
    requires x.containers.Some? && x.placement.Keys == {info.task} && NoErrors(x.infos) && !info.error
    requires Accounted(g, x.containers.value, x.infos, x.placement)
    requires forall i, j | 0 <= i < j < |x.containers.value| :: x.containers.value[i].0 != x.containers.value[j].0
    ensures Complete(Solution(g, x.infos + [info], true), x.containers.value)
  {
    AccountedMoves(g, x.containers.value, x.infos, x.placement, info);
    assert x.placement - {info.task} == map[];
    AllReported(g, x.containers.value, x.infos + [info]);
  }

  /** When the last task of a graph ends without an error, its client is sent exactly one report for
      each of its containers. */
  lemma FinishedGraphsAreAnswered(schedule: seq<Event>, a: Key, info: TaskInfo)
    requires var m := Run(UNUSED, schedule);
      && Enabled(m, OnTaskInfo(a, info)) && !info.error && info.task.graph in m.graphs
      && m.graphs[info.task.graph].placement.Keys == {info.task}
    ensures var m, g := Run(UNUSED, schedule), info.task.graph;
      var n := Do(m, OnTaskInfo(a, info));
      && g !in n.graphs && m.graphs[g].containers.Some?
      && n.solutions == m.solutions + [Solution(g, m.graphs[g].infos + [info], true)]
      && Complete(Solution(g, m.graphs[g].infos + [info], true), m.graphs[g].containers.value)
  {
    hide Run, Complete, Inv, Dequeue, Book, Settle;
    UnusedInv();
    RunKeeps(UNUSED, schedule);
    var m := Run(UNUSED, schedule);
    BookKeeps(m, a, info);
    TaskEndIsAnswered(m, a, info);
    SettledOrdered(m, a, info);
    DequeueSolves(Settle(Book(m, a, info), info));
  }

  lemma SettledOrdered(m: Master, a: Key, info: TaskInfo)
    requires Inv(m) && a in m.agents && info.task in m.agents[a].tasks && m.agents[a].released.Some?
    ensures Ordered(m) && Ordered(Settle(Book(m, a, info), info))
  {
    hide AgentsOk, PlacedOk, KnownOk, GraphsOk, QueueOk;
  }

  /** The graphs of some tasks are given up: each that is still there is answered. */
  lemma {:induction false} LostGraphsAreAnswered(m: Master, n: Master, e: Event, ts: seq<TaskId>)
    requires e.AgentLost? && (forall t | t in ts :: t in e.tasks)
    requires GraphsOk(m) && (forall g | g in n.graphs :: g in m.graphs && n.graphs[g] == m.graphs[g])
    requires OnlyJustified(m, e, n.solutions)
    ensures OnlyJustified(m, e, RemoveGraphs(n, ts).solutions)
    decreases |ts|
  {
    if ts != [] {
      var t, r := ts[0], RemoveGraph(n, ts[0].graph, true);
      assert t in e.tasks;
      if t.graph in n.graphs {
        assert GraphOk(m, t.graph);
        assert Justified(m, e, Solution(t.graph, n.graphs[t.graph].infos, true));
      }
      hide Justified, GraphsOk;
      LostGraphsAreAnswered(m, r, e, ts[1..]);
    }
  }

  lemma StepIsJustified(m: Master, e: Event)
    requires Inv(m)
    ensures OnlyJustified(m, e, Do(m, e).solutions)
  {
    hide OnlyJustified, Justified, Sum, Balanced, Dequeue, AgentsOk, PlacedOk, KnownOk, QueueOk;
    NoneAnswered(m, e);
    if Stale(m, e) {
      DequeueSolves(m);
    } else if Enabled(m, e) {
      match e {
        case Connect =>
        case Submit =>
        case OnResource(a, x) => DequeueSolves(m.(agents := m.agents[a := m.agents[a].(resource := Some(x), released := Some(x))]));
        case OnTopology(g, cs) => TopologyIsJustified(m, g, cs);
        case OnTaskInfo(a, info) => TaskInfoIsJustified(m, a, info);
        case AgentLost(a, ts) => LostGraphsAreAnswered(m, m, e, ts);
        case GraphLost(g) => LostClientIsJustified(m, g);
      }
    }
  }

  lemma LostClientIsJustified(m: Master, g: Key)
    requires Inv(m) && Enabled(m, GraphLost(g))
    ensures OnlyJustified(m, GraphLost(g), Do(m, GraphLost(g)).solutions)
  {
    hide Sum, Balanced, AgentsOk, PlacedOk, KnownOk, QueueOk, Ordered;
    assert GraphOk(m, g);
    OneAnswered(m, GraphLost(g), Solution(g, m.graphs[g].infos, true));
  }

  lemma TopologyIsJustified(m: Master, g: Key, cs: Containers)
    requires Inv(m) && Enabled(m, OnTopology(g, cs))
    ensures OnlyJustified(m, OnTopology(g, cs), Do(m, OnTopology(g, cs)).solutions)
  {
    hide Sum, Balanced, Dequeue, AgentsOk, PlacedOk, KnownOk, QueueOk, GraphsOk, Assignable;
    var n := m.(graphs := m.graphs[g := Graph(Some(cs), [], m.graphs[g].placement)]);
    assert Resources(n) == Resources(m);
    if TryEnqueue(n, cs) {
      DequeueSolves(n.(queue := n.queue + [g]));
      NoneAnswered(m, OnTopology(g, cs));
    } else {
      OneAnswered(m, OnTopology(g, cs), Solution(g, [], false));
    }
  }

  lemma TaskInfoIsJustified(m: Master, a: Key, info: TaskInfo)
    requires Inv(m) && Enabled(m, OnTaskInfo(a, info))
    ensures OnlyJustified(m, OnTaskInfo(a, info), Do(m, OnTaskInfo(a, info)).solutions)
  {
    hide Inv, OnlyJustified, Complete, Book, Settle, Dequeue;
    BookKeeps(m, a, info);
    TaskEndIsAnswered(m, a, info);
    SettledOrdered(m, a, info);
    DequeueSolves(Settle(Book(m, a, info), info));
    NoneAnswered(m, OnTaskInfo(a, info));
    var g := info.task.graph;
    if g in m.graphs && (info.error || m.graphs[g].placement.Keys == {info.task}) {
      OneAnswered(m, OnTaskInfo(a, info), Solution(g, m.graphs[g].infos + [info], true));
    }
  }

  // ---- Every solution of every run ---------------------------------------------------------

  lemma {:induction false} RunSnoc(m: Master, schedule: seq<Event>, e: Event)
    requires Ordered(m)
    ensures Run(m, schedule + [e]) == Do(Run(m, schedule), e)
    decreases |schedule|
  {
    hide Do;
    if schedule == [] {
      assert (schedule + [e])[1..] == [];
    } else {
      assert (schedule + [e])[1..] == schedule[1..] + [e];
      RunSnoc(Do(m, schedule[0]), schedule[1..], e);
    }
  }

  /** Every solution a client is ever sent was sent at a step that justifies it. */
  lemma {:induction false} EverySolutionIsJustified(schedule: seq<Event>, k: nat) returns (i: nat)
    requires k < |Run(UNUSED, schedule).solutions|
    ensures i < |schedule| && Justified(Run(UNUSED, schedule[..i]), schedule[i], Run(UNUSED, schedule).solutions[k])
    decreases |schedule|
  {
    hide Do, Justified;
    var n := |schedule| - 1;
    assert |schedule| == 0 ==> schedule == [];
    var before := schedule[..n];
    assert schedule == before + [schedule[n]];
    UnusedInv();
    RunKeeps(UNUSED, before);
    RunSnoc(UNUSED, before, schedule[n]);
    hide Run, Inv;
    StepIsJustified(Run(UNUSED, before), schedule[n]);
    if k < |Run(UNUSED, before).solutions| {
      i := EverySolutionIsJustified(before, k);
      assert schedule[..i] == before[..i];
    } else {
      i := n;
    }
  }

  // ---- Nobody is answered twice ------------------------------------------------------------

  ghost predicate AnsweredOk(m: Master) {
    && (forall i, j | 0 <= i < j < |m.solutions| :: m.solutions[i].graph != m.solutions[j].graph)
    && (forall i | 0 <= i < |m.solutions| :: m.solutions[i].graph < m.nextGraph && m.solutions[i].graph !in m.graphs)
    && (forall g | g in m.graphs :: g < m.nextGraph)
    && (forall g: Key | 0 <= g < m.nextGraph :: g in m.graphs || Answered(m, g))
  }

  predicate Answered(m: Master, g: Key) { exists i | 0 <= i < |m.solutions| :: m.solutions[i].graph == g }

  /** Graphs with the same keys, and the same solutions. */
  lemma SameAnswers(m: Master, n: Master)
    requires AnsweredOk(m) && n.solutions == m.solutions && n.graphs.Keys == m.graphs.Keys && n.nextGraph == m.nextGraph
    ensures AnsweredOk(n)
  {
    assert forall g | g in n.graphs :: g in n.graphs.Keys && g in m.graphs;
    assert forall g | g in n.graphs.Keys :: g in m.graphs.Keys;
    forall i | 0 <= i < |n.solutions| ensures n.solutions[i].graph !in n.graphs {
      assert m.solutions[i].graph !in m.graphs.Keys;
    }
    forall g: Key | 0 <= g < n.nextGraph ensures g in n.graphs || Answered(n, g) {
      assert g in m.graphs <==> g in m.graphs.Keys;
      assert Answered(m, g) ==> Answered(n, g);
    }
  }

  lemma RemovalAnswers(m: Master, g: Key, fits: bool)
    requires AnsweredOk(m)
    ensures AnsweredOk(RemoveGraph(m, g, fits)) && RemoveGraph(m, g, fits).nextGraph == m.nextGraph
  {
    var r := RemoveGraph(m, g, fits);
    if g in m.graphs {
      assert r.solutions[|m.solutions|].graph == g;
      forall h: Key | 0 <= h < r.nextGraph ensures h in r.graphs || Answered(r, h) {
        if Answered(m, h) {
          var i :| 0 <= i < |m.solutions| && m.solutions[i].graph == h;
          assert r.solutions[i].graph == h;
        }
      }
    }
  }

  lemma {:induction false} RemovalsAnswer(m: Master, ts: seq<TaskId>)
    requires AnsweredOk(m)
    ensures AnsweredOk(RemoveGraphs(m, ts))
    decreases |ts|
  {
    hide AnsweredOk, RemoveGraph;
    if ts != [] {
      RemovalAnswers(m, ts[0].graph, true);
      RemovalsAnswer(RemoveGraph(m, ts[0].graph, true), ts[1..]);
    }
  }

  lemma SettleAnswers(m: Master, a: Key, info: TaskInfo)
    requires AnsweredOk(m) && a in m.agents && info.task in m.agents[a].tasks && m.agents[a].released.Some?
    ensures AnsweredOk(Settle(Book(m, a, info), info))
  {
    hide AnsweredOk, RemoveGraph;
    var n := Book(m, a, info);
    assert n.graphs.Keys == m.graphs.Keys;
    SameAnswers(m, n);
    RemovalAnswers(n, info.task.graph, true);
  }

  lemma DequeueAnswers(m: Master)
    requires AnsweredOk(m) && Ordered(m)
    ensures AnsweredOk(Dequeue(m))
  {
    hide AnsweredOk, Dequeue;
    DequeueSolves(m);
    SameAnswers(m, Dequeue(m));
  }

  lemma TopologyAnswers(m: Master, g: Key, cs: Containers)
    requires Inv(m) && AnsweredOk(m) && Enabled(m, OnTopology(g, cs))
    ensures AnsweredOk(Do(m, OnTopology(g, cs)))
  {
    hide AgentsOk, PlacedOk, KnownOk, GraphsOk, QueueOk, AnsweredOk, Dequeue, RemoveGraph;
    var n := m.(graphs := m.graphs[g := Graph(Some(cs), [], m.graphs[g].placement)]);
    assert n.graphs.Keys == m.graphs.Keys;
    SameAnswers(m, n);
    if TryEnqueue(n, cs) {
      SameAnswers(n, n.(queue := n.queue + [g]));
      DequeueAnswers(n.(queue := n.queue + [g]));
    } else {
      RemovalAnswers(n, g, false);
    }
  }

  lemma SubmissionAnswers(m: Master)
    requires AnsweredOk(m) && Ordered(m)
    ensures AnsweredOk(Do(m, Submit))
  {
    hide Ordered;
    var r := Do(m, Submit);
    forall g: Key | 0 <= g < r.nextGraph ensures g in r.graphs || Answered(r, g) {
      assert g < m.nextGraph ==> g in m.graphs || Answered(m, g);
    }
  }

  lemma StepAnswers(m: Master, e: Event)
    requires Inv(m) && AnsweredOk(m)
    ensures AnsweredOk(Do(m, e))
  {
    hide AgentsOk, PlacedOk, KnownOk, GraphsOk, QueueOk, Dequeue, Settle, Book, RemoveGraph;
    if Stale(m, e) {
      DequeueAnswers(m);
    } else if Enabled(m, e) {
      match e {
        case Connect => SameAnswers(m, Do(m, e));
        case Submit => SubmissionAnswers(m);
        case OnResource(a, x) =>
          var n := m.(agents := m.agents[a := m.agents[a].(resource := Some(x), released := Some(x))]);
          SameAnswers(m, n);
          DequeueAnswers(n);
        case OnTopology(g, cs) => TopologyAnswers(m, g, cs);
        case OnTaskInfo(a, info) =>
          if m.agents[a].released.Some? {
            SettleAnswers(m, a, info);
            SettledOrdered(m, a, info);
            DequeueAnswers(Settle(Book(m, a, info), info));
          }
        case AgentLost(a, ts) =>
          RemovalsAnswer(m, ts);
          SameAnswers(RemoveGraphs(m, ts), Do(m, e));
        case GraphLost(g) => RemovalAnswers(m, g, true);
      }
    }
  }

  lemma {:induction false} RunAnswers(m: Master, schedule: seq<Event>)
    requires Inv(m) && AnsweredOk(m)
    ensures AnsweredOk(Run(m, schedule))
    decreases |schedule|
  {
    hide AgentsOk, PlacedOk, KnownOk, GraphsOk, QueueOk, AnsweredOk, Do;
    if schedule != [] {
      StepAnswers(m, schedule[0]);
      DoKeeps(m, schedule[0]);
      RunAnswers(Do(m, schedule[0]), schedule[1..]);
    }
  }

  /** No run sends two solutions for one graph, or one for a graph that is still there. */
  lemma NoGraphIsAnsweredTwice(schedule: seq<Event>, i: nat, j: nat)
    ensures var m := Run(UNUSED, schedule);
      && (i < j < |m.solutions| ==> m.solutions[i].graph != m.solutions[j].graph)
      && (i < |m.solutions| ==> m.solutions[i].graph !in m.graphs)
  {
    hide Inv, Run;
    UnusedInv();
    RunAnswers(UNUSED, schedule);
  }

  /** In every run each graph that a client has submitted is still there or has been answered, not both, and
      then once. */
  lemma EveryGraphIsAnswered(schedule: seq<Event>, g: Key)
    requires 0 <= g < Run(UNUSED, schedule).nextGraph
    ensures var m := Run(UNUSED, schedule);
      && (g in m.graphs <==> !exists i | 0 <= i < |m.solutions| :: m.solutions[i].graph == g)
      && forall i, j | 0 <= i < |m.solutions| && 0 <= j < |m.solutions| && m.solutions[i].graph == g == m.solutions[j].graph :: i == j
  {
    hide Inv, Run;
    UnusedInv();
    RunAnswers(UNUSED, schedule);
    var m := Run(UNUSED, schedule);
    assert g in m.graphs || Answered(m, g);
  }
}
