/**
 What every message makes of the queue, the agents and the graphs, over every run of the master: freed
 resources start the graphs that wait, in the order in which they were accepted.
 */
module MasterRuns {
  import opened Options
  import opened Scheduler
  import opened MasterState
  import opened MasterBooks
  import opened MasterAnswers
  import opened MasterQueue

  // ---- The queue ---------------------------------------------------------------------------

  /** The graph that a message puts into the queue: one whose containers can all be assigned to what the
      agents have. */
  function Accepted(m: Master, e: Event): seq<Key>
    requires Ordered(m)
  {
    if e.OnTopology? && Enabled(m, e) && Assignable(Resources(m), Needs(e.containers)) then [e.graph] else []
  }

  /** Messages that may free resources or bring new ones, or a graph. */
  predicate Schedules(m: Master, e: Event)
    requires Ordered(m)
  {
    (e.OnResource? && (Enabled(m, e) || Stale(m, e))) || (e.OnTaskInfo? && (Enabled(m, e) || Stale(m, e))) || Accepted(m, e) != []
  }

  /** The graphs accepted in a run, in order. */
  function AllAccepted(m: Master, schedule: seq<Event>): seq<Key>
    requires Ordered(m)
    decreases |schedule|
  {
    if schedule == [] then [] else Accepted(m, schedule[0]) + AllAccepted(Do(m, schedule[0]), schedule[1..])
  }

  /** The queue r of what was queued q, after the first n of them were started or found gone. */
  ghost predicate Shifted(q: seq<Key>, n: nat, r: Master) {
    && n <= |q| && r.queue == q[n..]
    && forall i | 0 <= i < n && q[i] in r.graphs :: Started(r, q[i])
  }

  ghost predicate Started(r: Master, g: Key) {
    && g in r.graphs && r.graphs[g].containers.Some?
    && forall j | 0 <= j < |r.graphs[g].containers.value| ::
         TaskId(g, r.graphs[g].containers.value[j].0) in r.graphs[g].placement
  }

  lemma {:induction false} ContainersStay(m: Master)
    requires Inv(m)
    ensures forall g | g in m.graphs :: g in Dequeue(m).graphs && Dequeue(m).graphs[g].containers == m.graphs[g].containers
    decreases |m.queue|
  {
    hide AgentsOk, PlacedOk, KnownOk, GraphsOk, QueueOk, TryDequeue, OthersSame, StartedNow, FrontWaits;
    if m.queue != [] {
      var g, rest := m.queue[0], m.queue[1..];
      assert m.queue == [g] + rest;
      if g !in m.graphs {
        PopKeeps(m, g, rest);
        ContainersStay(m.(queue := rest));
      } else {
        FrontIsTried(m, g, rest);
        var r := TryDequeue(m.(queue := rest), g);
        if r.Some? {
          OthersKeep(m, r.value, g, rest);
          ContainersStay(r.value);
        }
      }
    }
  }

  lemma OthersKeep(m: Master, r: Master, g: Key, rest: seq<Key>)
    requires OthersSame(m.(queue := rest), r, g) && g in m.graphs && g in r.graphs
    requires r.graphs[g].containers == m.graphs[g].containers
    ensures forall h | h in m.graphs :: h in r.graphs && r.graphs[h].containers == m.graphs[h].containers
  {
  }

  lemma DequeueShifts(m: Master) returns (n: nat)
    requires Inv(m)
    ensures Shifted(m.queue, n, Dequeue(m))
    ensures Dequeue(m).queue != [] ==> FrontWaits(Dequeue(m))
  {
    hide AgentsOk, PlacedOk, KnownOk, GraphsOk, QueueOk, Ordered, FrontWaits;
    n := QueueRunsInOrder(m);
    ContainersStay(m);
    var r := Dequeue(m);
    hide Dequeue;
    forall i | 0 <= i < n && m.queue[i] in r.graphs ensures Started(r, m.queue[i]) {
      assert m.queue[i] in r.graphs.Keys;
      assert StartedNow(m, r, m.queue[i]);
    }
  }

  lemma NothingShifted(m: Master, r: Master)
    requires r.queue == m.queue
    ensures Shifted(m.queue, 0, r)
  {
  }

  lemma {:induction false} RemovalsKeepQueue(m: Master, ts: seq<TaskId>)
    ensures RemoveGraphs(m, ts).queue == m.queue
    decreases |ts|
  {
    if ts != [] {
      RemovalsKeepQueue(RemoveGraph(m, ts[0].graph, true), ts[1..]);
    }
  }

  lemma TopologyShifts(m: Master, g: Key, cs: Containers) returns (n: nat)
    requires Inv(m) && Enabled(m, OnTopology(g, cs))
    ensures Shifted(m.queue + Accepted(m, OnTopology(g, cs)), n, Do(m, OnTopology(g, cs)))
    ensures var r := Do(m, OnTopology(g, cs));
      Accepted(m, OnTopology(g, cs)) != [] && r.queue != [] ==> FrontWaits(r)
  {
    var k := m.(graphs := m.graphs[g := Graph(Some(cs), [], m.graphs[g].placement)]);
    assert Resources(k) == Resources(m);
    TopologyEnters(m, g, cs);
    hide AgentsOk, PlacedOk, KnownOk, GraphsOk, QueueOk, Dequeue, Assignable, FrontWaits;
    if TryEnqueue(k, cs) {
      n := DequeueShifts(k.(queue := k.queue + [g]));
    } else {
      n := 0;
      assert m.queue + [] == m.queue;
      NothingShifted(m, RemoveGraph(k, g, false));
    }
  }

  lemma TopologyEnters(m: Master, g: Key, cs: Containers)
    requires Inv(m) && Enabled(m, OnTopology(g, cs))
    ensures var k := m.(graphs := m.graphs[g := Graph(Some(cs), [], m.graphs[g].placement)]);
      Inv(k.(queue := k.queue + [g]))
  {
    hide Sum, Balanced;
    var n := m.(graphs := m.graphs[g := Graph(Some(cs), [], m.graphs[g].placement)]);
    assert GraphOk(m, g);
    forall b, t | b in n.agents && t in n.agents[b].tasks ensures Known(n, b, t) { assert Known(m, b, t); }
    forall h, t | h in n.graphs && t in n.graphs[h].placement ensures Placed(n, h, t) { assert Placed(m, h, t); }
    forall h | h in n.graphs && h != g ensures GraphOk(n, h) { assert GraphOk(m, h); }
    QueueGrows(n, g);
  }

  lemma SettledInv(m: Master, a: Key, info: TaskInfo)
    requires Inv(m) && Enabled(m, OnTaskInfo(a, info))
    ensures m.agents[a].released.Some? && Inv(Settle(Book(m, a, info), info))
    ensures Settle(Book(m, a, info), info).queue == m.queue
  {
    hide Inv, InvBut, Reported, Book;
    BookKeeps(m, a, info);
    if info.task.graph in m.graphs {
      SettleKeeps(Book(m, a, info), info);
    } else {
      SettleNothing(m, a, info);
    }
    BookKeepsQueue(m, a, info);
  }

  lemma BookKeepsQueue(m: Master, a: Key, info: TaskInfo)
    requires a in m.agents && info.task in m.agents[a].tasks && m.agents[a].released.Some?
    ensures Book(m, a, info).queue == m.queue
  {
  }

  /** What a message makes of the queue: the graph it brings, if it is accepted, goes behind the others;
      graphs leave from the front, started if they are still there. And after every message that brings
      resources or a graph the one at the front waits because it does not fit. */
  lemma QueueMoves(m: Master, e: Event) returns (n: nat)
    requires Inv(m)
    ensures Shifted(m.queue + Accepted(m, e), n, Do(m, e))
    ensures Schedules(m, e) && Do(m, e).queue != [] ==> FrontWaits(Do(m, e))
  {
    hide AgentsOk, PlacedOk, KnownOk, GraphsOk, QueueOk, Dequeue, Book, Settle, RemoveGraph, Assignable, FrontWaits, Shifted;
    n := 0;
    assert m.queue + [] == m.queue;
    if Stale(m, e) {
      n := DequeueShifts(m);
    } else if !Enabled(m, e) {
      NothingShifted(m, m);
    } else {
      match e {
        case Connect => NothingShifted(m, Do(m, e));
        case Submit => NothingShifted(m, Do(m, e));
        case OnResource(a, x) =>
          ReportKeeps(m, a, x);
          n := DequeueShifts(m.(agents := m.agents[a := m.agents[a].(resource := Some(x), released := Some(x))]));
        case OnTopology(g, cs) => n := TopologyShifts(m, g, cs);
        case OnTaskInfo(a, info) =>
          SettledInv(m, a, info);
          n := DequeueShifts(Settle(Book(m, a, info), info));
        case AgentLost(a, ts) =>
          RemovalsKeepQueue(m, ts);
          NothingShifted(m, Do(m, e));
        case GraphLost(g) =>
          RemovalKeepsQueue(m, g);
          NothingShifted(m, Do(m, e));
      }
    }
  }

  lemma RemovalKeepsQueue(m: Master, g: Key)
    ensures RemoveGraph(m, g, true).queue == m.queue
  {
  }

  lemma Slices(q: seq<Key>, a: seq<Key>, b: seq<Key>, k: nat, l: nat)
    requires k <= |q + a| && l <= |(q + a)[k..] + b|
    ensures k + l <= |q + (a + b)| && ((q + a)[k..] + b)[l..] == (q + (a + b))[k + l..]
  {
    assert (q + a)[k..] + b == (q + (a + b))[k..];
  }

  /** In every run the queue holds the last of the graphs that were accepted, in the order in which they
      were. */
  lemma {:induction false} QueueIsInOrder(m: Master, schedule: seq<Event>) returns (n: nat)
    requires Inv(m)
    ensures n <= |m.queue + AllAccepted(m, schedule)|
    ensures Run(m, schedule).queue == (m.queue + AllAccepted(m, schedule))[n..]
    decreases |schedule|
  {
    if schedule == [] {
      n := 0;
      assert m.queue + [] == m.queue;
    } else {
      assert Ordered(m);
      hide Inv, Do, Accepted, Ordered;
      var e, rest := schedule[0], schedule[1..];
      DoKeeps(m, e);
      var k := QueueMoves(m, e);
      var l := QueueIsInOrder(Do(m, e), rest);
      n := k + l;
      Slices(m.queue, Accepted(m, e), AllAccepted(Do(m, e), rest), k, l);
    }
  }

  /** From the start of the master: the queue is the end of the list of accepted graphs, and after each
      message that brings resources or a graph the first of them waits because it does not fit. */
  lemma WaitingGraphsAreServed(schedule: seq<Event>, e: Event) returns (n: nat)
    ensures n <= |AllAccepted(UNUSED, schedule)| && Run(UNUSED, schedule).queue == AllAccepted(UNUSED, schedule)[n..]
    ensures var m, r := Run(UNUSED, schedule), Run(UNUSED, schedule + [e]);
      && r == Do(m, e)
      && (Schedules(m, e) && r.queue != [] ==> FrontWaits(r))
  {
    UnusedInv();
    RunKeeps(UNUSED, schedule);
    RunSnoc(UNUSED, schedule, e);
    n := QueueIsInOrder(UNUSED, schedule);
    assert UNUSED.queue + AllAccepted(UNUSED, schedule) == AllAccepted(UNUSED, schedule);
    hide Inv, Run, Do, AllAccepted, Schedules, FrontWaits;
    var k := QueueMoves(Run(UNUSED, schedule), e);
  }

  // ---- What else the messages do -----------------------------------------------------------

  /** Starting graphs: agents keep what they have and hold, and get tasks of queued graphs only. */
  ghost predicate TasksComeFrom(m: Master, r: Master, gs: seq<Key>) {
    && r.agents.Keys == m.agents.Keys && r.graphs.Keys == m.graphs.Keys
    && forall a | a in m.agents ::
         && r.agents[a].resource == m.agents[a].resource
         && (forall t | t in m.agents[a].tasks :: t in r.agents[a].tasks)
         && (forall t | t in r.agents[a].tasks :: t in m.agents[a].tasks || (t.graph in gs && t.graph in m.graphs))
  }

  lemma PlaceOneTasks(m: Master, g: Key, c: (Key, Resource), a: Key)
    requires g in m.graphs && a in m.agents && m.agents[a].released.Some? && Covers(m.agents[a].released.value, c.1)
    ensures TasksComeFrom(m, PlaceOne(m, g, c, a), [g])
  {
    hide Covers, Minus;
  }

  lemma TasksComeOn(m: Master, k: Master, r: Master, g: Key)
    requires TasksComeFrom(m, k, [g]) && TasksComeFrom(k, r, [g])
    ensures TasksComeFrom(m, r, [g])
  {
    forall a | a in m.agents
      ensures a in r.agents && r.agents[a].resource == m.agents[a].resource
      ensures forall t | t in m.agents[a].tasks :: t in r.agents[a].tasks
      ensures forall t | t in r.agents[a].tasks :: t in m.agents[a].tasks || (t.graph in [g] && t.graph in m.graphs)
    {
      assert a in k.agents.Keys && a in r.agents.Keys;
      assert forall h | h in k.graphs :: h in k.graphs.Keys && h in m.graphs.Keys;
    }
  }

  lemma {:induction false} PlaceAllTasks(m: Master, g: Key, cs: Containers)
    requires Ordered(m) && g in m.graphs
    ensures PlaceAll(m, g, cs).Some? ==> TasksComeFrom(m, PlaceAll(m, g, cs).value, [g])
    decreases |cs|
  {
    hide Ordered, Chosen, TasksComeFrom;
    if cs == [] {
      NoTasksCome(m, [g]);
    } else if Chosen(m, cs[0].1).Some? {
      var a := Chosen(m, cs[0].1).value;
      PlaceOneOrdered(m, g, cs[0], a);
      PlaceOneTasks(m, g, cs[0], a);
      var k := PlaceOne(m, g, cs[0], a);
      PlaceAllTasks(k, g, cs[1..]);
      var r := PlaceAll(k, g, cs[1..]);
      if r.Some? { TasksComeOn(m, k, r.value, g); }
    }
  }

  lemma {:induction false} DequeueTasks(m: Master)
    requires Ordered(m)
    ensures TasksComeFrom(m, Dequeue(m), m.queue)
    decreases |m.queue|
  {
    hide PlaceAll, Ordered, TasksComeFrom;
    if m.queue == [] {
      NoTasksCome(m, m.queue);
    } else {
      var g, rest := m.queue[0], m.queue[1..];
      var n := m.(queue := rest);
      OrderedStays(m, rest);
      if g !in m.graphs {
        DequeueTasks(n);
        TasksJoin(m, m, n, Dequeue(n), g, rest, m.queue);
      } else {
        if m.graphs[g].containers.Some? {
          PlaceAllTasks(n, g, m.graphs[g].containers.value);
        }
        var r := TryDequeue(n, g);
        if r.Some? {
          DequeueTasks(r.value);
          TasksJoin(m, r.value, r.value, Dequeue(r.value), g, rest, m.queue);
        } else {
          NoTasksCome(m, m.queue);
        }
      }
    }
  }

  lemma OrderedStays(m: Master, rest: seq<Key>)
    ensures Ordered(m.(queue := rest)) <==> Ordered(m)
  {
  }

  lemma NoTasksCome(m: Master, gs: seq<Key>)
    ensures TasksComeFrom(m, m, gs)
  {
  }

  /** The first graph, if it was started, and the others. */
  lemma TasksJoin(m: Master, k: Master, n: Master, r: Master, g: Key, rest: seq<Key>, gs: seq<Key>)
    requires gs == [g] + rest && n.agents == k.agents && TasksComeFrom(n, r, rest)
    requires n.graphs == k.graphs
    requires (k.agents == m.agents && k.graphs == m.graphs) || TasksComeFrom(m.(queue := rest), k, [g])
    ensures TasksComeFrom(m, r, gs)
  {
    forall a | a in m.agents
      ensures a in r.agents && r.agents[a].resource == m.agents[a].resource
      ensures forall t | t in m.agents[a].tasks :: t in r.agents[a].tasks
      ensures forall t | t in r.agents[a].tasks :: t in m.agents[a].tasks || (t.graph in gs && t.graph in m.graphs)
    {
      assert a in k.agents.Keys;
      assert a in r.agents.Keys;
      assert forall h | h in k.graphs :: h in k.graphs.Keys && h in m.graphs.Keys;
    }
  }

  lemma DequeueResource(m: Master, a: Key)
    requires Ordered(m) && a in m.agents
    ensures a in Dequeue(m).agents && Dequeue(m).agents[a].resource == m.agents[a].resource
  {
    DequeueTasks(m);
    assert a in Dequeue(m).agents.Keys;
    hide Dequeue, Ordered;
  }

  /** An agent has what it reported, until it is lost. */
  lemma ResourcesAreAsReported(m: Master, e: Event, a: Key)
    requires Inv(m) && a in m.agents && a in Do(m, e).agents
    ensures Do(m, e).agents[a].resource == if e.OnResource? && e.agent == a && Enabled(m, e) then Some(e.resource) else m.agents[a].resource
  {
    assert Ordered(m);
    hide AgentsOk, PlacedOk, KnownOk, GraphsOk, QueueOk, Dequeue, Ordered;
    if Stale(m, e) {
      DequeueResource(m, a);
    } else if Enabled(m, e) {
      match e {
        case Connect =>
        case Submit =>
        case OnResource(b, x) =>
          ReportedOrdered(m, b, x);
          DequeueResource(m.(agents := m.agents[b := m.agents[b].(resource := Some(x), released := Some(x))]), a);
        case OnTopology(g, cs) =>
          TopologyOrdered(m, g, cs);
          var n := m.(graphs := m.graphs[g := Graph(Some(cs), [], m.graphs[g].placement)]);
          DequeueResource(n.(queue := n.queue + [g]), a);
        case OnTaskInfo(b, info) =>
          SettledInv(m, b, info);
          SettledOrdered(m, b, info);
          DequeueResource(Settle(Book(m, b, info), info), a);
        case AgentLost(b, ts) =>
        case GraphLost(g) =>
      }
    }
  }

  lemma ReportedOrdered(m: Master, a: Key, x: Resource)
    requires Ordered(m) && a in m.agents
    ensures Ordered(m.(agents := m.agents[a := m.agents[a].(resource := Some(x), released := Some(x))]))
  {
  }

  lemma TopologyOrdered(m: Master, g: Key, cs: Containers)
    requires Ordered(m) && g in m.graphs
    ensures var n := m.(graphs := m.graphs[g := Graph(Some(cs), [], m.graphs[g].placement)]); Ordered(n.(queue := n.queue + [g]))
  {
  }

  /** A graph that runs goes on with a report more and a task less; it ends with the error of a task, or
      with its last one, and its client is sent all reports. The task is off its agent either way. */
  lemma TaskEndDecides(m: Master, a: Key, info: TaskInfo)
    requires Inv(m) && Enabled(m, OnTaskInfo(a, info))
    ensures var n, g := Do(m, OnTaskInfo(a, info)), info.task.graph;
      && a in n.agents && info.task !in n.agents[a].tasks
      && (g in m.graphs ==>
            var x := m.graphs[g];
            if info.error || x.placement.Keys == {info.task} then
              g !in n.graphs && n.solutions == m.solutions + [Solution(g, x.infos + [info], true)]
            else
              g in n.graphs && n.solutions == m.solutions
              && n.graphs[g] == x.(infos := x.infos + [info], placement := x.placement - {info.task}))
  {
    var g, k := info.task.graph, Settle(Book(m, a, info), info);
    assert Known(m, a, info.task);
    if g in m.graphs { RunningIsNotQueued(m, a, info); }
    SettledInv(m, a, info);
    hide Inv, Dequeue, Complete, Book, Settle;
    TaskEndIsAnswered(m, a, info);
    SettledOrdered(m, a, info);
    SettledGraph(m, a, info);
    var n := QueueRunsInOrder(k);
    DequeueSolves(k);
    DequeueTasks(k);
    hide StartedNow, FrontWaits, Ordered;
    assert g in k.graphs.Keys <==> g in Dequeue(k).graphs.Keys;
    assert a in Dequeue(k).agents.Keys;
  }

  lemma RunningIsNotQueued(m: Master, a: Key, info: TaskInfo)
    requires Inv(m) && Enabled(m, OnTaskInfo(a, info)) && info.task.graph in m.graphs
    ensures info.task.graph !in m.queue
  {
    assert Known(m, a, info.task) && GraphOk(m, info.task.graph);
  }

  /** The books before the queue is looked at. */
  lemma SettledGraph(m: Master, a: Key, info: TaskInfo)
    requires Ordered(m) && a in m.agents && info.task in m.agents[a].tasks && m.agents[a].released.Some?
    requires info.task.graph in m.graphs ==> info.task in m.graphs[info.task.graph].placement
    ensures var k, g := Settle(Book(m, a, info), info), info.task.graph;
      && a in k.agents && info.task !in k.agents[a].tasks && k.graphs.Keys <= m.graphs.Keys
      && (g in m.graphs ==>
            var x := m.graphs[g];
            (g in k.graphs <==> !(info.error || x.placement.Keys == {info.task}))
            && (g in k.graphs ==> k.graphs[g] == x.(infos := x.infos + [info], placement := x.placement - {info.task})))
  {
    var g := info.task.graph;
    if g in m.graphs {
      var p := m.graphs[g].placement;
      assert (p - {info.task}).Keys == p.Keys - {info.task};
      assert p.Keys == (p.Keys - {info.task}) + {info.task};
      assert p - {info.task} == map[] <==> (p - {info.task}).Keys == {};
    }
  }

  lemma {:induction false} RemovalsForget(m: Master, ts: seq<TaskId>)
    ensures var n := RemoveGraphs(m, ts);
      && n.agents == m.agents && n.queue == m.queue
      && (forall g | g in n.graphs :: g in m.graphs && n.graphs[g] == m.graphs[g])
      && forall g | g in m.graphs :: g in n.graphs <==> !exists i | 0 <= i < |ts| :: ts[i].graph == g
    decreases |ts|
  {
    if ts != [] {
      var k := RemoveGraph(m, ts[0].graph, true);
      RemovalsForget(k, ts[1..]);
      assert forall i | 0 < i < |ts| :: ts[i] == ts[1..][i - 1];
      forall g | g in m.graphs
        ensures g in RemoveGraphs(m, ts).graphs <==> !exists i | 0 <= i < |ts| :: ts[i].graph == g
      {
        assert g == ts[0].graph || (g in k.graphs && k.graphs[g] == m.graphs[g]);
        if i :| 0 <= i < |ts[1..]| && ts[1..][i].graph == g { assert ts[i + 1].graph == g; }
      }
    }
  }

  /** With an agent go the graphs that had a task there, and no others; the other agents stay as they are. */
  lemma LostAgentsTakeTheirGraphs(m: Master, a: Key, ts: seq<TaskId>)
    requires Inv(m) && Enabled(m, AgentLost(a, ts))
    ensures var n := Do(m, AgentLost(a, ts));
      && n.agents == m.agents - {a} && n.queue == m.queue
      && (forall g | g in n.graphs :: g in m.graphs && n.graphs[g] == m.graphs[g])
      && forall g | g in m.graphs :: g in n.graphs <==> !exists t :: t in m.agents[a].tasks && t.graph == g
  {
    hide Inv, RemoveGraphs;
    RemovalsForget(m, ts);
    forall g | g in m.graphs
      ensures (exists i | 0 <= i < |ts| :: ts[i].graph == g) <==> exists t :: t in m.agents[a].tasks && t.graph == g
    {
      if t :| t in m.agents[a].tasks && t.graph == g {
        assert t in ts;
        var i :| 0 <= i < |ts| && ts[i] == t;
        assert ts[i].graph == g;
      }
      if i :| 0 <= i < |ts| && ts[i].graph == g { assert ts[i] in m.agents[a].tasks; }
    }
  }

  /** A graph stays exactly if all of its containers can be assigned to what the agents have; otherwise its
      client is told that it does not fit. */
  lemma TopologyDecides(m: Master, g: Key, cs: Containers)
    requires Inv(m) && Enabled(m, OnTopology(g, cs))
    ensures Ordered(m)
    ensures var n := Do(m, OnTopology(g, cs));
      if Assignable(Resources(m), Needs(cs)) then
        g in n.graphs && n.graphs[g].containers == Some(cs) && n.solutions == m.solutions
      else g !in n.graphs && n.solutions == m.solutions + [Solution(g, [], false)]
  {
    var k := m.(graphs := m.graphs[g := Graph(Some(cs), [], m.graphs[g].placement)]);
    assert Ordered(m) && Resources(k) == Resources(m);
    TopologyEnters(m, g, cs);
    hide AgentsOk, PlacedOk, KnownOk, GraphsOk, QueueOk, Dequeue, Assignable;
    if TryEnqueue(k, cs) {
      ContainersStay(k.(queue := k.queue + [g]));
      DequeueSolves(k.(queue := k.queue + [g]));
    }
  }
}
