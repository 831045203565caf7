/**
 What the books of the master keep, over every run: resources are conserved, placements name
 agents that hold the task, no task is forgotten, and a graph is answered for every container.
 */
module MasterBooks {
  import opened Options
  import opened Scheduler
  import opened MasterState

  // ---- The invariant -----------------------------------------------------------------------

  /** What tasks take together. */
  ghost function Sum(tasks: map<TaskId, Resource>): Resource {
    if tasks == map[] then NO_RESOURCE
    else
      var t :| t in tasks;
      Plus(tasks[t], Sum(tasks - {t}))
  }

  /** An agent's resource is what is left and what its tasks take. */
  ghost predicate Balanced(a: Agent) {
    match a.resource
    case None => a.released.None? && a.tasks == map[]
    case Some(r) => a.released.Some? && Plus(a.released.value, Sum(a.tasks)) == r
  }

  /** A placed task is held by the agent it is placed on. */
  ghost predicate Placed(m: Master, g: Key, t: TaskId)
    requires g in m.graphs && t in m.graphs[g].placement
  {
    var a := m.graphs[g].placement[t];
    t.graph == g && a in m.agents && t in m.agents[a].tasks
  }

  /** A task on an agent is placed there by its graph, or has been told to end. */
  ghost predicate Known(m: Master, a: Key, t: TaskId)
  {
    && t.graph < m.nextGraph
    && if t.graph in m.graphs then
         t in m.graphs[t.graph].placement && m.graphs[t.graph].placement[t] == a
       else (a, t) in m.kills
  }

  predicate InContainers(cs: Containers, k: Key) { exists j | 0 <= j < |cs| :: cs[j].0 == k }

  predicate InInfos(infos: seq<TaskInfo>, t: TaskId) { exists i | 0 <= i < |infos| :: infos[i].task == t }

  /** Every container of a started graph is placed or reported, and not both; none is reported twice. */
  ghost predicate Accounted(g: Key, cs: Containers, infos: seq<TaskInfo>, placement: map<TaskId, Key>) {
    && (forall i, j | 0 <= i < j < |infos| :: infos[i].task != infos[j].task)
    && (forall i | 0 <= i < |infos| :: infos[i].task !in placement)
    && (forall i | 0 <= i < |infos| :: infos[i].task.graph == g && InContainers(cs, infos[i].task.container))
    && (forall t | t in placement :: t.graph == g && InContainers(cs, t.container))
    && (forall j | 0 <= j < |cs| :: InInfos(infos, TaskId(g, cs[j].0)) || TaskId(g, cs[j].0) in placement)
  }

  predicate NoErrors(infos: seq<TaskInfo>) { forall i | 0 <= i < |infos| :: !infos[i].error }

  ghost predicate GraphOk(m: Master, g: Key)
    requires g in m.graphs
  {
    var x := m.graphs[g];
    && g < m.nextGraph && NoErrors(x.infos)
    && match x.containers
       case None => x.infos == [] && x.placement == map[] && g !in m.queue
       case Some(cs) =>
         && (forall i, j | 0 <= i < j < |cs| :: cs[i].0 != cs[j].0)
         && if g in m.queue then x.infos == [] && x.placement == map[] else Accounted(g, cs, x.infos, x.placement)
  }

  ghost predicate AgentsOk(m: Master) {
    forall a | a in m.agents :: a < m.nextAgent && Balanced(m.agents[a])
  }

  ghost predicate PlacedOk(m: Master) {
    forall g, t | g in m.graphs && t in m.graphs[g].placement :: Placed(m, g, t)
  }

  ghost predicate KnownOk(m: Master) {
    forall a, t | a in m.agents && t in m.agents[a].tasks :: Known(m, a, t)
  }

  ghost predicate GraphsOk(m: Master) {
    forall g | g in m.graphs :: GraphOk(m, g)
  }

  ghost predicate QueueOk(m: Master) {
    Distinct(m.queue) && forall g | g in m.queue :: g < m.nextGraph
  }

  ghost predicate Inv(m: Master) {
    Ordered(m) && AgentsOk(m) && PlacedOk(m) && KnownOk(m) && GraphsOk(m) && QueueOk(m)
  }

  lemma UnusedInv()
    ensures Inv(UNUSED)
  {
  }

  // ---- Sums --------------------------------------------------------------------------------

  lemma PlusSwaps(a: Resource, b: Resource, c: Resource)
    ensures Plus(a, Plus(b, c)) == Plus(b, Plus(a, c)) && Plus(a, b) == Plus(b, a)
  {
  }

  lemma {:induction false} SumWithout(tasks: map<TaskId, Resource>, t: TaskId)
    requires t in tasks
    ensures Sum(tasks) == Plus(tasks[t], Sum(tasks - {t}))
    decreases |tasks|
  {
    hide Plus;
    var x :| x in tasks && Sum(tasks) == Plus(tasks[x], Sum(tasks - {x}));
    if x != t {
      assert |tasks - {x}| < |tasks| by {
        Smaller(tasks, x);
      }
      assert |tasks - {t}| < |tasks| by {
        Smaller(tasks, t);
      }
      SumWithout(tasks - {x}, t);
      SumWithout(tasks - {t}, x);
      assert tasks - {x} - {t} == tasks - {t} - {x};
      PlusSwaps(tasks[x], tasks[t], Sum(tasks - {x} - {t}));
    }
  }

  lemma Smaller(tasks: map<TaskId, Resource>, t: TaskId)
    requires t in tasks
    ensures |tasks - {t}| < |tasks|
  {
    assert (tasks - {t}).Keys == tasks.Keys - {t};
    assert |(tasks - {t}).Keys| == |tasks.Keys| - 1;
  }

  /** A task more, and less left by what it takes: the balance holds. */
  lemma SumWith(tasks: map<TaskId, Resource>, t: TaskId, r: Resource)
    requires t !in tasks
    ensures Sum(tasks[t := r]) == Plus(r, Sum(tasks))
  {
    SumWithout(tasks[t := r], t);
    assert tasks[t := r] - {t} == tasks;
  }

  lemma TakingBalances(a: Agent, t: TaskId, r: Resource)
    requires Balanced(a) && a.released.Some? && Covers(a.released.value, r) && t !in a.tasks
    ensures Balanced(a.(released := Some(Minus(a.released.value, r)), tasks := a.tasks[t := r]))
  {
    SumWith(a.tasks, t, r);
  }

  lemma GivingBalances(a: Agent, t: TaskId)
    requires Balanced(a) && a.released.Some? && t in a.tasks
    ensures Balanced(a.(released := Some(Plus(a.released.value, a.tasks[t])), tasks := a.tasks - {t}))
  {
    SumWithout(a.tasks, t);
  }

  // ---- Starting a graph --------------------------------------------------------------------

  /** All but graph g is as it should be. */
  ghost predicate InvBut(m: Master, g: Key) {
    && Ordered(m) && AgentsOk(m) && PlacedOk(m) && KnownOk(m) && QueueOk(m)
    && (forall h | h in m.graphs && h != g :: GraphOk(m, h))
    && (g in m.graphs ==> g < m.nextGraph && g !in m.queue)
  }

  /** Graph g is being started: its first n containers are placed. */
  ghost predicate Starting(m: Master, g: Key, cs: Containers, n: nat) {
    && n <= |cs| && g in m.graphs
    && m.graphs[g].containers == Some(cs) && m.graphs[g].infos == []
    && (forall i, j | 0 <= i < j < |cs| :: cs[i].0 != cs[j].0)
    && (forall j | 0 <= j < n :: TaskId(g, cs[j].0) in m.graphs[g].placement)
    && (forall t | t in m.graphs[g].placement :: t.graph == g && InContainers(cs[..n], t.container))
  }

  lemma PlaceOneKeeps(m: Master, g: Key, cs: Containers, n: nat, a: Key)
    requires InvBut(m, g) && Starting(m, g, cs, n) && n < |cs|
    requires a in m.agents && m.agents[a].released.Some? && Covers(m.agents[a].released.value, cs[n].1)
    ensures var r := PlaceOne(m, g, cs[n], a); InvBut(r, g) && Starting(r, g, cs, n + 1)
  {
    hide Sum, Balanced, Ordered;
    var r, t := PlaceOne(m, g, cs[n], a), TaskId(g, cs[n].0);
    PlaceOneOrdered(m, g, cs[n], a);
    NotPlacedYet(m, g, cs, n, a);
    TakingBalances(m.agents[a], t, cs[n].1);
    forall b | b in r.agents ensures b < r.nextAgent && Balanced(r.agents[b]) {
      assert Balanced(m.agents[b]);
    }
    forall h, u | h in r.graphs && u in r.graphs[h].placement ensures Placed(r, h, u) {
      assert u != t || h != g ==> Placed(m, h, u);
    }
    forall b, u | b in r.agents && u in r.agents[b].tasks ensures Known(r, b, u) {
      assert u != t || b != a ==> Known(m, b, u);
    }
    forall h | h in r.graphs && h != g ensures GraphOk(r, h) {
      assert GraphOk(m, h);
    }
    StartsOn(m, g, cs, n, r);
  }

  lemma NotPlacedYet(m: Master, g: Key, cs: Containers, n: nat, a: Key)
    requires KnownOk(m) && Starting(m, g, cs, n) && n < |cs| && a in m.agents
    ensures TaskId(g, cs[n].0) !in m.graphs[g].placement && TaskId(g, cs[n].0) !in m.agents[a].tasks
  {
    var t := TaskId(g, cs[n].0);
    assert forall j | 0 <= j < n :: cs[..n][j].0 != t.container;
    assert !InContainers(cs[..n], t.container);
    assert t in m.agents[a].tasks ==> Known(m, a, t);
  }

  lemma StartsOn(m: Master, g: Key, cs: Containers, n: nat, r: Master)
    requires Starting(m, g, cs, n) && n < |cs| && g in r.graphs
    requires r.graphs[g].containers == m.graphs[g].containers && r.graphs[g].infos == []
    requires r.graphs[g].placement.Keys == m.graphs[g].placement.Keys + {TaskId(g, cs[n].0)}
    ensures Starting(r, g, cs, n + 1)
  {
    forall t | t in r.graphs[g].placement ensures t.graph == g && InContainers(cs[..n + 1], t.container) {
      if t in m.graphs[g].placement {
        var j :| 0 <= j < n && cs[..n][j].0 == t.container;
        assert cs[..n + 1][j] == cs[j];
      } else {
        assert cs[..n + 1][n].0 == t.container;
      }
    }
  }

  lemma {:induction false} PlaceAllKeeps(m: Master, g: Key, cs: Containers, n: nat)
    requires InvBut(m, g) && Starting(m, g, cs, n)
    ensures var r := PlaceAll(m, g, cs[n..]); r.Some? ==> InvBut(r.value, g) && Starting(r.value, g, cs, |cs|)
    decreases |cs| - n
  {
    hide AgentsOk, PlacedOk, KnownOk, QueueOk;
    if n < |cs| {
      assert cs[n..][0] == cs[n] && cs[n..][1..] == cs[n + 1..];
      var c := Chosen(m, cs[n].1);
      if c.Some? {
        PlaceOneKeeps(m, g, cs, n, c.value);
        PlaceAllKeeps(PlaceOne(m, g, cs[n], c.value), g, cs, n + 1);
      }
    } else {
      assert cs[n..] == [];
    }
  }

  lemma Started(m: Master, g: Key, cs: Containers)
    requires InvBut(m, g) && Starting(m, g, cs, |cs|)
    ensures Inv(m)
  {
    assert cs[..|cs|] == cs;
    assert Accounted(g, cs, [], m.graphs[g].placement);
    assert GraphOk(m, g);
  }

  lemma TryDequeueKeeps(m: Master, g: Key, rest: seq<Key>)
    requires Inv(m) && m.queue == [g] + rest && g in m.graphs
    ensures var r := TryDequeue(m.(queue := rest), g); r.Some? ==> Inv(r.value)
    ensures m.graphs[g].containers.Some?
  {
    hide Sum, Balanced, Known, Placed;
    var n := m.(queue := rest);
    assert m.queue[0] == g && g in m.queue;
    assert GraphOk(m, g);
    var cs := m.graphs[g].containers.value;
    PopKeeps(m, g, rest);
    assert cs[0..] == cs && cs[..0] == [];
    PlaceAllKeeps(n, g, cs, 0);
    var r := TryDequeue(n, g);
    if r.Some? {
      Started(r.value, g, cs);
    }
  }

  lemma PopKeeps(m: Master, g: Key, rest: seq<Key>)
    requires Inv(m) && m.queue == [g] + rest
    ensures InvBut(m.(queue := rest), g)
    ensures g !in m.graphs ==> Inv(m.(queue := rest))
  {
    hide Sum, Balanced;
    var n := m.(queue := rest);
    assert forall i | 0 <= i < |rest| :: rest[i] == m.queue[i + 1];
    assert m.queue[0] == g;
    assert forall x | x in rest :: x in m.queue;
    forall a, t | a in n.agents && t in n.agents[a].tasks ensures Known(n, a, t) { assert Known(m, a, t); }
    forall h, t | h in n.graphs && t in n.graphs[h].placement ensures Placed(n, h, t) { assert Placed(m, h, t); }
    forall h | h in n.graphs && h != g ensures GraphOk(n, h) {
      assert GraphOk(m, h);
      assert h in m.queue <==> h in n.queue;
    }
    if g in m.graphs {
      assert GraphOk(m, g);
    }
  }

  lemma {:induction false} DequeueKeeps(m: Master)
    requires Inv(m)
    ensures Inv(Dequeue(m))
    decreases |m.queue|
  {
    hide AgentsOk, PlacedOk, KnownOk, GraphsOk, QueueOk;
    if m.queue != [] {
      var g, rest := m.queue[0], m.queue[1..];
      assert m.queue == [g] + rest;
      if g !in m.graphs {
        PopKeeps(m, g, rest);
        DequeueKeeps(m.(queue := rest));
      } else {
        TryDequeueKeeps(m, g, rest);
        var n := TryDequeue(m.(queue := rest), g);
        if n.Some? {
          DequeueKeeps(n.value);
        }
      }
    }
  }

  // ---- Every message -----------------------------------------------------------------------

  lemma RemoveGraphKeeps(m: Master, g: Key, fits: bool)
    requires InvBut(m, g) || Inv(m)
    ensures Inv(RemoveGraph(m, g, fits)) || g !in m.graphs
    ensures Inv(m) ==> Inv(RemoveGraph(m, g, fits))
  {
    hide Sum, Balanced;
    if g in m.graphs {
      var r := RemoveGraph(m, g, fits);
      forall a, t | a in r.agents && t in r.agents[a].tasks ensures Known(r, a, t) {
        assert Known(m, a, t);
      }
      forall h, t | h in r.graphs && t in r.graphs[h].placement ensures Placed(r, h, t) {
        assert Placed(m, h, t);
      }
      forall h | h in r.graphs ensures GraphOk(r, h) {
        assert GraphOk(m, h);
      }
    }
  }

  lemma {:induction false} RemoveGraphsKeeps(m: Master, ts: seq<TaskId>)
    requires Inv(m)
    ensures var r := RemoveGraphs(m, ts);
      && Inv(r)
      && (forall t | t in ts :: t.graph !in r.graphs)
      && r.graphs.Keys <= m.graphs.Keys
    decreases |ts|
  {
    hide Inv;
    if ts != [] {
      var n := RemoveGraph(m, ts[0].graph, true);
      RemoveGraphKeeps(m, ts[0].graph, true);
      RemoveGraphsKeeps(n, ts[1..]);
      forall t | t in ts ensures t.graph !in RemoveGraphs(m, ts).graphs {
        if t != ts[0] {
          assert t in ts[1..];
        }
      }
    }
  }

  lemma ConnectKeeps(m: Master)
    requires Inv(m)
    ensures Inv(Do(m, Connect))
  {
    hide Sum;
    var r := Do(m, Connect);
    assert forall a | a in m.agents :: a < m.nextAgent && Balanced(m.agents[a]);
    forall a, t | a in r.agents && t in r.agents[a].tasks ensures Known(r, a, t) { assert Known(m, a, t); }
    forall h, t | h in r.graphs && t in r.graphs[h].placement ensures Placed(r, h, t) { assert Placed(m, h, t); }
    forall h | h in r.graphs ensures GraphOk(r, h) { assert GraphOk(m, h); }
  }

  lemma ReportKeeps(m: Master, a: Key, x: Resource)
    requires Inv(m) && Enabled(m, OnResource(a, x))
    ensures Inv(m.(agents := m.agents[a := m.agents[a].(resource := Some(x), released := Some(x))]))
  {
    var r := m.(agents := m.agents[a := m.agents[a].(resource := Some(x), released := Some(x))]);
    assert Balanced(m.agents[a]);
    assert Sum(map[]) == NO_RESOURCE;
    hide Sum;
    assert Balanced(r.agents[a]);
    assert forall b | b in m.agents :: b < m.nextAgent && Balanced(m.agents[b]);
    forall b, t | b in r.agents && t in r.agents[b].tasks ensures Known(r, b, t) { assert Known(m, b, t); }
    forall h, t | h in r.graphs && t in r.graphs[h].placement ensures Placed(r, h, t) { assert Placed(m, h, t); }
    forall h | h in r.graphs ensures GraphOk(r, h) { assert GraphOk(m, h); }
  }

  lemma SubmitKeeps(m: Master)
    requires Inv(m)
    ensures Inv(Do(m, Submit))
  {
    hide Sum, Balanced;
    var r := Do(m, Submit);
    assert m.nextGraph in m.graphs ==> GraphOk(m, m.nextGraph);
    forall b, t | b in r.agents && t in r.agents[b].tasks ensures Known(r, b, t) { assert Known(m, b, t); }
    forall h, t | h in r.graphs && t in r.graphs[h].placement ensures Placed(r, h, t) { assert Placed(m, h, t); }
    forall h | h in r.graphs ensures GraphOk(r, h) {
      if h != m.nextGraph {
        assert GraphOk(m, h);
      }
    }
  }

  /** The topology of a graph is known: the graph is queued, or answered that it does not fit. */
  lemma TopologyKeeps(m: Master, g: Key, cs: Containers)
    requires Inv(m) && Enabled(m, OnTopology(g, cs))
    ensures Inv(Do(m, OnTopology(g, cs)))
  {
    hide Sum, Balanced, Dequeue;
    var n := m.(graphs := m.graphs[g := Graph(Some(cs), [], m.graphs[g].placement)]);
    assert GraphOk(m, g);
    forall b, t | b in n.agents && t in n.agents[b].tasks ensures Known(n, b, t) { assert Known(m, b, t); }
    forall h, t | h in n.graphs && t in n.graphs[h].placement ensures Placed(n, h, t) { assert Placed(m, h, t); }
    forall h | h in n.graphs && h != g ensures GraphOk(n, h) { assert GraphOk(m, h); }
    assert InvBut(n, g);
    if TryEnqueue(n, cs) {
      QueueGrows(n, g);
      DequeueKeeps(n.(queue := n.queue + [g]));
    } else {
      RemoveGraphKeeps(n, g, false);
    }
  }

  lemma QueueGrows(n: Master, g: Key)
    requires InvBut(n, g) && g in n.graphs
    requires n.graphs[g].containers.Some? && n.graphs[g].infos == [] && n.graphs[g].placement == map[]
    requires var cs := n.graphs[g].containers.value; forall i, j | 0 <= i < j < |cs| :: cs[i].0 != cs[j].0
    ensures Inv(n.(queue := n.queue + [g]))
  {
    hide Sum, Balanced;
    var r := n.(queue := n.queue + [g]);
    forall i, j | 0 <= i < j < |r.queue| ensures r.queue[i] != r.queue[j] {
      assert r.queue[i] == n.queue[i] && n.queue[i] in n.queue;
    }
    forall b, t | b in r.agents && t in r.agents[b].tasks ensures Known(r, b, t) { assert Known(n, b, t); }
    forall h, t | h in r.graphs && t in r.graphs[h].placement ensures Placed(r, h, t) { assert Placed(n, h, t); }
    forall h | h in r.graphs ensures GraphOk(r, h) {
      if h != g {
        assert GraphOk(n, h);
      } else {
        assert r.queue[|n.queue|] == g;
      }
    }
  }

  /** Graph g has just been told of the end of a task. */
  ghost predicate Reported(m: Master, g: Key, info: TaskInfo) {
    && g in m.graphs && m.graphs[g].containers.Some?
    && var x := m.graphs[g]; var cs := x.containers.value; var n := |x.infos| - 1;
       && (forall i, j | 0 <= i < j < |cs| :: cs[i].0 != cs[j].0)
       && Accounted(g, cs, x.infos, x.placement)
       && x.infos != [] && x.infos[n] == info && NoErrors(x.infos[..n])
  }

  /** One task less, and one report more. */
  lemma AccountedMoves(g: Key, cs: Containers, infos: seq<TaskInfo>, placement: map<TaskId, Key>, info: TaskInfo)
    requires Accounted(g, cs, infos, placement) && info.task in placement
    ensures Accounted(g, cs, infos + [info], placement - {info.task})
  {
    var more, less := infos + [info], placement - {info.task};
    forall i, j | 0 <= i < j < |more| ensures more[i].task != more[j].task {
      assert more[i] == infos[i] && infos[i].task !in placement;
    }
    forall j | 0 <= j < |cs| ensures InInfos(more, TaskId(g, cs[j].0)) || TaskId(g, cs[j].0) in less {
      var t := TaskId(g, cs[j].0);
      if InInfos(infos, t) {
        var i :| 0 <= i < |infos| && infos[i].task == t;
        assert more[i].task == t;
      } else if t == info.task {
        assert more[|infos|].task == t;
      }
    }
  }

  lemma BookKeeps(m: Master, a: Key, info: TaskInfo)
    requires Inv(m) && Enabled(m, OnTaskInfo(a, info))
    ensures m.agents[a].released.Some?
    ensures var n, g := Book(m, a, info), info.task.graph;
      if g in m.graphs then InvBut(n, g) && Reported(n, g, info) else Inv(n)
  {
    hide Sum, PlacedOk;
    var g, t := info.task.graph, info.task;
    assert Balanced(m.agents[a]) && Known(m, a, t);
    GivingBalances(m.agents[a], t);
    hide Balanced, Accounted;
    var n := Book(m, a, info);
    forall b | b in n.agents ensures b < n.nextAgent && Balanced(n.agents[b]) {
      assert Balanced(m.agents[b]);
    }
    BookPlaces(m, a, info);
    forall h | h in n.graphs && h != g ensures GraphOk(n, h) { assert GraphOk(m, h); }
    if g in m.graphs {
      BookReports(m, a, info);
    }
  }

  lemma BookPlaces(m: Master, a: Key, info: TaskInfo)
    requires Inv(m) && Enabled(m, OnTaskInfo(a, info)) && m.agents[a].released.Some?
    ensures PlacedOk(Book(m, a, info)) && KnownOk(Book(m, a, info))
  {
    hide Sum, Balanced, GraphsOk, QueueOk, Ordered;
    var n := Book(m, a, info);
    assert Known(m, a, info.task);
    forall h, u | h in n.graphs && u in n.graphs[h].placement ensures Placed(n, h, u) { assert Placed(m, h, u); }
    forall b, u | b in n.agents && u in n.agents[b].tasks ensures Known(n, b, u) { assert Known(m, b, u); }
  }

  lemma BookReports(m: Master, a: Key, info: TaskInfo)
    requires Inv(m) && Enabled(m, OnTaskInfo(a, info)) && m.agents[a].released.Some? && info.task.graph in m.graphs
    ensures Reported(Book(m, a, info), info.task.graph, info)
    ensures info.task.graph < m.nextGraph && info.task.graph !in m.queue
  {
    hide Sum, Balanced, Accounted, Ordered, PlacedOk, QueueOk;
    var g := info.task.graph;
    assert GraphOk(m, g) && Known(m, a, info.task);
    var x := m.graphs[g];
    AccountedMoves(g, x.containers.value, x.infos, x.placement, info);
    assert Book(m, a, info).graphs[g].infos[..|x.infos|] == x.infos;
  }

  lemma SettleKeeps(m: Master, info: TaskInfo)
    requires var g := info.task.graph; InvBut(m, g) && Reported(m, g, info)
    ensures Inv(Settle(m, info))
  {
    hide Sum, Balanced, Accounted;
    var g := info.task.graph;
    var x := m.graphs[g];
    if info.error || x.placement == map[] {
      RemoveGraphKeeps(m, g, true);
    } else {
      forall i | 0 <= i < |x.infos| ensures !x.infos[i].error {
        if i < |x.infos| - 1 {
          assert x.infos[..|x.infos| - 1][i] == x.infos[i];
        }
      }
      assert GraphOk(m, g);
    }
  }

  lemma TaskInfoKeeps(m: Master, a: Key, info: TaskInfo)
    requires Inv(m) && Enabled(m, OnTaskInfo(a, info))
    ensures Inv(Do(m, OnTaskInfo(a, info)))
  {
    hide Inv, InvBut, Reported, Book, Settle, Dequeue;
    BookKeeps(m, a, info);
    var n := Book(m, a, info);
    if info.task.graph in m.graphs {
      SettleKeeps(n, info);
    } else {
      SettleNothing(m, a, info);
    }
    DequeueKeeps(Settle(n, info));
  }

  lemma SettleNothing(m: Master, a: Key, info: TaskInfo)
    requires a in m.agents && info.task in m.agents[a].tasks && m.agents[a].released.Some? && info.task.graph !in m.graphs
    ensures Settle(Book(m, a, info), info) == Book(m, a, info)
  {
  }

  /** An agent none of whose tasks belongs to a graph can go. */
  lemma ForgetKeeps(n: Master, a: Key)
    requires Inv(n) && a in n.agents && forall t | t in n.agents[a].tasks :: t.graph !in n.graphs
    ensures Inv(n.(agents := n.agents - {a}, order := Without(n.order, a)))
  {
    hide Sum, Balanced;
    var r := n.(agents := n.agents - {a}, order := Without(n.order, a));
    WithoutOrdered(n, a);
    hide Ordered, Without;
    forall b, t | b in r.agents && t in r.agents[b].tasks ensures Known(r, b, t) { assert Known(n, b, t); }
    forall h, t | h in r.graphs && t in r.graphs[h].placement ensures Placed(r, h, t) {
      assert Placed(n, h, t);
    }
    forall h | h in r.graphs ensures GraphOk(r, h) { assert GraphOk(n, h); }
  }

  lemma AgentLostKeeps(m: Master, a: Key, ts: seq<TaskId>)
    requires Inv(m) && Enabled(m, AgentLost(a, ts))
    ensures Inv(Do(m, AgentLost(a, ts)))
  {
    hide Inv, RemoveGraphs;
    var n := RemoveGraphs(m, ts);
    RemoveGraphsKeeps(m, ts);
    ForgetKeeps(n, a);
  }

  /** No message upsets the books. */
  lemma DoKeeps(m: Master, e: Event)
    requires Inv(m)
    ensures Inv(Do(m, e))
  {
    if Stale(m, e) {
      DequeueKeeps(m);
    } else if Enabled(m, e) {
      match e {
        case Connect => ConnectKeeps(m);
        case OnResource(a, x) =>
          ReportKeeps(m, a, x);
          DequeueKeeps(m.(agents := m.agents[a := m.agents[a].(resource := Some(x), released := Some(x))]));
        case Submit => SubmitKeeps(m);
        case OnTopology(g, cs) => TopologyKeeps(m, g, cs);
        case OnTaskInfo(a, info) => TaskInfoKeeps(m, a, info);
        case AgentLost(a, ts) => AgentLostKeeps(m, a, ts);
        case GraphLost(g) => RemoveGraphKeeps(m, g, true);
      }
    }
  }

  lemma {:induction false} RunKeeps(m: Master, schedule: seq<Event>)
    requires Inv(m)
    ensures Inv(Run(m, schedule))
    decreases |schedule|
  {
    hide AgentsOk, PlacedOk, KnownOk, GraphsOk, QueueOk, Do;
    if schedule != [] {
      DoKeeps(m, schedule[0]);
      RunKeeps(Do(m, schedule[0]), schedule[1..]);
    }
  }

  // ---- What holds in every run -------------------------------------------------------------

  /** An agent's resource is always what is left of it and what the tasks on it take. */
  lemma ResourcesAreConserved(schedule: seq<Event>, a: Key)
    ensures var m := Run(UNUSED, schedule);
      a in m.agents && m.agents[a].resource.Some? ==>
        m.agents[a].released.Some? && Plus(m.agents[a].released.value, Sum(m.agents[a].tasks)) == m.agents[a].resource.value
  {
    hide Sum;
    UnusedInv();
    RunKeeps(UNUSED, schedule);
    assert a in Run(UNUSED, schedule).agents ==> Balanced(Run(UNUSED, schedule).agents[a]);
  }

  /** Where a graph believes a task to run, there is an agent and it holds the task; it is the only one. */
  lemma PlacementsAreHeld(schedule: seq<Event>, g: Key, t: TaskId, b: Key)
    ensures var m := Run(UNUSED, schedule);
      g in m.graphs && t in m.graphs[g].placement ==>
        var a := m.graphs[g].placement[t];
        a in m.agents && t in m.agents[a].tasks && (b in m.agents && t in m.agents[b].tasks ==> b == a)
  {
    hide Sum, Balanced;
    UnusedInv();
    RunKeeps(UNUSED, schedule);
    var m := Run(UNUSED, schedule);
    if g in m.graphs && t in m.graphs[g].placement {
      assert Placed(m, g, t);
      assert b in m.agents && t in m.agents[b].tasks ==> Known(m, b, t);
    }
  }

  /** A task on an agent belongs to a graph that knows it is there, or has been told to end. */
  lemma NoTaskIsForgotten(schedule: seq<Event>, a: Key, t: TaskId)
    ensures var m := Run(UNUSED, schedule);
      a in m.agents && t in m.agents[a].tasks ==>
        (t.graph in m.graphs && t in m.graphs[t.graph].placement && m.graphs[t.graph].placement[t] == a) || (a, t) in m.kills
  {
    hide Sum, Balanced;
    UnusedInv();
    RunKeeps(UNUSED, schedule);
    var m := Run(UNUSED, schedule);
    assert a in m.agents && t in m.agents[a].tasks ==> Known(m, a, t);
  }

  /** A graph that waits in the queue runs nowhere and has nothing to report. */
  lemma WaitingGraphsRunNowhere(schedule: seq<Event>, g: Key)
    ensures var m := Run(UNUSED, schedule);
      g in m.queue && g in m.graphs ==>
        m.graphs[g].containers.Some? && m.graphs[g].placement == map[] && m.graphs[g].infos == []
  {
    hide Sum, Balanced;
    UnusedInv();
    RunKeeps(UNUSED, schedule);
    var m := Run(UNUSED, schedule);
    assert g in m.graphs ==> GraphOk(m, g);
  }
}
