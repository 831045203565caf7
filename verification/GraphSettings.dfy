/**
 What the settings of the builders come to: in the topology that is submitted and in the graph that is built, the
 last setting of each kind stands.
 */
module GraphSettings {
  import opened Options
  import opened Scheduler
  import opened Topologies
  import opened GraphTasks

  // ---- The last setting of a kind ----------------------------------------------------------

  /** What the last of the tasks says that say anything. */
  function Last<T>(tasks: seq<Task>, says: Task -> Option<T>): Option<T>
    decreases |tasks|
  {
    if tasks == [] then None
    else
      var n := |tasks| - 1;
      if says(tasks[n]).Some? then says(tasks[n]) else Last(tasks[..n], says)
  }

  function SaysContainer(v: Id): Task -> Option<Id> {
    (x: Task) => if x.AddVertex? && x.v == v then Some(x.c) else None
  }

  function SaysCpus(c: Id): Task -> Option<nat> {
    (x: Task) => if x.SetContainer? && x.c == c && x.containerSetting.Cpus? then Some(x.containerSetting.n) else None
  }

  function SaysMemory(c: Id): Task -> Option<nat> {
    (x: Task) => if x.SetContainer? && x.c == c && x.containerSetting.Memory? then Some(x.containerSetting.bytes) else None
  }

  function SaysSpace(c: Id): Task -> Option<nat> {
    (x: Task) => if x.SetContainer? && x.c == c && x.containerSetting.Space? then Some(x.containerSetting.bytes) else None
  }

  function SaysOn(v: Id): Task -> Option<Callback> {
    (x: Task) => if x.SetVertex? && x.v == v && x.vertexSetting.On? then Some(x.vertexSetting.callback) else None
  }

  function SaysTag(v: Id): Task -> Option<string> {
    (x: Task) => if x.SetVertex? && x.v == v && x.vertexSetting.Tag? then Some(x.vertexSetting.text) else None
  }

  function SaysProgram(v: Id): Task -> Option<string> {
    (x: Task) => if x.SetVertex? && x.v == v && x.vertexSetting.Program? then Some(x.vertexSetting.command) else None
  }

  function SaysInput(s: Id): Task -> Option<Callback> {
    (x: Task) => if x.SetStream? && x.s == s && x.streamSetting.OnInput? then Some(x.streamSetting.callback) else None
  }

  function SaysOutput(s: Id): Task -> Option<Callback> {
    (x: Task) => if x.SetStream? && x.s == s && x.streamSetting.OnOutput? then Some(x.streamSetting.callback) else None
  }

  function SaysLabel(s: Id): Task -> Option<string> {
    (x: Task) => if x.SetStream? && x.s == s && x.streamSetting.Label? then Some(x.streamSetting.text) else None
  }

  function SaysCritical(s: Id): Task -> Option<bool> {
    (x: Task) => if x.SetStream? && x.s == s && x.streamSetting.Critical? then Some(x.streamSetting.flag) else None
  }

  function Or<T>(x: Option<T>, other: T): T { if x.Some? then x.value else other }

  lemma LastSnoc<T>(tasks: seq<Task>, task: Task, says: Task -> Option<T>)
    ensures Last(tasks + [task], says) == if says(task).Some? then says(task) else Last(tasks, says)
  {
    assert (tasks + [task])[..|tasks|] == tasks;
  }

  lemma {:induction false} MakeSnoc(w: World, tasks: seq<Task>, task: Task)
    ensures Make(w, tasks + [task]) == match Make(w, tasks) case None => None case Some(x) => Perform(x, task)
    decreases |tasks|
  {
    hide Perform;
    if tasks == [] {
      assert (tasks + [task])[1..] == [];
      var x := Perform(w, task);
      assert x.Some? ==> Make(x.value, []) == x;
    } else {
      assert (tasks + [task])[1..] == tasks[1..] + [task];
      if Perform(w, tasks[0]).Some? {
        MakeSnoc(Perform(w, tasks[0]).value, tasks[1..], task);
      }
    }
  }

  // ---- The topology ------------------------------------------------------------------------

  /** What was set for a container, zero where nothing was. */
  function Set(tasks: seq<Task>, c: Id): Resource {
    Resource(Or(Last(tasks, SaysCpus(c)), 0), Or(Last(tasks, SaysMemory(c)), 0), Or(Last(tasks, SaysSpace(c)), 0))
  }

  ghost predicate VertexSays(t: Topology, tasks: seq<Task>, v: Id) {
    if v in t.vertices then t.vertices[v] == Or(Last(tasks, SaysContainer(v)), UNASSIGNED) else Last(tasks, SaysContainer(v)).None?
  }

  ghost predicate ContainerSays(t: Topology, tasks: seq<Task>, c: Id) {
    Set(tasks, c) == if c in t.containers then t.containers[c] else NO_RESOURCE
  }

  ghost predicate TopologySays(t: Topology, tasks: seq<Task>) {
    (forall v :: VertexSays(t, tasks, v)) && forall c :: ContainerSays(t, tasks, c)
  }

  lemma VertexStep(t: Topology, tasks: seq<Task>, task: Task, v: Id)
    requires VertexSays(t, tasks, v) && Write(t, task).Some?
    ensures VertexSays(Write(t, task).value, tasks + [task], v)
  {
    LastSnoc(tasks, task, SaysContainer(v));
    hide Last;
  }

  lemma SetSnoc(tasks: seq<Task>, task: Task, c: Id)
    ensures Set(tasks + [task], c) ==
      if task.SetContainer? && task.c == c then ChangeResource(Set(tasks, c), task.containerSetting) else Set(tasks, c)
  {
    LastSnoc(tasks, task, SaysCpus(c));
    LastSnoc(tasks, task, SaysMemory(c));
    LastSnoc(tasks, task, SaysSpace(c));
    hide Last;
  }

  lemma ContainerStep(t: Topology, tasks: seq<Task>, task: Task, c: Id)
    requires ContainerSays(t, tasks, c) && Write(t, task).Some?
    ensures ContainerSays(Write(t, task).value, tasks + [task], c)
  {
    SetSnoc(tasks, task, c);
    hide Set, ChangeResource;
  }

  lemma {:induction false} WrittenSays(tasks: seq<Task>)
    requires Make(World(NOTHING_BUILT, Some(BLANK)), tasks).Some?
    ensures var x := Make(World(NOTHING_BUILT, Some(BLANK)), tasks).value;
      x.tpg.Some? && x.tpg.value.id == SUBMIT && TopologySays(x.tpg.value, tasks)
    decreases |tasks|
  {
    var w := World(NOTHING_BUILT, Some(BLANK));
    if tasks != [] {
      var n := |tasks| - 1;
      var before, task := tasks[..n], tasks[n];
      assert tasks == before + [task];
      MakeSnoc(w, before, task);
      WrittenSays(before);
      hide Make, VertexSays, ContainerSays;
      var t := Make(w, before).value.tpg.value;
      assert Write(t, task).Some? && Make(w, tasks).value.tpg == Write(t, task);
      hide Write;
      forall v ensures VertexSays(Write(t, task).value, tasks, v) { VertexStep(t, before, task, v); }
      forall c ensures ContainerSays(Write(t, task).value, tasks, c) { ContainerStep(t, before, task, c); }
    }
  }

  function OrDefault(x: Option<nat>, other: nat): nat { if x.None? || x.value == 0 then other else x.value }

  /** In the topology that is submitted a vertex is in the container it was added to last, or in the spare one if it was
      added to none; a container asks for what was set last of each kind, and for one processor and one GB of memory and
      space where nothing was set, or zero. */
  lemma TopologyIsAsSet(tasks: seq<Task>, spare: Id, t: Topology, v: Id, c: Id)
    requires Submitted(tasks, spare, t)
    ensures v in t.vertices ==> t.vertices[v] == Or(Last(tasks, SaysContainer(v)), spare)
    ensures c in t.containers ==>
      t.containers[c] == Resource(OrDefault(Last(tasks, SaysCpus(c)), 1), OrDefault(Last(tasks, SaysMemory(c)), GB),
                                  OrDefault(Last(tasks, SaysSpace(c)), GB))
    ensures c in t.containers <==>
      (c in SeeAll(NOTHING_SEEN, tasks).containers || (c == spare && exists u :: u in t.vertices && Last(tasks, SaysContainer(u)).None?))
  {
    var w := World(NOTHING_BUILT, Some(BLANK));
    WritesAll(w, NOTHING_SEEN, tasks);
    WrittenSays(tasks);
    var d := Make(w, tasks).value.tpg.value;
    assert t == Settle(d, spare);
    hide Make, SeeAll, Recorded, Last;
    assert VertexSays(d, tasks, v) && ContainerSays(d, tasks, c) && ContainerSays(d, tasks, spare);
    forall u | u in d.vertices ensures d.vertices[u] == UNASSIGNED <==> Last(tasks, SaysContainer(u)).None? {
      assert VertexSays(d, tasks, u);
      AddedIsSeen(tasks, u);
    }
  }

  /** A container that vertices were added to has a key of its own. */
  lemma {:induction false} AddedIsSeen(tasks: seq<Task>, v: Id)
    requires Recorded(NOTHING_SEEN, tasks)
    ensures Last(tasks, SaysContainer(v)).Some? ==> Last(tasks, SaysContainer(v)).value != UNASSIGNED
  {
    AddedFrom(NOTHING_SEEN, tasks);
    LastIsSaid(tasks, SaysContainer(v));
    hide Last, Recorded;
  }

  lemma {:induction false} LastIsSaid<T>(tasks: seq<Task>, says: Task -> Option<T>)
    ensures Last(tasks, says).Some? ==> exists i :: 0 <= i < |tasks| && says(tasks[i]) == Last(tasks, says)
    decreases |tasks|
  {
    if tasks != [] {
      var n := |tasks| - 1;
      LastIsSaid(tasks[..n], says);
      if says(tasks[n]).None? && Last(tasks, says).Some? {
        var i :| 0 <= i < n && says(tasks[..n][i]) == Last(tasks[..n], says);
        assert tasks[i] == tasks[..n][i];
      }
    }
  }

  lemma {:induction false} AddedFrom(seen: Seen, tasks: seq<Task>)
    requires Recorded(seen, tasks) && UNASSIGNED !in seen.containers
    ensures forall i | 0 <= i < |tasks| :: tasks[i].AddVertex? ==> tasks[i].c != UNASSIGNED
    decreases |tasks|
  {
    if tasks != [] {
      AddedFrom(See(seen, tasks[0]), tasks[1..]);
      forall i | 0 <= i < |tasks| ensures tasks[i].AddVertex? ==> tasks[i].c != UNASSIGNED {
        if i > 0 {
          assert tasks[i] == tasks[1..][i - 1];
        }
      }
    }
  }

  // ---- The graph ---------------------------------------------------------------------------

  /** The settings of a vertex and of a stream. */
  predicate NodeIsSet(n: Node, tasks: seq<Task>, v: Id) {
    && n.on == Last(tasks, SaysOn(v)) && n.tag == Or(Last(tasks, SaysTag(v)), "") && n.program == Or(Last(tasks, SaysProgram(v)), "")
  }

  predicate EdgeIsSet(e: Edge, tasks: seq<Task>, s: Id) {
    && e.onInput == Last(tasks, SaysInput(s)) && e.onOutput == Last(tasks, SaysOutput(s))
    && e.tag == Or(Last(tasks, SaysLabel(s)), "") && e.critical == Or(Last(tasks, SaysCritical(s)), false)
  }

  const NEW_EDGE := Edge(None, None, None, None, "", false)

  ghost predicate NodeSays(g: Built, tasks: seq<Task>, v: Id) { NodeIsSet(if v in g.nodes then g.nodes[v] else NEW_NODE, tasks, v) }

  ghost predicate EdgeSays(g: Built, tasks: seq<Task>, s: Id) { EdgeIsSet(if s in g.edges then g.edges[s] else NEW_EDGE, tasks, s) }

  lemma SetNodeSnoc(n: Node, tasks: seq<Task>, task: Task, v: Id)
    requires NodeIsSet(n, tasks, v)
    ensures NodeIsSet(if task.SetVertex? && task.v == v then ChangeNode(n, task.vertexSetting) else n, tasks + [task], v)
  {
    LastSnoc(tasks, task, SaysOn(v));
    LastSnoc(tasks, task, SaysTag(v));
    LastSnoc(tasks, task, SaysProgram(v));
    hide Last;
  }

  lemma SetEdgeSnoc(e: Edge, tasks: seq<Task>, task: Task, s: Id)
    requires EdgeIsSet(e, tasks, s)
    ensures EdgeIsSet(if task.SetStream? && task.s == s then ChangeEdge(e, task.streamSetting) else e, tasks + [task], s)
  {
    LastSnoc(tasks, task, SaysInput(s));
    LastSnoc(tasks, task, SaysOutput(s));
    LastSnoc(tasks, task, SaysLabel(s));
    LastSnoc(tasks, task, SaysCritical(s));
    hide Last;
  }

  /** The ends and the lists of streams are no settings. */
  lemma OnlySettings(n: Node, m: Node, tasks: seq<Task>, v: Id)
    requires NodeIsSet(n, tasks, v) && m.on == n.on && m.tag == n.tag && m.program == n.program
    ensures NodeIsSet(m, tasks, v)
  {
    hide Last;
  }

  lemma NodeStep(g: Built, tasks: seq<Task>, task: Task, v: Id)
    requires NodeSays(g, tasks, v) && Build(g, task).Some?
    ensures NodeSays(Build(g, task).value, tasks + [task], v)
  {
    var n := if v in g.nodes then g.nodes[v] else NEW_NODE;
    SetNodeSnoc(n, tasks, task, v);
    var h := Build(g, task).value;
    var m := if v in h.nodes then h.nodes[v] else NEW_NODE;
    if !task.SetVertex? {
      OnlySettings(n, m, tasks + [task], v);
    }
    hide NodeIsSet, ChangeNode, WithEdge, ChangeEdge;
  }

  lemma EdgeStep(g: Built, tasks: seq<Task>, task: Task, s: Id)
    requires EdgeSays(g, tasks, s) && Build(g, task).Some?
    ensures EdgeSays(Build(g, task).value, tasks + [task], s)
  {
    var e := if s in g.edges then g.edges[s] else NEW_EDGE;
    SetEdgeSnoc(e, tasks, task, s);
    hide Last, ChangeNode, AttachHead, AttachTail;
  }

  lemma {:induction false} BuiltSays(tasks: seq<Task>, v: Id, s: Id)
    requires Local(tasks).Some?
    ensures NodeSays(Local(tasks).value, tasks, v) && EdgeSays(Local(tasks).value, tasks, s)
    ensures Make(World(NOTHING_BUILT, None), tasks).value.tpg.None?
    decreases |tasks|
  {
    var w := World(NOTHING_BUILT, None);
    if tasks != [] {
      var n := |tasks| - 1;
      var before, task := tasks[..n], tasks[n];
      assert tasks == before + [task];
      MakeSnoc(w, before, task);
      BuiltSays(before, v, s);
      hide Make, NodeSays, EdgeSays;
      var g := Local(before).value;
      BuildsAlone(Make(w, before).value, task);
      hide Build, Perform;
      NodeStep(g, before, task, v);
      EdgeStep(g, before, task, s);
    }
  }

  /** Without a topology a task builds, or does nothing that is built. */
  lemma BuildsAlone(w: World, task: Task)
    requires w.tpg.None? && Perform(w, task).Some?
    ensures Build(w.built, task).Some? && Perform(w, task).value == w.(built := Build(w.built, task).value)
  {
  }

  /** In the graph that is built here a vertex and a stream have the last callback, text, command and flag that was set
      for them, and none where nothing was. */
  lemma GraphIsAsSet(tasks: seq<Task>, v: Id, s: Id)
    requires Recorded(NOTHING_SEEN, tasks)
    ensures Local(tasks).Some?
    ensures v in Local(tasks).value.nodes ==> NodeIsSet(Local(tasks).value.nodes[v], tasks, v)
    ensures s in Local(tasks).value.edges ==> EdgeIsSet(Local(tasks).value.edges[s], tasks, s)
  {
    LocalGraphIsAttached(tasks);
    BuiltSays(tasks, v, s);
    hide Local, NodeIsSet, EdgeIsSet, Recorded;
  }
}
