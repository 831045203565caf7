/**
 Graphs as the builders record them: a list of tasks, run once, to build the whole graph here, to
 write its topology down for the master, or to build the piece that one container gets. Putting
 the pieces together again gives the graph that would have been built here.
 */
module GraphTasks {
  import opened Options
  import opened Scheduler
  import opened Topologies

  // ---- Tasks -------------------------------------------------------------------------------

  type Callback = nat

  datatype VertexSetting = On(callback: Callback) | Tag(text: string) | Program(command: string)

  datatype StreamSetting = OnInput(callback: Callback) | OnOutput(callback: Callback) | Label(text: string) | Critical(flag: bool)

  datatype ContainerSetting = Memory(bytes: nat) | Space(bytes: nat) | Cpus(n: nat)

  datatype Task =
    | MakeVertex(k: Id)
    | MakeStream(k: Id, tail: Id, head: Id)
    | MakeContainer(k: Id)
    | AddVertex(v: Id, c: Id)
    | SetVertex(v: Id, vertexSetting: VertexSetting)
    | SetStream(s: Id, streamSetting: StreamSetting)
    | SetContainer(c: Id, containerSetting: ContainerSetting)

  /** A vertex of a graph that was built: the keys in _ostreams and _istreams, and its settings. */
  datatype Node = Node(ostreams: set<Id>, istreams: set<Id>, on: Option<Callback>, tag: string, program: string)

  /** A stream: the vertices it points to, if they are here. */
  datatype Edge = Edge(tail: Option<Id>, head: Option<Id>, onInput: Option<Callback>, onOutput: Option<Callback>,
                       tag: string, critical: bool)

  datatype Built = Built(nodes: map<Id, Node>, edges: map<Id, Edge>)

  const NEW_NODE := Node({}, {}, None, "", "")

  const NOTHING_BUILT := Built(map[], map[])

  /** The id of a topology that is still being written down. */
  const SUBMIT: Id := -1

  /** The container of a vertex that has none yet. */
  const UNASSIGNED: Id := -1

  const BLANK := Topology(-1, SUBMIT, map[], map[], map[])

  /** What running the tasks changes: the graph, and the topology the pointer leads to, if any. */
  datatype World = World(built: Built, tpg: Option<Topology>)

  predicate Submitting(tpg: Option<Topology>) { tpg.Some? && tpg.value.id == SUBMIT }

  predicate BuildsVertex(tpg: Option<Topology>, k: Id) {
    tpg.None? || (tpg.value.id != SUBMIT && HasVertex(tpg.value, k))
  }

  predicate BuildsStream(tpg: Option<Topology>, k: Id) {
    tpg.None? || (tpg.value.id != SUBMIT && HasStream(tpg.value, k))
  }

  // ---- Running them ------------------------------------------------------------------------

  function WithNode(g: Built, k: Id): Built {
    if k in g.nodes then g else g.(nodes := g.nodes[k := NEW_NODE])
  }

  function Found(g: Built, k: Id): Option<Id> { if k in g.nodes then Some(k) else None }

  function AttachTail(nodes: map<Id, Node>, v: Id, s: Id): map<Id, Node> {
    if v in nodes then nodes[v := nodes[v].(ostreams := nodes[v].ostreams + {s})] else nodes
  }

  function AttachHead(nodes: map<Id, Node>, v: Id, s: Id): map<Id, Node> {
    if v in nodes then nodes[v := nodes[v].(istreams := nodes[v].istreams + {s})] else nodes
  }

  function WithEdge(g: Built, k: Id, tail: Id, head: Id): Built {
    Built(AttachHead(AttachTail(g.nodes, tail, k), head, k),
          if k in g.edges then g.edges
          else g.edges[k := Edge(Found(g, tail), Found(g, head), None, None, "", false)])
  }

  function ChangeNode(n: Node, x: VertexSetting): Node {
    match x
    case On(cb) => n.(on := Some(cb))
    case Tag(text) => n.(tag := text)
    case Program(command) => n.(program := command)
  }

  function ChangeEdge(e: Edge, x: StreamSetting): Edge {
    match x
    case OnInput(cb) => e.(onInput := Some(cb))
    case OnOutput(cb) => e.(onOutput := Some(cb))
    case Label(text) => e.(tag := text)
    case Critical(flag) => e.(critical := flag)
  }

  function ChangeResource(r: Resource, x: ContainerSetting): Resource {
    match x
    case Memory(bytes) => r.(memory := bytes)
    case Space(bytes) => r.(space := bytes)
    case Cpus(n) => r.(cpus := n)
  }

  /** A task that builds: local and distributed mode. None where `at` throws. */
  function Build(g: Built, task: Task): Option<Built> {
    match task
    case MakeVertex(k) => Some(WithNode(g, k))
    case MakeStream(k, t, h) => Some(WithEdge(g, k, t, h))
    case SetVertex(v, x) => if v in g.nodes then Some(g.(nodes := g.nodes[v := ChangeNode(g.nodes[v], x)])) else None
    case SetStream(s, x) => if s in g.edges then Some(g.(edges := g.edges[s := ChangeEdge(g.edges[s], x)])) else None
    case _ => Some(g)
  }

  /** A task that writes the topology down: submit mode. */
  function Write(t: Topology, task: Task): Option<Topology> {
    match task
    case MakeVertex(k) => Some(if k in t.vertices then t else t.(vertices := t.vertices[k := UNASSIGNED]))
    case MakeStream(k, tail, head) => Some(if k in t.streams then t else t.(streams := t.streams[k := Stream(tail, head)]))
    case MakeContainer(k) => Some(if k in t.containers then t else t.(containers := t.containers[k := NO_RESOURCE]))
    case AddVertex(v, c) => if v in t.vertices then Some(t.(vertices := t.vertices[v := c])) else None
    case SetContainer(c, x) =>
      if c in t.containers then Some(t.(containers := t.containers[c := ChangeResource(t.containers[c], x)])) else None
    case _ => Some(t)
  }

  predicate Builds(tpg: Option<Topology>, task: Task) {
    match task
    case MakeVertex(k) => BuildsVertex(tpg, k)
    case SetVertex(v, _) => BuildsVertex(tpg, v)
    case MakeStream(k, _, _) => BuildsStream(tpg, k)
    case SetStream(s, _) => BuildsStream(tpg, s)
    case _ => false
  }

  function Perform(w: World, task: Task): Option<World> {
    if Builds(w.tpg, task) then
      match Build(w.built, task) case Some(g) => Some(w.(built := g)) case None => None
    else if Submitting(w.tpg) then
      match Write(w.tpg.value, task) case Some(t) => Some(w.(tpg := Some(t))) case None => None
    else Some(w)
  }

  /** _make. */
  function Make(w: World, tasks: seq<Task>): Option<World>
    decreases |tasks|
  {
    if tasks == [] then Some(w)
    else match Perform(w, tasks[0]) case None => None case Some(x) => Make(x, tasks[1..])
  }

  const GB: nat := 1073741824

  function Asked(r: Resource): Resource {
    Resource(if r.cpus == 0 then 1 else r.cpus, if r.memory == 0 then GB else r.memory, if r.space == 0 then GB else r.space)
  }

  /** The end of _topologize: vertices without a container share a new one, and every container asks
      for something. */
  function Settle(t: Topology, spare: Id): Topology {
    var alone := exists v :: v in t.vertices && t.vertices[v] == UNASSIGNED;
    var containers := if alone && spare !in t.containers then t.containers[spare := NO_RESOURCE] else t.containers;
    t.(vertices := map v | v in t.vertices :: if t.vertices[v] == UNASSIGNED then spare else t.vertices[v],
       containers := map c | c in containers :: Asked(containers[c]))
  }

  /** _topologize, with the key it would generate for a new container. */
  function Topologize(tasks: seq<Task>, spare: Id): Option<Topology> {
    match Make(World(NOTHING_BUILT, Some(BLANK)), tasks)
    case Some(World(_, Some(t))) => Some(Settle(t, spare))
    case _ => None
  }

  /** The graph built here, and the graph built for a piece of the topology. */
  function Local(tasks: seq<Task>): Option<Built> {
    match Make(World(NOTHING_BUILT, None), tasks) case None => None case Some(w) => Some(w.built)
  }

  function Remade(p: Topology, tasks: seq<Task>): Option<Built> {
    match Make(World(NOTHING_BUILT, Some(p)), tasks) case None => None case Some(w) => Some(w.built)
  }

  // ---- What the builders can record --------------------------------------------------------

  /** The keys given out so far. */
  datatype Seen = Seen(vertices: set<Id>, streams: set<Id>, containers: set<Id>)

  const NOTHING_SEEN := Seen({}, {}, {})

  /** Keys are new and not negative; builders only change what they made. A stream may be given any
      keys for its ends, and a container any vertex to add. */
  predicate Fits(seen: Seen, task: Task) {
    match task
    case MakeVertex(k) => k >= 0 && k !in seen.vertices
    case MakeStream(k, _, _) => k >= 0 && k !in seen.streams
    case MakeContainer(k) => k >= 0 && k !in seen.containers
    case AddVertex(_, c) => c in seen.containers
    case SetVertex(v, _) => v in seen.vertices
    case SetStream(s, _) => s in seen.streams
    case SetContainer(c, _) => c in seen.containers
  }

  /** All keys given out so far are below n. */
  predicate KeysBelow(seen: Seen, n: Id) {
    && (forall k | k in seen.vertices :: k < n)
    && (forall k | k in seen.streams :: k < n)
    && (forall k | k in seen.containers :: k < n)
  }

  function See(seen: Seen, task: Task): Seen {
    match task
    case MakeVertex(k) => seen.(vertices := seen.vertices + {k})
    case MakeStream(k, _, _) => seen.(streams := seen.streams + {k})
    case MakeContainer(k) => seen.(containers := seen.containers + {k})
    case _ => seen
  }

  function SeeAll(seen: Seen, tasks: seq<Task>): Seen
    decreases |tasks|
  {
    if tasks == [] then seen else SeeAll(See(seen, tasks[0]), tasks[1..])
  }

  predicate Recorded(seen: Seen, tasks: seq<Task>)
    decreases |tasks|
  {
    tasks == [] || (Fits(seen, tasks[0]) && Recorded(See(seen, tasks[0]), tasks[1..]))
  }

  lemma {:induction false} RecordedSnoc(seen: Seen, tasks: seq<Task>, task: Task)
    requires Recorded(seen, tasks) && Fits(SeeAll(seen, tasks), task)
    ensures Recorded(seen, tasks + [task]) && SeeAll(seen, tasks + [task]) == See(SeeAll(seen, tasks), task)
    decreases |tasks|
  {
    hide Fits, See;
    if tasks == [] {
      assert (tasks + [task])[1..] == [];
    } else {
      assert (tasks + [task])[1..] == tasks[1..] + [task];
      RecordedSnoc(See(seen, tasks[0]), tasks[1..], task);
    }
  }

  // ---- The topology ------------------------------------------------------------------------

  /** A topology half written: what was seen is in it, and vertices are in its containers or in none. */
  ghost predicate Draft(t: Topology, seen: Seen) {
    && t.id == SUBMIT && UNASSIGNED !in seen.containers
    && t.vertices.Keys == seen.vertices && t.streams.Keys == seen.streams && t.containers.Keys == seen.containers
    && forall v | v in t.vertices :: t.vertices[v] == UNASSIGNED || t.vertices[v] in t.containers
  }

  /** The stream a task makes is the one written down. */
  predicate WrittenAs(t: Topology, task: Task) {
    task.MakeStream? ==> task.k in t.streams && t.streams[task.k] == Stream(task.tail, task.head)
  }

  ghost predicate AllWritten(t: Topology, tasks: seq<Task>) {
    forall i | 0 <= i < |tasks| :: WrittenAs(t, tasks[i])
  }

  lemma WriteDraft(t: Topology, seen: Seen, task: Task)
    requires Draft(t, seen) && Fits(seen, task)
    ensures Write(t, task).Some? ==> Draft(Write(t, task).value, See(seen, task)) && WrittenAs(Write(t, task).value, task)
    ensures Write(t, task).Some? ==> forall s | s in t.streams :: s in Write(t, task).value.streams && Write(t, task).value.streams[s] == t.streams[s]
  {
  }

  lemma {:induction false} WritesAll(w: World, seen: Seen, tasks: seq<Task>)
    requires Recorded(seen, tasks) && w.tpg.Some? && Draft(w.tpg.value, seen) && Make(w, tasks).Some?
    ensures var x := Make(w, tasks).value;
      && x.built == w.built && x.tpg.Some? && Draft(x.tpg.value, SeeAll(seen, tasks))
      && AllWritten(x.tpg.value, tasks)
      && forall s | s in w.tpg.value.streams :: s in x.tpg.value.streams && x.tpg.value.streams[s] == w.tpg.value.streams[s]
    decreases |tasks|
  {
    if tasks != [] {
      var x := Perform(w, tasks[0]).value;
      WriteDraft(w.tpg.value, seen, tasks[0]);
      hide Write, Fits, See, Draft;
      WritesAll(x, See(seen, tasks[0]), tasks[1..]);
      var r := Make(w, tasks).value.tpg.value;
      forall i | 0 <= i < |tasks| ensures WrittenAs(r, tasks[i]) {
        if i > 0 {
          assert tasks[i] == tasks[1..][i - 1];
        }
      }
    }
  }

  /** What the builders recorded, and the topology it comes to. */
  ghost predicate Submitted(tasks: seq<Task>, spare: Id, t: Topology) {
    && Recorded(NOTHING_SEEN, tasks) && Topologize(tasks, spare) == Some(t)
    && spare >= 0 && spare !in SeeAll(NOTHING_SEEN, tasks).containers
  }

  /** Every vertex of a submitted topology is in one of its containers, which all ask for something. */
  lemma TopologyIsWhole(tasks: seq<Task>, spare: Id, t: Topology)
    requires Submitted(tasks, spare, t)
    ensures t.vertices.Keys == SeeAll(NOTHING_SEEN, tasks).vertices && t.streams.Keys == SeeAll(NOTHING_SEEN, tasks).streams
    ensures forall v | v in t.vertices :: t.vertices[v] in t.containers
    ensures forall c | c in t.containers :: c != SUBMIT && t.containers[c].cpus > 0 && t.containers[c].memory > 0 && t.containers[c].space > 0
    ensures AllWritten(t, tasks)
  {
    var w := World(NOTHING_BUILT, Some(BLANK));
    WritesAll(w, NOTHING_SEEN, tasks);
    var d := Make(w, tasks).value.tpg.value;
    assert t == Settle(d, spare);
    hide Make, SeeAll, Recorded;
    forall i | 0 <= i < |tasks| ensures WrittenAs(t, tasks[i]) {
      assert WrittenAs(d, tasks[i]);
    }
  }

  // ---- A piece is the part of the graph that belongs there ---------------------------------

  /** A stream as it looks in a process that has only the given vertices. */
  function Half(e: Edge, here: set<Id>): Edge {
    e.(tail := if e.tail.Some? && e.tail.value in here then e.tail else None,
       head := if e.head.Some? && e.head.value in here then e.head else None)
  }

  /** The vertices of p that l has, with all they are attached to. */
  ghost predicate NodesRestrict(g: map<Id, Node>, l: map<Id, Node>, p: Topology) {
    && (forall v :: v in g <==> v in l && v in p.vertices)
    && (forall v | v in g :: g[v] == l[v])
  }

  /** The streams of p that l has, with the ends that are in p. */
  ghost predicate EdgesRestrict(g: map<Id, Edge>, l: map<Id, Edge>, p: Topology) {
    && (forall s :: s in g <==> s in l && s in p.streams)
    && (forall s | s in g :: g[s] == Half(l[s], p.vertices.Keys))
  }

  /** g is the part of l that belongs to the topology p. */
  ghost predicate Restricts(g: Built, l: Built, p: Topology) {
    NodesRestrict(g.nodes, l.nodes, p) && EdgesRestrict(g.edges, l.edges, p)
  }

  /** The piece of container c of a topology that submit mode can have written. */
  ghost predicate PieceOf(p: Topology, t: Topology, c: Id) {
    Joined(t) && c in t.containers && c != SUBMIT && p == Piece(t, c)
  }

  lemma AttachTailRestricts(g: map<Id, Node>, l: map<Id, Node>, p: Topology, v: Id, s: Id)
    requires NodesRestrict(g, l, p)
    ensures NodesRestrict(AttachTail(g, v, s), AttachTail(l, v, s), p)
    ensures v !in p.vertices ==> AttachTail(g, v, s) == g
  {
  }

  lemma AttachHeadRestricts(g: map<Id, Node>, l: map<Id, Node>, p: Topology, v: Id, s: Id)
    requires NodesRestrict(g, l, p)
    ensures NodesRestrict(AttachHead(g, v, s), AttachHead(l, v, s), p)
    ensures v !in p.vertices ==> AttachHead(g, v, s) == g
  {
  }

  lemma EdgeRestricts(g: Built, l: Built, p: Topology, k: Id, tail: Id, head: Id)
    requires Restricts(g, l, p)
    ensures EdgesRestrict(if k in p.streams then WithEdge(g, k, tail, head).edges else g.edges, WithEdge(l, k, tail, head).edges, p)
  {
    hide AttachTail, AttachHead;
  }

  /** Making a stream: a piece without the stream has neither of its ends. */
  lemma AttachRestricts(g: Built, l: Built, p: Topology, k: Id, tail: Id, head: Id)
    requires Restricts(g, l, p) && (k !in p.streams ==> tail !in p.vertices && head !in p.vertices)
    ensures Restricts(if k in p.streams then WithEdge(g, k, tail, head) else g, WithEdge(l, k, tail, head), p)
  {
    EdgeRestricts(g, l, p, k, tail, head);
    hide NodesRestrict, EdgesRestrict, AttachTail, AttachHead;
    AttachTailRestricts(g.nodes, l.nodes, p, tail, k);
    AttachHeadRestricts(AttachTail(g.nodes, tail, k), AttachTail(l.nodes, tail, k), p, head, k);
  }

  lemma ChangedHalf(e: Edge, x: StreamSetting, here: set<Id>)
    ensures ChangeEdge(Half(e, here), x) == Half(ChangeEdge(e, x), here)
    ensures ChangeEdge(e, x).tail == e.tail && ChangeEdge(e, x).head == e.head
  {
  }

  /** The tasks that concern one vertex or one stream. */
  lemma SimpleRestricts(g: Built, l: Built, p: Topology, task: Task)
    requires Restricts(g, l, p) && p.id != SUBMIT && !task.MakeStream? && Build(l, task).Some?
    ensures Builds(Some(p), task) ==> Build(g, task).Some? && Restricts(Build(g, task).value, Build(l, task).value, p)
    ensures !Builds(Some(p), task) && Builds(None, task) ==> Restricts(g, Build(l, task).value, p)
  {
    hide ChangeNode, ChangeEdge, WithEdge, Half;
    if task.SetStream? {
      ChangedHalf(l.edges[task.s], task.streamSetting, p.vertices.Keys);
    }
  }

  lemma PieceFacts(p: Topology, t: Topology, c: Id, task: Task)
    requires PieceOf(p, t, c) && WrittenAs(t, task)
    ensures p.id != SUBMIT
    ensures task.MakeStream? && task.k !in p.streams ==> task.tail !in p.vertices && task.head !in p.vertices
  {
  }

  lemma StepRestricts(g: Built, l: Built, t: Topology, c: Id, p: Topology, task: Task)
    requires PieceOf(p, t, c) && Restricts(g, l, p) && WrittenAs(t, task)
    requires Perform(World(l, None), task).Some?
    ensures var y := Perform(World(g, Some(p)), task);
      y.Some? && y.value.tpg == Some(p) && Restricts(y.value.built, Perform(World(l, None), task).value.built, p)
    ensures Perform(World(l, None), task).value.tpg == None
  {
    hide PieceOf, Restricts, WithEdge, ChangeNode, ChangeEdge, WithNode, WrittenAs;
    PieceFacts(p, t, c, task);
    if task.MakeStream? {
      AttachRestricts(g, l, p, task.k, task.tail, task.head);
    } else if Builds(None, task) {
      SimpleRestricts(g, l, p, task);
    }
  }

  lemma {:induction false} RunRestricts(g: Built, l: Built, t: Topology, c: Id, p: Topology, tasks: seq<Task>)
    requires PieceOf(p, t, c) && Restricts(g, l, p) && AllWritten(t, tasks)
    requires Make(World(l, None), tasks).Some?
    ensures var y := Make(World(g, Some(p)), tasks);
      y.Some? && Restricts(y.value.built, Make(World(l, None), tasks).value.built, p)
    decreases |tasks|
  {
    hide Restricts, PieceOf, Perform, WrittenAs;
    if tasks != [] {
      assert WrittenAs(t, tasks[0]);
      StepRestricts(g, l, t, c, p, tasks[0]);
      assert forall i | 0 <= i < |tasks[1..]| :: tasks[1..][i] == tasks[i + 1];
      RunRestricts(Perform(World(g, Some(p)), tasks[0]).value.built, Perform(World(l, None), tasks[0]).value.built,
                   t, c, p, tasks[1..]);
    }
  }

  // ---- The graph built here ----------------------------------------------------------------

  /** Vertices and streams know each other: v lists s exactly if s points to v. */
  ghost predicate Attached(g: Built) {
    && (forall v, s | v in g.nodes :: s in g.nodes[v].ostreams <==> s in g.edges && g.edges[s].tail == Some(v))
    && (forall v, s | v in g.nodes :: s in g.nodes[v].istreams <==> s in g.edges && g.edges[s].head == Some(v))
    && (forall s | s in g.edges :: g.edges[s].tail.Some? ==> g.edges[s].tail.value in g.nodes)
    && (forall s | s in g.edges :: g.edges[s].head.Some? ==> g.edges[s].head.value in g.nodes)
  }

  ghost predicate Holds(g: Built, seen: Seen) {
    Attached(g) && g.nodes.Keys == seen.vertices && g.edges.Keys == seen.streams
  }

  lemma AttachHolds(g: Built, seen: Seen, k: Id, tail: Id, head: Id)
    requires Holds(g, seen) && k !in seen.streams
    ensures Holds(WithEdge(g, k, tail, head), See(seen, MakeStream(k, tail, head)))
  {
  }

  lemma ChangedNode(n: Node, x: VertexSetting)
    ensures ChangeNode(n, x).ostreams == n.ostreams && ChangeNode(n, x).istreams == n.istreams
  {
  }

  lemma ChangeHolds(g: Built, seen: Seen, task: Task)
    requires Holds(g, seen) && Fits(seen, task) && !task.MakeStream?
    ensures Build(g, task).Some? && Holds(Build(g, task).value, See(seen, task))
  {
    hide WithEdge, ChangeNode, ChangeEdge;
    match task {
      case SetStream(s, x) => ChangedHalf(g.edges[s], x, {});
      case SetVertex(v, x) => ChangedNode(g.nodes[v], x);
      case _ =>
    }
  }

  lemma BuildHolds(g: Built, seen: Seen, task: Task)
    requires Holds(g, seen) && Fits(seen, task)
    ensures var x := Perform(World(g, None), task); x.Some? && x.value.tpg == None && Holds(x.value.built, See(seen, task))
  {
    hide Holds, WithEdge;
    if task.MakeStream? {
      AttachHolds(g, seen, task.k, task.tail, task.head);
    } else {
      ChangeHolds(g, seen, task);
    }
  }

  lemma {:induction false} BuildsAll(g: Built, seen: Seen, tasks: seq<Task>)
    requires Holds(g, seen) && Recorded(seen, tasks)
    ensures var x := Make(World(g, None), tasks); x.Some? && Holds(x.value.built, SeeAll(seen, tasks))
    decreases |tasks|
  {
    hide Holds, Perform, Fits, See;
    if tasks != [] {
      BuildHolds(g, seen, tasks[0]);
      BuildsAll(Perform(World(g, None), tasks[0]).value.built, See(seen, tasks[0]), tasks[1..]);
    }
  }

  /** The ends of the streams that were built are the ones written down. */
  ghost predicate EndsAsWritten(g: Built, t: Topology) {
    forall s | s in g.edges ::
      && s in t.streams
      && (g.edges[s].tail.Some? ==> g.edges[s].tail.value == t.streams[s].tail)
      && (g.edges[s].head.Some? ==> g.edges[s].head.value == t.streams[s].head)
  }

  lemma EndsStay(g: Built, t: Topology, task: Task)
    requires EndsAsWritten(g, t) && WrittenAs(t, task) && Perform(World(g, None), task).Some?
    ensures var x := Perform(World(g, None), task).value; x.tpg == None && EndsAsWritten(x.built, t)
  {
    hide ChangeNode, ChangeEdge;
    match task {
      case SetStream(s, x) => ChangedHalf(g.edges[s], x, {});
      case _ =>
    }
  }

  lemma {:induction false} AllEndsAsWritten(g: Built, t: Topology, tasks: seq<Task>)
    requires EndsAsWritten(g, t) && AllWritten(t, tasks) && Make(World(g, None), tasks).Some?
    ensures EndsAsWritten(Make(World(g, None), tasks).value.built, t)
    decreases |tasks|
  {
    hide EndsAsWritten, Perform, WrittenAs;
    if tasks != [] {
      assert WrittenAs(t, tasks[0]);
      EndsStay(g, t, tasks[0]);
      assert forall i | 0 <= i < |tasks[1..]| :: tasks[1..][i] == tasks[i + 1];
      AllEndsAsWritten(Perform(World(g, None), tasks[0]).value.built, t, tasks[1..]);
    }
  }

  /** What the builders recorded can be built, and vertices and streams then point to each other. */
  lemma LocalGraphIsAttached(tasks: seq<Task>)
    requires Recorded(NOTHING_SEEN, tasks)
    ensures Local(tasks).Some? && Attached(Local(tasks).value)
    ensures Local(tasks).value.nodes.Keys == SeeAll(NOTHING_SEEN, tasks).vertices
    ensures Local(tasks).value.edges.Keys == SeeAll(NOTHING_SEEN, tasks).streams
  {
    BuildsAll(NOTHING_BUILT, NOTHING_SEEN, tasks);
  }

  /** The graph built here has the vertices and streams of the topology, and their ends. */
  lemma LocalMatchesTopology(tasks: seq<Task>, spare: Id, t: Topology)
    requires Submitted(tasks, spare, t)
    ensures Local(tasks).Some?
    ensures Local(tasks).value.nodes.Keys == t.vertices.Keys && Local(tasks).value.edges.Keys == t.streams.Keys
    ensures EndsAsWritten(Local(tasks).value, t) && Attached(Local(tasks).value)
  {
    TopologyIsWhole(tasks, spare, t);
    LocalGraphIsAttached(tasks);
    hide SeeAll, Recorded, AllWritten, Make;
    AllEndsAsWritten(NOTHING_BUILT, t, tasks);
  }

  /** Remaking the graph from the piece of a container builds that part of it and nothing else. */
  lemma PieceIsRemade(tasks: seq<Task>, spare: Id, t: Topology, c: Id)
    requires Submitted(tasks, spare, t) && Joined(t) && c in t.containers
    ensures Local(tasks).Some? && Remade(Piece(t, c), tasks).Some?
    ensures Restricts(Remade(Piece(t, c), tasks).value, Local(tasks).value, Piece(t, c))
  {
    TopologyIsWhole(tasks, spare, t);
    LocalGraphIsAttached(tasks);
    hide SeeAll, Recorded, AllWritten, Make;
    RunRestricts(NOTHING_BUILT, NOTHING_BUILT, t, c, Piece(t, c), tasks);
  }

  // ---- All pieces together are the graph ---------------------------------------------------

  /** A stream seen from two processes: each end as it is in the process that has it. */
  function Whole(a: Edge, b: Edge): Edge {
    a.(tail := if a.tail.Some? then a.tail else b.tail, head := if a.head.Some? then a.head else b.head)
  }

  function Together(a: Built, b: Built): Built {
    Built(a.nodes + b.nodes,
          map s | s in a.edges.Keys + b.edges.Keys ::
            if s !in a.edges then b.edges[s] else if s !in b.edges then a.edges[s] else Whole(a.edges[s], b.edges[s]))
  }

  /** The graphs remade from the pieces of some containers, put together. */
  function Reassembled(t: Topology, tasks: seq<Task>, cs: seq<Id>): Built
    requires Joined(t) && forall c | c in cs :: c in t.containers
  {
    if cs == [] then NOTHING_BUILT
    else
      var rest := Reassembled(t, tasks, cs[1..]);
      match Remade(Piece(t, cs[0]), tasks) case None => rest case Some(g) => Together(g, rest)
  }

  function Members(t: Topology, cs: seq<Id>): set<Id> { set v | v in t.vertices && t.vertices[v] in cs }

  predicate Reaches(t: Topology, s: Id, cs: seq<Id>)
    requires Joined(t)
  {
    s in t.streams && (t.streams[s].tail in Members(t, cs) || t.streams[s].head in Members(t, cs))
  }

  ghost predicate CoversNodes(g: map<Id, Node>, l: map<Id, Node>, t: Topology, cs: seq<Id>) {
    && (forall v :: v in g <==> v in l && v in Members(t, cs))
    && (forall v | v in g :: g[v] == l[v])
  }

  ghost predicate CoversEdges(g: map<Id, Edge>, l: map<Id, Edge>, t: Topology, cs: seq<Id>)
    requires Joined(t)
  {
    && (forall s :: s in g <==> s in l && Reaches(t, s, cs))
    && (forall s | s in g :: g[s] == Half(l[s], Members(t, cs)))
  }

  lemma NodesTogether(p: map<Id, Node>, g: map<Id, Node>, l: map<Id, Node>, t: Topology, c: Id, rest: seq<Id>)
    requires Joined(t) && c in t.containers && NodesRestrict(p, l, Piece(t, c)) && CoversNodes(g, l, t, rest)
    ensures CoversNodes(p + g, l, t, [c] + rest)
  {
    forall v ensures v in Members(t, [c] + rest) <==> v in Piece(t, c).vertices || v in Members(t, rest) {
    }
  }

  /** The halves of a stream seen from two sets of vertices make up the half seen from both. */
  lemma HalvesTogether(e: Edge, tail: Id, head: Id, here: set<Id>, there: set<Id>)
    requires e.tail.Some? ==> e.tail.value == tail
    requires e.head.Some? ==> e.head.value == head
    ensures Whole(Half(e, here), Half(e, there)) == Half(e, here + there)
    ensures tail !in here && head !in here ==> Half(e, there) == Half(e, here + there)
    ensures tail !in there && head !in there ==> Half(e, here) == Half(e, here + there)
  {
  }

  lemma EdgesTogether(p: Built, g: Built, l: Built, t: Topology, c: Id, rest: seq<Id>)
    requires Joined(t) && c in t.containers && EdgesRestrict(p.edges, l.edges, Piece(t, c)) && CoversEdges(g.edges, l.edges, t, rest)
    requires EndsAsWritten(l, t)
    ensures CoversEdges(Together(p, g).edges, l.edges, t, [c] + rest)
  {
    hide Half, Whole;
    var here, there := Piece(t, c).vertices.Keys, Members(t, rest);
    assert Members(t, [c] + rest) == here + there;
    forall s ensures s in l.edges ==> (s in p.edges <==> t.streams[s].tail in here || t.streams[s].head in here) {
    }
    var x := Together(p, g);
    forall s ensures s in x.edges <==> s in l.edges && Reaches(t, s, [c] + rest) {
    }
    forall s | s in x.edges ensures x.edges[s] == Half(l.edges[s], Members(t, [c] + rest)) {
      HalvesTogether(l.edges[s], t.streams[s].tail, t.streams[s].head, here, there);
    }
  }

  lemma {:induction false} PiecesCover(tasks: seq<Task>, spare: Id, t: Topology, l: Built, cs: seq<Id>)
    requires Submitted(tasks, spare, t) && Joined(t) && (forall c | c in cs :: c in t.containers)
    requires Local(tasks) == Some(l) && EndsAsWritten(l, t)
    ensures var g := Reassembled(t, tasks, cs); CoversNodes(g.nodes, l.nodes, t, cs) && CoversEdges(g.edges, l.edges, t, cs)
    decreases |cs|
  {
    if cs != [] {
      assert cs == [cs[0]] + cs[1..];
      PieceIsRemade(tasks, spare, t, cs[0]);
      PiecesCover(tasks, spare, t, l, cs[1..]);
      var p, g := Remade(Piece(t, cs[0]), tasks).value, Reassembled(t, tasks, cs[1..]);
      hide Submitted, Local, Remade, CoversNodes, CoversEdges, NodesRestrict, EdgesRestrict, Piece;
      NodesTogether(p.nodes, g.nodes, l.nodes, t, cs[0], cs[1..]);
      EdgesTogether(p, g, l, t, cs[0], cs[1..]);
    }
  }

  /** A graph that covers every container of a topology is the whole graph. */
  lemma CoveringAllIsEqual(g: Built, l: Built, t: Topology, cs: seq<Id>)
    requires Joined(t) && CoversNodes(g.nodes, l.nodes, t, cs) && CoversEdges(g.edges, l.edges, t, cs)
    requires Members(t, cs) == t.vertices.Keys == l.nodes.Keys && l.edges.Keys == t.streams.Keys && EndsAsWritten(l, t)
    ensures g == l
  {
    hide Members, Attached;
    forall v ensures v in g.nodes <==> v in l.nodes {
      assert v in l.nodes ==> v in l.nodes.Keys && v in Members(t, cs);
    }
    assert forall v | v in g.nodes :: g.nodes[v] == l.nodes[v];
    assert g.nodes == l.nodes;
    forall s ensures s in g.edges <==> s in l.edges {
      assert s in l.edges ==> s in t.streams.Keys;
    }
    forall s | s in g.edges ensures g.edges[s] == l.edges[s] {
      var x := t.streams[s];
      assert x.tail in t.vertices.Keys && x.head in t.vertices.Keys;
    }
    assert g.edges == l.edges;
  }

  /** Remaking the graph from every piece gives the graph built here: all its vertices with all they
      are attached to, and all its streams with both ends. */
  lemma PiecesMakeTheGraph(tasks: seq<Task>, spare: Id, t: Topology, cs: seq<Id>)
    requires Submitted(tasks, spare, t) && Joined(t) && Enumerates(cs, t.containers.Keys)
    ensures Local(tasks) == Some(Reassembled(t, tasks, cs))
  {
    TopologyIsWhole(tasks, spare, t);
    LocalMatchesTopology(tasks, spare, t);
    var l := Local(tasks).value;
    PiecesCover(tasks, spare, t, l, cs);
    hide Submitted, Local, Reassembled, SeeAll, Recorded, AllWritten, EndsAsWritten, Attached, CoversNodes, CoversEdges;
    forall v ensures v in Members(t, cs) <==> v in t.vertices.Keys {
      assert v in t.vertices ==> t.vertices[v] in t.containers.Keys && t.vertices[v] in cs;
    }
    CoveringAllIsEqual(Reassembled(t, tasks, cs), l, t, cs);
  }

  /** A vertex is remade in the piece of its container, attached to all its streams, and in no other. */
  lemma EveryVertexIsRemadeOnce(tasks: seq<Task>, spare: Id, t: Topology, v: Id, c: Id)
    requires Submitted(tasks, spare, t) && Joined(t) && c in t.containers
    requires Local(tasks).Some? && v in Local(tasks).value.nodes
    ensures v in t.vertices && t.vertices[v] in t.containers && Remade(Piece(t, c), tasks).Some?
    ensures var g := Remade(Piece(t, c), tasks).value;
      && (v in g.nodes <==> c == t.vertices[v])
      && (v in g.nodes ==> g.nodes[v] == Local(tasks).value.nodes[v])
  {
    PieceIsRemade(tasks, spare, t, c);
    TopologyIsWhole(tasks, spare, t);
    LocalMatchesTopology(tasks, spare, t);
    hide Submitted, Local, Remade, SeeAll, Recorded, AllWritten;
    assert v in t.vertices.Keys;
  }

  /** A stream is attached to its tail in exactly one piece, that of the tail's container, and to its
      head in exactly one. A piece with neither end does not have it. */
  lemma EveryEndIsRemadeOnce(tasks: seq<Task>, spare: Id, t: Topology, s: Id, c: Id)
    requires Submitted(tasks, spare, t) && Joined(t) && c in t.containers
    requires Local(tasks).Some? && s in Local(tasks).value.edges
    ensures s in t.streams && Remade(Piece(t, c), tasks).Some?
    ensures var e, g, x := Local(tasks).value.edges[s], Remade(Piece(t, c), tasks).value, t.streams[s];
      && (s in g.edges <==> c == t.vertices[x.tail] || c == t.vertices[x.head])
      && (s in g.edges ==> g.edges[s].tail == if c == t.vertices[x.tail] then e.tail else None)
      && (s in g.edges ==> g.edges[s].head == if c == t.vertices[x.head] then e.head else None)
  {
    PieceIsRemade(tasks, spare, t, c);
    LocalMatchesTopology(tasks, spare, t);
    hide Submitted, Local, Remade, Attached;
    assert s in t.streams.Keys;
  }

  // ---- Streams between vertices made before ------------------------------------------------

  /** Every stream is given vertices that were made before it. */
  predicate EndsFirst(seen: Seen, tasks: seq<Task>)
    decreases |tasks|
  {
    tasks == [] || (
      && (tasks[0].MakeStream? ==> tasks[0].tail in seen.vertices && tasks[0].head in seen.vertices)
      && EndsFirst(See(seen, tasks[0]), tasks[1..]))
  }

  predicate BothEnds(g: Built) { forall s | s in g.edges :: g.edges[s].tail.Some? && g.edges[s].head.Some? }

  lemma BothEndsStay(g: Built, seen: Seen, task: Task)
    requires BothEnds(g) && g.nodes.Keys == seen.vertices && Fits(seen, task) && Perform(World(g, None), task).Some?
    requires task.MakeStream? ==> task.tail in seen.vertices && task.head in seen.vertices
    ensures BothEnds(Perform(World(g, None), task).value.built)
  {
    hide ChangeNode, ChangeEdge;
    match task {
      case SetStream(s, x) => ChangedHalf(g.edges[s], x, {});
      case MakeStream(k, tail, head) => assert tail in g.nodes.Keys && head in g.nodes.Keys;
      case _ =>
    }
  }

  lemma {:induction false} AllBothEnds(g: Built, seen: Seen, tasks: seq<Task>)
    requires BothEnds(g) && Holds(g, seen) && Recorded(seen, tasks) && EndsFirst(seen, tasks)
    ensures Make(World(g, None), tasks).Some? && BothEnds(Make(World(g, None), tasks).value.built)
    decreases |tasks|
  {
    hide BothEnds, Attached, Perform, Fits, See;
    if tasks != [] {
      BuildHolds(g, seen, tasks[0]);
      BothEndsStay(g, seen, tasks[0]);
      AllBothEnds(Perform(World(g, None), tasks[0]).value.built, See(seen, tasks[0]), tasks[1..]);
    }
  }

  /** Then the graph can be split, and every stream has both ends in the graph built here. */
  lemma EndsFirstIsJoined(tasks: seq<Task>, spare: Id, t: Topology)
    requires Submitted(tasks, spare, t) && EndsFirst(NOTHING_SEEN, tasks)
    ensures Joined(t) && Local(tasks).Some? && BothEnds(Local(tasks).value)
  {
    LocalMatchesTopology(tasks, spare, t);
    AllBothEnds(NOTHING_BUILT, NOTHING_SEEN, tasks);
    hide Submitted, Make, Attached;
    var l := Local(tasks).value;
    forall s | s in t.streams ensures t.streams[s].tail in t.vertices && t.streams[s].head in t.vertices {
      assert s in l.edges.Keys;
      assert t.streams[s].tail in l.nodes.Keys && t.streams[s].head in l.nodes.Keys;
    }
  }

  /** And a process tells its streams apart by their pointers as the topology does by its vertices. */
  lemma StreamKindsAreKept(tasks: seq<Task>, spare: Id, t: Topology, s: Id, c: Id)
    requires Submitted(tasks, spare, t) && EndsFirst(NOTHING_SEEN, tasks) && Joined(t) && c in t.containers
    requires Remade(Piece(t, c), tasks).Some? && s in Remade(Piece(t, c), tasks).value.edges
    ensures var p, e := Piece(t, c), Remade(Piece(t, c), tasks).value.edges[s];
      && (e.tail.Some? && e.head.Some? <==> HasIntra(p, s))
      && (e.tail.Some? && e.head.None? <==> HasInterOut(p, s))
      && (e.tail.None? && e.head.Some? <==> HasInterIn(p, s))
  {
    EndsFirstIsJoined(tasks, spare, t);
    PieceIsRemade(tasks, spare, t, c);
    EveryEndIsRemadeOnce(tasks, spare, t, s, c);
    hide Submitted, Local, Remade, EndsFirst;
  }
}
