/**
 The graph as it is built in memory: vertices and streams are objects that point to each other.
 Recording gives out keys and appends tasks; _make runs them. Proved to do what the task lists
 stand for.
 */
module GraphKernel {
  import opened Options
  import Scheduler
  import opened Topologies
  import opened GraphTasks

  class Vertex {
    const key: Id
    var ostreams: map<Id, Stream>
    var istreams: map<Id, Stream>
    var on: Option<Callback>
    var tag: string
    var program: string

    constructor (key: Id)
      ensures this.key == key && ostreams == map[] && istreams == map[] && on == None && tag == "" && program == ""
    {
      this.key, ostreams, istreams, on, tag, program := key, map[], map[], None, "", "";
    }

    method Change(x: VertexSetting)
      modifies this`on, this`tag, this`program
      ensures NodeOf(this) == ChangeNode(old(NodeOf(this)), x)
    {
      match x {
        case On(cb) => on := Some(cb);
        case Tag(text) => tag := text;
        case Program(command) => program := command;
      }
    }
  }

  class Stream {
    const key: Id
    const tail: Vertex?
    const head: Vertex?
    var onInput: Option<Callback>
    var onOutput: Option<Callback>
    var tag: string
    var critical: bool

    constructor (key: Id, tail: Vertex?, head: Vertex?)
      ensures this.key == key && this.tail == tail && this.head == head
      ensures onInput == None && onOutput == None && tag == "" && !critical
    {
      this.key, this.tail, this.head, onInput, onOutput, tag, critical := key, tail, head, None, None, "", false;
    }

    method Change(x: StreamSetting)
      modifies this
      ensures EdgeOf(this) == ChangeEdge(old(EdgeOf(this)), x)
    {
      match x {
        case OnInput(cb) => onInput := Some(cb);
        case OnOutput(cb) => onOutput := Some(cb);
        case Label(text) => tag := text;
        case Critical(flag) => critical := flag;
      }
    }
  }

  ghost function NodeOf(v: Vertex): Node
    reads v
  {
    Node(v.ostreams.Keys, v.istreams.Keys, v.on, v.tag, v.program)
  }

  ghost function KeyOf(v: Vertex?): Option<Id> { if v == null then None else Some(v.key) }

  ghost function EdgeOf(s: Stream): Edge
    reads s
  {
    Edge(KeyOf(s.tail), KeyOf(s.head), s.onInput, s.onOutput, s.tag, s.critical)
  }

  class Graph {
    var tasks: seq<Task>
    var vertices: map<Id, Vertex>
    var streams: map<Id, Stream>
    /** The key that is given out next. */
    var next: Id

    ghost predicate Known(v: Vertex?)
      reads this`vertices
    {
      v == null || (v.key in vertices && vertices[v.key] == v)
    }

    /** What a vertex lists under a key is the stream with that key. */
    ghost predicate ListsStreams(v: Vertex)
      reads this`streams, v
    {
      && (forall s | s in v.ostreams :: s in streams && v.ostreams[s] == streams[s])
      && (forall s | s in v.istreams :: s in streams && v.istreams[s] == streams[s])
    }

    /** Every object is under its key, and what points to a vertex or a stream points to one of these. */
    ghost predicate Valid()
      reads this`vertices, this`streams, vertices.Values
    {
      && (forall k | k in vertices :: vertices[k].key == k && ListsStreams(vertices[k]))
      && (forall k | k in streams :: streams[k].key == k && Known(streams[k].tail) && Known(streams[k].head))
    }

    ghost function Nodes(): map<Id, Node>
      reads this`vertices, vertices.Values
    {
      map k | k in vertices :: NodeOf(vertices[k])
    }

    ghost function Edges(): map<Id, Edge>
      reads this`streams, streams.Values
    {
      map k | k in streams :: EdgeOf(streams[k])
    }

    ghost function View(): Built
      reads this`vertices, this`streams, vertices.Values, streams.Values
    {
      Built(Nodes(), Edges())
    }

    /** Nothing was built yet, the tasks are what builders can record, and keys are new. */
    ghost predicate Recording()
      reads this
    {
      && vertices == map[] && streams == map[] && next >= 0
      && Recorded(NOTHING_SEEN, tasks) && KeysBelow(SeeAll(NOTHING_SEEN, tasks), next)
    }

    constructor ()
      ensures Recording() && Valid() && tasks == []
    {
      tasks, vertices, streams, next := [], map[], map[], 0;
    }

    // ---- Recording -------------------------------------------------------------------------

    /** vertex. */
    method NewVertex() returns (k: Id)
      requires Recording()
      modifies this`tasks, this`next
      ensures Recording() && k == old(next) && tasks == old(tasks) + [MakeVertex(k)]
    {
      k := next;
      RecordedSnoc(NOTHING_SEEN, tasks, MakeVertex(k));
      tasks, next := tasks + [MakeVertex(k)], next + 1;
    }

    /** stream and _emplace_stream. */
    method NewStream(tail: Id, head: Id) returns (k: Id)
      requires Recording()
      modifies this`tasks, this`next
      ensures Recording() && k == old(next) && tasks == old(tasks) + [MakeStream(k, tail, head)]
    {
      k := next;
      RecordedSnoc(NOTHING_SEEN, tasks, MakeStream(k, tail, head));
      tasks, next := tasks + [MakeStream(k, tail, head)], next + 1;
    }

    /** container. */
    method NewContainer() returns (k: Id)
      requires Recording()
      modifies this`tasks, this`next
      ensures Recording() && k == old(next) && tasks == old(tasks) + [MakeContainer(k)]
    {
      k := next;
      RecordedSnoc(NOTHING_SEEN, tasks, MakeContainer(k));
      tasks, next := tasks + [MakeContainer(k)], next + 1;
    }

    /** The methods of the builders, which know the key of what they were made for. */
    method Record(task: Task)
      requires Recording() && Fits(SeeAll(NOTHING_SEEN, tasks), task)
      requires !task.MakeVertex? && !task.MakeStream? && !task.MakeContainer?
      modifies this`tasks
      ensures Recording() && tasks == old(tasks) + [task]
    {
      RecordedSnoc(NOTHING_SEEN, tasks, task);
      tasks := tasks + [task];
    }

    // ---- Building --------------------------------------------------------------------------

    /** A new vertex beside the others. */
    twostate lemma OneMore(k: Id, new v: Vertex)
      requires old(Valid()) && k !in old(vertices) && vertices == old(vertices)[k := v] && streams == old(streams)
      requires v.key == k && NodeOf(v) == NEW_NODE
      requires forall j | j in old(vertices) :: unchanged(vertices[j])
      ensures Nodes() == old(Nodes())[k := NEW_NODE]
    {
      assert forall j | j in old(vertices) :: Nodes()[j] == old(Nodes())[j];
      assert Nodes().Keys == old(Nodes())[k := NEW_NODE].Keys;
    }

    twostate lemma StillValid(k: Id, new v: Vertex)
      requires old(Valid()) && k !in old(vertices) && vertices == old(vertices)[k := v] && streams == old(streams)
      requires v.key == k && v.ostreams == map[] && v.istreams == map[]
      requires forall j | j in old(vertices) :: unchanged(vertices[j])
      ensures Valid()
    {
      forall j | j in vertices ensures vertices[j].key == j && ListsStreams(vertices[j]) {
        assert j != k ==> old(ListsStreams(vertices[j]));
      }
    }

    /** The task of a vertex. */
    method BuildVertex(k: Id)
      requires Valid()
      modifies this`vertices
      ensures Valid() && Nodes() == WithNode(old(View()), k).nodes && Edges() == old(Edges())
      ensures fresh(vertices.Values - old(vertices.Values))
    {
      if k !in vertices {
        var v := new Vertex(k);
        vertices := vertices[k := v];
        OneMore(k, v);
        StillValid(k, v);
      }
    }

    /** _vertex. */
    method Find(k: Id) returns (v: Vertex?)
      requires Valid()
      ensures Known(v) && KeyOf(v) == Found(View(), k)
    {
      v := if k in vertices then vertices[k] else null;
    }

    twostate lemma OneMoreEdge(k: Id, new s: Stream)
      requires k !in old(streams) && streams == old(streams)[k := s]
      requires forall j | j in old(streams) :: unchanged(streams[j])
      ensures Edges() == old(Edges())[k := EdgeOf(s)]
    {
      assert forall j | j in old(streams) :: Edges()[j] == old(Edges())[j];
      assert Edges().Keys == old(Edges())[k := EdgeOf(s)].Keys;
    }

    twostate lemma ValidWithEdge(k: Id, new s: Stream)
      requires old(Valid()) && k !in old(streams) && streams == old(streams)[k := s] && vertices == old(vertices)
      requires s.key == k && Known(s.tail) && Known(s.head)
      requires forall j | j in vertices :: unchanged(vertices[j])
      ensures Valid()
    {
      forall j | j in vertices ensures vertices[j].key == j && ListsStreams(vertices[j]) {
        assert old(ListsStreams(vertices[j]));
      }
    }

    /** The task of a stream: the stream itself, with pointers to what is here of its ends. */
    method BuildEdge(k: Id, tail: Vertex?, head: Vertex?)
      requires Valid() && Known(tail) && Known(head)
      modifies this`streams
      ensures Valid() && k in streams && Nodes() == old(Nodes())
      ensures Edges() == if k in old(Edges()) then old(Edges())
                         else old(Edges())[k := Edge(KeyOf(tail), KeyOf(head), None, None, "", false)]
      ensures fresh(streams.Values - old(streams.Values))
    {
      if k !in streams {
        var s := new Stream(k, tail, head);
        streams := streams[k := s];
        OneMoreEdge(k, s);
        ValidWithEdge(k, s);
      }
    }

    /** If nothing but the vertex v changed, the rest of the vertices is as it was. */
    twostate lemma OthersKeep(v: Vertex)
      requires vertices == old(vertices) && v.key in vertices && vertices[v.key] == v
      requires forall k | k in vertices :: vertices[k].key == k
      requires forall k | k in vertices && vertices[k] != v :: unchanged(vertices[k])
      ensures Nodes() == old(Nodes())[v.key := NodeOf(v)]
    {
      assert forall k | k in vertices && k != v.key :: vertices[k] != v && Nodes()[k] == old(Nodes())[k];
      assert Nodes().Keys == old(Nodes())[v.key := NodeOf(v)].Keys;
    }

    method ListOut(v: Vertex, k: Id)
      requires Valid() && v.key in vertices && vertices[v.key] == v && k in streams
      modifies v
      ensures Valid() && Nodes() == AttachTail(old(Nodes()), v.key, k)
    {
      v.ostreams := v.ostreams[k := streams[k]];
      assert v.ostreams.Keys == old(v.ostreams.Keys) + {k};
      OthersKeep(v);
    }

    method ListIn(v: Vertex, k: Id)
      requires Valid() && v.key in vertices && vertices[v.key] == v && k in streams
      modifies v
      ensures Valid() && Nodes() == AttachHead(old(Nodes()), v.key, k)
    {
      v.istreams := v.istreams[k := streams[k]];
      assert v.istreams.Keys == old(v.istreams.Keys) + {k};
      OthersKeep(v);
    }

    /** The task of a stream. */
    method BuildStream(k: Id, t: Id, h: Id)
      requires Valid()
      modifies this`streams, vertices.Values
      ensures Valid() && View() == WithEdge(old(View()), k, t, h)
      ensures fresh(streams.Values - old(streams.Values))
    {
      hide Valid, Nodes, Edges;
      var tptr := Find(t);
      var hptr := Find(h);
      BuildEdge(k, tptr, hptr);
      if tptr != null {
        ListOut(tptr, k);
      }
      if hptr != null {
        ListIn(hptr, k);
      }
    }

    method SetOnVertex(v: Id, x: VertexSetting) returns (ok: bool)
      requires Valid()
      modifies vertices.Values
      ensures Valid() && ok == (v in old(View()).nodes)
      ensures ok ==> v in old(View()).nodes && View() == old(View()).(nodes := old(View()).nodes[v := ChangeNode(old(View()).nodes[v], x)])
    {
      ok := v in vertices;
      if ok {
        vertices[v].Change(x);
        OthersKeep(vertices[v]);
      }
    }

    method SetOnStream(s: Id, x: StreamSetting) returns (ok: bool)
      requires Valid()
      modifies streams.Values
      ensures Valid() && ok == (s in old(View()).edges)
      ensures ok ==> s in old(View()).edges && View() == old(View()).(edges := old(View()).edges[s := ChangeEdge(old(View()).edges[s], x)])
    {
      ok := s in streams;
      if ok {
        streams[s].Change(x);
        assert Edges()[s] == ChangeEdge(old(Edges())[s], x);
        assert forall j | j in streams && j != s :: streams[j] != streams[s] && Edges()[j] == old(Edges())[j];
        assert Edges().Keys == old(Edges()).Keys;
        assert Edges() == old(Edges())[s := Edges()[s]];
      }
    }

    // ---- Running the tasks -----------------------------------------------------------------

    /** One task that builds. */
    method BuildTask(task: Task) returns (ok: bool)
      requires Valid()
      modifies this`vertices, this`streams, vertices.Values, streams.Values
      ensures Valid() && ok == Build(old(View()), task).Some? && (ok ==> View() == Build(old(View()), task).value)
      ensures fresh(vertices.Values - old(vertices.Values)) && fresh(streams.Values - old(streams.Values))
      ensures tasks == old(tasks) && next == old(next)
    {
      hide Valid, Nodes, Edges, ChangeNode, ChangeEdge, WithEdge;
      ok := true;
      match task {
        case MakeVertex(k) => BuildVertex(k);
        case MakeStream(k, t, h) => BuildStream(k, t, h);
        case SetVertex(v, x) => ok := SetOnVertex(v, x);
        case SetStream(s, x) => ok := SetOnStream(s, x);
        case _ =>
      }
    }

    /** One task, in whatever mode. */
    method Run(task: Task, tpg: Option<Topology>) returns (ok: bool, tpg': Option<Topology>)
      requires Valid()
      modifies this`vertices, this`streams, vertices.Values, streams.Values
      ensures Valid()
      ensures var w := Perform(World(old(View()), tpg), task); ok == w.Some? && (ok ==> w.value == World(View(), tpg'))
      ensures fresh(vertices.Values - old(vertices.Values)) && fresh(streams.Values - old(streams.Values))
    {
      hide Valid, View, Build, Write, Builds;
      ok, tpg' := true, tpg;
      if Builds(tpg, task) {
        ok := BuildTask(task);
      } else if Submitting(tpg) {
        var t := Write(tpg.value, task);
        ok := t.Some?;
        if ok {
          tpg' := t;
        }
      }
    }

    /** _make: local, submit or distributed mode, by what tpg is. */
    method Make(tpg: Option<Topology>) returns (ok: bool, tpg': Option<Topology>)
      requires Valid()
      modifies this, vertices.Values, streams.Values
      ensures Valid() && next == old(next)
      ensures var w := GraphTasks.Make(World(old(View()), tpg), old(tasks));
        ok == w.Some? && (ok ==> w.value == World(View(), tpg') && tasks == [])
    {
      hide Valid, View, Perform;
      ok, tpg' := true, tpg;
      var i := 0;
      assert tasks[0..] == tasks;
      while i < |tasks|
        invariant i <= |tasks| && tasks == old(tasks) && next == old(next) && Valid()
        invariant fresh(vertices.Values - old(vertices.Values)) && fresh(streams.Values - old(streams.Values))
        invariant GraphTasks.Make(World(old(View()), tpg), tasks) == GraphTasks.Make(World(View(), tpg'), tasks[i..])
      {
        assert tasks[i..][1..] == tasks[i + 1..];
        ok, tpg' := Run(tasks[i], tpg');
        if !ok {
          return;
        }
        i := i + 1;
      }
      tasks := [];
    }

    /** The vertices without a container go to container c. */
    static method AssignAlone(vs: map<Id, Id>, order: seq<Id>, c: Id) returns (m: map<Id, Id>)
      requires Enumerates(order, vs.Keys)
      ensures m == map v | v in vs :: if vs[v] == UNASSIGNED then c else vs[v]
    {
      m := vs;
      for i := 0 to |order|
        invariant m.Keys == vs.Keys
        invariant forall v | v in m :: m[v] == if v in order[..i] && vs[v] == UNASSIGNED then c else vs[v]
      {
        var v := order[i];
        assert order[..i + 1] == order[..i] + [v];
        assert v in order;
        if m[v] == UNASSIGNED {
          m := m[v := c];
        }
      }
      assert order[..|order|] == order;
      assert forall v | v in m :: v in vs.Keys && v in order;
    }

    /** Every container asks for something. */
    static method AskForAll(cs: map<Id, Scheduler.Resource>, order: seq<Id>) returns (m: map<Id, Scheduler.Resource>)
      requires Enumerates(order, cs.Keys)
      ensures m == map c | c in cs :: Asked(cs[c])
    {
      m := cs;
      for i := 0 to |order|
        invariant m.Keys == cs.Keys
        invariant forall c | c in m :: m[c] == if c in order[..i] then Asked(cs[c]) else cs[c]
      {
        var c := order[i];
        assert order[..i + 1] == order[..i] + [c];
        assert c in order && c !in order[..i];
        m := m[c := Asked(m[c])];
      }
      assert order[..|order|] == order;
      assert forall c | c in m :: c in cs.Keys && c in order;
    }

    /** _topologize; `order` is the order of iteration over an unordered map with given keys. */
    method Topologize(order: set<Id> -> seq<Id>) returns (r: Option<Topology>)
      requires Valid() && Recording() && forall keys :: Enumerates(order(keys), keys)
      modifies this, vertices.Values, streams.Values
      ensures r == GraphTasks.Topologize(old(tasks), old(next))
      ensures r.Some? ==> Submitted(old(tasks), old(next), r.value)
    {
      hide SeeAll, Recorded, GraphTasks.Make;
      assert View() == NOTHING_BUILT && next !in SeeAll(NOTHING_SEEN, tasks).containers;
      var ok, tpg := Make(Some(BLANK));
      if !ok || tpg.None? {
        return None;
      }
      var t := tpg.value;
      var containers, spare := t.containers, next;
      if exists v :: v in t.vertices && t.vertices[v] == UNASSIGNED {
        if spare !in containers {
          containers := containers[spare := Scheduler.NO_RESOURCE];
        }
        next := next + 1;
      }
      var vertices := AssignAlone(t.vertices, order(t.vertices.Keys), spare);
      containers := AskForAll(containers, order(containers.Keys));
      r := Some(t.(vertices := vertices, containers := containers));
    }
  }
}
