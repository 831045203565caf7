/**
 Topologies: the vertices, streams and containers of a graph, and the piece of it that one
 container gets. Vertices go to one piece each, streams within a container to one, and streams
 between containers to two.
 */
module Topologies {
  import opened Options
  import opened Scheduler

  type Id = int

  datatype Stream = Stream(tail: Id, head: Id)

  /** `vertices` maps each vertex to its container, `containers` each container to what it asks for. */
  datatype Topology = Topology(
    graph: Id, id: Id, vertices: map<Id, Id>, streams: map<Id, Stream>, containers: map<Id, Resource>)

  // ---- Queries -----------------------------------------------------------------------------

  predicate HasVertex(t: Topology, v: Id) { v in t.vertices }

  predicate HasStream(t: Topology, s: Id) { s in t.streams }

  predicate HasIntra(t: Topology, s: Id) {
    s in t.streams && HasVertex(t, t.streams[s].tail) && HasVertex(t, t.streams[s].head)
  }

  /** An inter-stream whose head, the reading end, is here. */
  predicate HasInterIn(t: Topology, s: Id) {
    s in t.streams && HasVertex(t, t.streams[s].head) && !HasVertex(t, t.streams[s].tail)
  }

  /** An inter-stream whose tail, the writing end, is here. */
  predicate HasInterOut(t: Topology, s: Id) {
    s in t.streams && HasVertex(t, t.streams[s].tail) && !HasVertex(t, t.streams[s].head)
  }

  predicate HasInter(t: Topology, s: Id) { HasInterIn(t, s) || HasInterOut(t, s) }

  function InterIn(t: Topology): set<Id> { set s | s in t.streams && HasInterIn(t, s) }

  function InterOut(t: Topology): set<Id> { set s | s in t.streams && HasInterOut(t, s) }

  function Inter(t: Topology): set<Id> { set s | s in t.streams && HasInter(t, s) }

  function NumInter(t: Topology): nat { |Inter(t)| }

  /** The order of iteration over an unordered map. */
  predicate Enumerates(order: seq<Id>, keys: set<Id>) {
    && (forall i, j | 0 <= i < j < |order| :: order[i] != order[j])
    && (forall k | k in order :: k in keys) && (forall k | k in keys :: k in order)
  }

  /** num_inter_streams: a count over the streams, in whatever order. */
  method CountInter(t: Topology, order: seq<Id>) returns (n: nat)
    requires Enumerates(order, t.streams.Keys)
    ensures n == NumInter(t)
  {
    n := 0;
    ghost var seen: set<Id> := {};
    for i := 0 to |order|
      invariant seen == set s | s in order[..i] && HasInter(t, s)
      invariant n == |seen|
    {
      assert order[..i + 1] == order[..i] + [order[i]];
      assert order[i] !in order[..i];
      if HasInter(t, order[i]) {
        seen := seen + {order[i]};
        n := n + 1;
      }
    }
    assert order[..|order|] == order;
    assert seen == Inter(t);
  }

  // ---- Pieces ------------------------------------------------------------------------------

  /** Every stream joins two vertices, and every vertex is in a container. */
  predicate Sound(t: Topology) {
    && (forall s | s in t.streams :: t.streams[s].tail in t.vertices && t.streams[s].head in t.vertices)
    && (forall v | v in t.vertices :: t.vertices[v] in t.containers)
  }

  predicate Joined(t: Topology) {
    forall s | s in t.streams :: t.streams[s].tail in t.vertices && t.streams[s].head in t.vertices
  }

  /** A stream touches a container with either end. */
  predicate Touches(t: Topology, s: Id, c: Id)
    requires s in t.streams && t.streams[s].tail in t.vertices && t.streams[s].head in t.vertices
  {
    t.vertices[t.streams[s].tail] == c || t.vertices[t.streams[s].head] == c
  }

  function PieceVertices(t: Topology, c: Id): map<Id, Id> {
    map v | v in t.vertices && t.vertices[v] == c :: c
  }

  function PieceStreams(t: Topology, c: Id): map<Id, Stream>
    requires Joined(t)
  {
    map s | s in t.streams && Touches(t, s, c) :: t.streams[s]
  }

  /** The piece of container c. */
  function Piece(t: Topology, c: Id): Topology
    requires Joined(t) && c in t.containers
  {
    Topology(t.graph, c, PieceVertices(t, c), PieceStreams(t, c), map[c := t.containers[c]])
  }

  method CopyVertices(t: Topology, c: Id, order: seq<Id>) returns (m: map<Id, Id>)
    requires Enumerates(order, t.vertices.Keys)
    ensures m == PieceVertices(t, c)
  {
    m := map[];
    for i := 0 to |order|
      invariant forall v | v in m :: m[v] == c
      invariant forall v :: v in m <==> v in order[..i] && v in t.vertices && t.vertices[v] == c
    {
      var v := order[i];
      assert order[..i + 1] == order[..i] + [v];
      assert v in order;
      if t.vertices[v] == c {
        m := m[v := c];
      }
    }
    assert order[..|order|] == order;
    var p := PieceVertices(t, c);
    forall v ensures v in m <==> v in p {
      assert v in t.vertices ==> v in t.vertices.Keys && v in order;
    }
    assert forall v | v in m :: m[v] == p[v];
  }

  method CopyStreams(t: Topology, c: Id, order: seq<Id>) returns (r: Option<map<Id, Stream>>)
    requires Enumerates(order, t.streams.Keys)
    ensures r.Some? <==> Joined(t)
    ensures r.Some? ==> r.value == PieceStreams(t, c)
  {
    var m: map<Id, Stream> := map[];
    for i := 0 to |order|
      invariant forall s | s in order[..i] && s in t.streams :: t.streams[s].tail in t.vertices && t.streams[s].head in t.vertices
      invariant forall s | s in m :: s in t.streams && m[s] == t.streams[s]
      invariant forall s :: s in m <==> s in order[..i] && s in t.streams && Touches(t, s, c)
    {
      var s := order[i];
      assert order[..i + 1] == order[..i] + [s];
      assert s in order;
      var stream := t.streams[s];
      if stream.tail !in t.vertices || stream.head !in t.vertices {
        return None;
      }
      if t.vertices[stream.tail] == c || t.vertices[stream.head] == c {
        m := m[s := stream];
      }
    }
    assert order[..|order|] == order;
    assert Joined(t);
    var p := PieceStreams(t, c);
    forall s ensures s in m <==> s in p {
    }
    r := Some(m);
  }

  /** extract: throws if there is no such container, or a stream has no such vertex. */
  method Extract(t: Topology, c: Id, vorder: seq<Id>, sorder: seq<Id>) returns (r: Option<Topology>)
    requires Enumerates(vorder, t.vertices.Keys) && Enumerates(sorder, t.streams.Keys)
    ensures r == if c in t.containers && Joined(t) then Some(Piece(t, c)) else None
  {
    if c !in t.containers {
      return None;
    }
    var vertices := CopyVertices(t, c, vorder);
    var streams := CopyStreams(t, c, sorder);
    if streams.None? {
      return None;
    }
    r := Some(Topology(t.graph, c, vertices, streams.value, map[c := t.containers[c]]));
  }

  // ---- Counting the streams between containers ----------------------------------------------

  predicate Crosses(t: Topology, s: Id)
    requires s in t.streams && t.streams[s].tail in t.vertices && t.streams[s].head in t.vertices
  {
    t.vertices[t.streams[s].tail] != t.vertices[t.streams[s].head]
  }

  /** The streams between containers. */
  function Cut(t: Topology): set<Id>
    requires Joined(t)
  {
    set s | s in t.streams && Crosses(t, s)
  }

  /** The inter-streams of all pieces, added up. */
  function TotalInter(t: Topology, cs: seq<Id>): nat
    requires Joined(t) && forall c | c in cs :: c in t.containers
  {
    if cs == [] then 0 else NumInter(Piece(t, cs[0])) + TotalInter(t, cs[1..])
  }

  /** The streams of the cut that leave, and that enter, one of the containers. */
  function Leaving(t: Topology, cs: seq<Id>): set<Id>
    requires Joined(t)
  {
    set s | s in Cut(t) && t.vertices[t.streams[s].tail] in cs
  }

  function Entering(t: Topology, cs: seq<Id>): set<Id>
    requires Joined(t)
  {
    set s | s in Cut(t) && t.vertices[t.streams[s].head] in cs
  }

  lemma Adds(a: set<Id>, b: set<Id>, c: set<Id>)
    requires a == b + c && b !! c
    ensures |a| == |b| + |c|
  {
  }

  /** The two kinds of inter-streams of a piece are the two ends of streams of the cut. */
  lemma PieceEnds(t: Topology, c: Id)
    requires Joined(t) && c in t.containers
    ensures InterOut(Piece(t, c)) == Leaving(t, [c]) && InterIn(Piece(t, c)) == Entering(t, [c])
    ensures Inter(Piece(t, c)) == InterOut(Piece(t, c)) + InterIn(Piece(t, c))
    ensures InterOut(Piece(t, c)) !! InterIn(Piece(t, c))
  {
  }

  lemma OnePiece(t: Topology, c: Id, rest: seq<Id>)
    requires Joined(t) && c in t.containers && c !in rest
    ensures |Leaving(t, [c] + rest)| + |Entering(t, [c] + rest)|
         == NumInter(Piece(t, c)) + |Leaving(t, rest)| + |Entering(t, rest)|
  {
    PieceEnds(t, c);
    var p := Piece(t, c);
    assert Leaving(t, [c] + rest) == Leaving(t, [c]) + Leaving(t, rest) && Leaving(t, [c]) !! Leaving(t, rest);
    assert Entering(t, [c] + rest) == Entering(t, [c]) + Entering(t, rest) && Entering(t, [c]) !! Entering(t, rest);
    hide Piece, InterOut, InterIn, Inter, Leaving, Entering;
    Adds(Leaving(t, [c] + rest), InterOut(p), Leaving(t, rest));
    Adds(Entering(t, [c] + rest), InterIn(p), Entering(t, rest));
    Adds(Inter(p), InterOut(p), InterIn(p));
  }

  lemma {:induction false} TotalIsBothEnds(t: Topology, cs: seq<Id>)
    requires Joined(t) && (forall c | c in cs :: c in t.containers) && forall i, j | 0 <= i < j < |cs| :: cs[i] != cs[j]
    ensures TotalInter(t, cs) == |Leaving(t, cs)| + |Entering(t, cs)|
    decreases |cs|
  {
    if cs == [] {
      assert Leaving(t, cs) == {} && Entering(t, cs) == {};
    } else {
      hide Piece, Leaving, Entering, NumInter;
      var rest := cs[1..];
      assert forall i | 0 <= i < |rest| :: rest[i] == cs[i + 1];
      assert cs == [cs[0]] + rest;
      TotalIsBothEnds(t, rest);
      OnePiece(t, cs[0], rest);
    }
  }

  /** Over all pieces the inter-streams add up to twice the cut. */
  lemma InterStreamsAreTwiceTheCut(t: Topology, cs: seq<Id>)
    requires Sound(t) && Enumerates(cs, t.containers.Keys)
    ensures TotalInter(t, cs) == 2 * |Cut(t)|
  {
    TotalIsBothEnds(t, cs);
    assert Leaving(t, cs) == Cut(t) && Entering(t, cs) == Cut(t);
  }
}
