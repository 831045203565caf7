/**
 When graphs start: what is admitted fits into an idle cluster, and waiting graphs start in the
 order of the queue.
 */
module MasterQueue {
  import opened Options
  import opened Scheduler
  import opened MasterState
  import opened MasterBooks

  /** Graph containers have different keys. */
  predicate DistinctContainers(cs: Containers) { forall i, j | 0 <= i < j < |cs| :: cs[i].0 != cs[j].0 }

  // ---- Placing is assigning ----------------------------------------------------------------

  lemma OrderIndex(m: Master, i: nat, j: nat)
    requires Ordered(m) && i < |m.order| && j < |m.order| && m.order[i] == m.order[j]
    ensures i == j
  {
  }

  lemma PlaceOneReleased(m: Master, g: Key, c: (Key, Resource), b: nat)
    requires Ordered(m) && g in m.graphs && Best(Released(m), c.1, |m.order|) == Some(b)
    ensures m.order[b] in m.agents
    ensures var r := PlaceOne(m, g, c, m.order[b]);
      Ordered(r) && r.order == m.order && Released(r) == Released(m)[b := Some(Minus(Released(m)[b].value, c.1))]
  {
    assert m.order[b] in m.order;
    var r := PlaceOne(m, g, c, m.order[b]);
    PlaceOneOrdered(m, g, c, m.order[b]);
    forall i | 0 <= i < |m.order|
      ensures Released(r)[i] == Released(m)[b := Some(Minus(Released(m)[b].value, c.1))][i]
    {
      if m.order[i] == m.order[b] {
        OrderIndex(m, i, b);
      }
    }
  }

  /** The containers are placed on the chosen agents. */
  ghost predicate PlacedAs(r: Graph, g: Key, cs: Containers, order: seq<Key>, chosen: seq<nat>) {
    && |chosen| == |cs|
    && forall j | 0 <= j < |cs| ::
         && chosen[j] < |order|
         && TaskId(g, cs[j].0) in r.placement && r.placement[TaskId(g, cs[j].0)] == order[chosen[j]]
  }

  /** What else graph g had is kept. */
  ghost predicate KeepsRest(x: Graph, y: Graph, cs: Containers) {
    && y.containers == x.containers && y.infos == x.infos
    && forall t | t in x.placement && !InContainers(cs, t.container) :: t in y.placement && y.placement[t] == x.placement[t]
  }

  ghost predicate OthersSame(m: Master, r: Master, g: Key) {
    forall h | h in m.graphs && h != g :: h in r.graphs && r.graphs[h] == m.graphs[h]
  }

  lemma RestDistinct(cs: Containers)
    requires DistinctContainers(cs) && cs != []
    ensures DistinctContainers(cs[1..]) && !InContainers(cs[1..], cs[0].0)
    ensures forall k :: InContainers(cs, k) <==> k == cs[0].0 || InContainers(cs[1..], k)
  {
    assert forall i | 0 <= i < |cs[1..]| :: cs[1..][i] == cs[i + 1];
    forall k ensures InContainers(cs, k) <==> k == cs[0].0 || InContainers(cs[1..], k) {
      if InContainers(cs, k) && k != cs[0].0 {
        var j :| 0 <= j < |cs| && cs[j].0 == k;
        assert cs[1..][j - 1].0 == k;
      }
    }
  }

  /** The first container, and the others. */
  lemma PlacedJoins(x: Graph, y: Graph, z: Graph, g: Key, cs: Containers, order: seq<Key>, b: nat, rest: seq<nat>)
    requires DistinctContainers(cs) && cs != [] && b < |order|
    requires y == x.(placement := x.placement[TaskId(g, cs[0].0) := order[b]])
    requires PlacedAs(z, g, cs[1..], order, rest) && KeepsRest(y, z, cs[1..])
    ensures PlacedAs(z, g, cs, order, [b] + rest) && KeepsRest(x, z, cs)
  {
    RestDistinct(cs);
    forall j | 0 <= j < |cs|
      ensures var c := ([b] + rest)[j];
        c < |order| && TaskId(g, cs[j].0) in z.placement && z.placement[TaskId(g, cs[j].0)] == order[c]
    {
      if j > 0 {
        assert cs[1..][j - 1] == cs[j];
      }
    }
  }

  /** A graph starts exactly if all of its containers can be assigned, and then they are placed as assigned. */
  lemma {:induction false} PlaceAllIsAssign(m: Master, g: Key, cs: Containers)
    requires Ordered(m) && g in m.graphs && DistinctContainers(cs)
    ensures PlaceAll(m, g, cs).Some? <==> Assignable(Released(m), Needs(cs))
    ensures PlaceAll(m, g, cs).Some? ==>
      var r := PlaceAll(m, g, cs).value;
      && r.order == m.order && Released(r) == Assign(Released(m), Needs(cs)).1
      && PlacedAs(r.graphs[g], g, cs, m.order, Assign(Released(m), Needs(cs)).0)
      && KeepsRest(m.graphs[g], r.graphs[g], cs) && OthersSame(m, r, g)
    decreases |cs|
  {
    hide Ordered, PlacedAs, KeepsRest, DistinctContainers, Best;
    if cs == [] {
      NothingToPlace(m, g, cs);
    } else {
      var b := Best(Released(m), cs[0].1, |m.order|);
      assert Needs(cs)[1..] == Needs(cs[1..]) && Needs(cs)[0] == cs[0].1;
      if b.Some? {
        PlaceOneReleased(m, g, cs[0], b.value);
        var n := PlaceOne(m, g, cs[0], m.order[b.value]);
        RestDistinct(cs);
        PlaceAllIsAssign(n, g, cs[1..]);
        var r := PlaceAll(n, g, cs[1..]);
        if r.Some? {
          PlacedJoins(m.graphs[g], n.graphs[g], r.value.graphs[g], g, cs, m.order, b.value, Assign(Released(n), Needs(cs[1..])).0);
        }
      }
    }
  }

  lemma NothingToPlace(m: Master, g: Key, cs: Containers)
    requires Ordered(m) && g in m.graphs && cs == []
    ensures PlacedAs(m.graphs[g], g, cs, m.order, []) && KeepsRest(m.graphs[g], m.graphs[g], cs)
    ensures Assign(Released(m), Needs(cs)) == ([], Released(m))
  {
  }

  // ---- Admission ---------------------------------------------------------------------------

  /** Nothing runs. */
  ghost predicate Idle(m: Master) { forall a | a in m.agents :: m.agents[a].tasks == map[] }

  /** A graph that is admitted would be started by the same agents if they were idle, each container
      on the agent it was tried on. */
  lemma AdmittedGraphsStart(m: Master, g: Key, cs: Containers)
    requires Inv(m) && Idle(m) && g in m.graphs && m.graphs[g].containers == Some(cs) && DistinctContainers(cs)
    ensures TryEnqueue(m, cs) <==> TryDequeue(m, g).Some?
    ensures TryDequeue(m, g).Some? ==>
      PlacedAs(TryDequeue(m, g).value.graphs[g], g, cs, m.order, Assign(Resources(m), Needs(cs)).0)
  {
    forall i | 0 <= i < |m.order| ensures Resources(m)[i] == Released(m)[i] {
      assert m.order[i] in m.order;
      var agent := m.agents[m.order[i]];
      assert Balanced(agent);
    }
    assert Resources(m) == Released(m);
    PlaceAllIsAssign(m, g, cs);
  }

  // ---- The queue ---------------------------------------------------------------------------

  /** The first n graphs of the queue were started, if they were still there; the others wait as before. */
  ghost predicate InOrder(m: Master, r: Master, n: nat) {
    && n <= |m.queue| && r.queue == m.queue[n..]
    && r.graphs.Keys == m.graphs.Keys
    && (forall i | 0 <= i < n && m.queue[i] in m.graphs :: StartedNow(m, r, m.queue[i]))
    && (forall g | g in m.graphs && g !in m.queue[..n] :: r.graphs[g] == m.graphs[g])
  }

  /** All containers of g have a place. */
  ghost predicate StartedNow(m: Master, r: Master, g: Key) {
    && g in m.graphs && g in r.graphs && m.graphs[g].containers.Some?
    && forall j | 0 <= j < |m.graphs[g].containers.value| ::
         TaskId(g, m.graphs[g].containers.value[j].0) in r.graphs[g].placement
  }

  /** Graphs leave the queue from the front only. The one that is left at the front is there because
      not all of its containers can be assigned to what the agents have left. */
  lemma {:induction false} QueueRunsInOrder(m: Master) returns (n: nat)
    requires Inv(m)
    ensures InOrder(m, Dequeue(m), n)
    ensures Dequeue(m).queue != [] ==> FrontWaits(Dequeue(m))
    decreases |m.queue|
  {
    hide AgentsOk, PlacedOk, KnownOk, GraphsOk, QueueOk, InOrder, FrontWaits, TryDequeue, OthersSame, StartedNow;
    if m.queue == [] {
      n := 0;
      NoneStarted(m);
    } else {
      var g, rest := m.queue[0], m.queue[1..];
      assert m.queue == [g] + rest;
      var popped := m.(queue := rest);
      QueueIsDistinct(m);
      if g !in m.graphs {
        PopKeeps(m, g, rest);
        var k := QueueRunsInOrder(popped);
        n := k + 1;
        DropsFirst(m, popped, popped, Dequeue(m), k, g);
      } else {
        FrontIsTried(m, g, rest);
        var r := TryDequeue(popped, g);
        if r.Some? {
          var k := QueueRunsInOrder(r.value);
          n := k + 1;
          DropsFirst(m, popped, r.value, Dequeue(m), k, g);
        } else {
          n := 0;
          NoneStarted(m);
        }
      }
    }
  }

  /** The graph at the front does not fit into what the agents have left. */
  ghost predicate FrontWaits(r: Master)
    requires Ordered(r) && r.queue != []
  {
    && r.queue[0] in r.graphs && r.graphs[r.queue[0]].containers.Some?
    && !Assignable(Released(r), Needs(r.graphs[r.queue[0]].containers.value))
  }

  lemma NoneStarted(m: Master)
    ensures InOrder(m, m, 0)
  {
  }

  lemma QueueIsDistinct(m: Master)
    requires Inv(m)
    ensures Distinct(m.queue)
  {
  }

  lemma FrontIsTried(m: Master, g: Key, rest: seq<Key>)
    requires Inv(m) && m.queue == [g] + rest && g in m.graphs
    ensures var popped := m.(queue := rest); var r := TryDequeue(popped, g);
      if r.None? then FrontWaits(m)
      else Inv(r.value) && StartedNow(m, r.value, g) && OthersSame(popped, r.value, g)
           && r.value.graphs[g].containers == m.graphs[g].containers
  {
    hide AgentsOk, PlacedOk, KnownOk, QueueOk, GraphOk, Assign, PlaceAll;
    TryDequeueKeeps(m, g, rest);
    FrontIsDistinct(m, g);
    var popped := m.(queue := rest);
    PlaceAllIsAssign(popped, g, m.graphs[g].containers.value);
    assert Released(popped) == Released(m);
  }

  lemma FrontIsDistinct(m: Master, g: Key)
    requires Inv(m) && g in m.graphs && m.graphs[g].containers.Some?
    ensures DistinctContainers(m.graphs[g].containers.value)
  {
    assert GraphOk(m, g);
  }

  lemma DropsFirst(m: Master, popped: Master, s: Master, r: Master, k: nat, g: Key)
    requires m.queue != [] && g == m.queue[0] && popped == m.(queue := m.queue[1..])
    requires InOrder(s, r, k) && s.queue == popped.queue && s.graphs.Keys == m.graphs.Keys
    requires if g in m.graphs then StartedNow(m, s, g) && OthersSame(popped, s, g) && s.graphs[g].containers == m.graphs[g].containers
             else s == popped
    requires Distinct(m.queue)
    ensures InOrder(m, r, k + 1)
  {
    assert m.queue[k + 1..] == m.queue[1..][k..];
    assert m.queue[..k + 1] == [g] + m.queue[1..][..k];
    assert forall i | 0 <= i < |m.queue[1..]| :: m.queue[1..][i] == m.queue[i + 1];
    if g in m.graphs {
      assert g !in s.queue[..k];
      assert r.graphs[g] == s.graphs[g];
    }
    forall i | 0 <= i < k + 1 && m.queue[i] in m.graphs ensures StartedNow(m, r, m.queue[i]) {
      if i > 0 {
        assert s.queue[i - 1] == m.queue[i];
        assert StartedNow(s, r, m.queue[i]);
      }
    }
  }
}
