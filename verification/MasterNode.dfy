/**
 The master as an object: its tables are updated in place by the schedulers and the handlers.
 Each method is proved to take the step that MasterState describes.
 */
module MasterNode {
  import opened Options
  import opened Scheduler
  import opened MasterState
  import opened MasterQueue

  // ---- Two passes over the containers ------------------------------------------------------

  /** The first pass of _try_dequeue: what is released is taken, nothing is entered yet. */
  function Subtracted(m: Master, a: Key, need: Resource): Master
    requires a in m.agents && m.agents[a].released.Some? && Covers(m.agents[a].released.value, need)
  {
    m.(agents := m.agents[a := m.agents[a].(released := Some(Minus(m.agents[a].released.value, need)))])
  }

  /** The second pass: the task is entered with its agent and its graph. */
  function Entered(m: Master, g: Key, c: (Key, Resource), a: Key): Master
    requires a in m.agents && g in m.graphs
  {
    var t := TaskId(g, c.0);
    m.(agents := m.agents[a := m.agents[a].(tasks := m.agents[a].tasks[t := c.1])],
       graphs := m.graphs[g := m.graphs[g].(placement := m.graphs[g].placement[t := a])])
  }

  function EnterAll(m: Master, g: Key, cs: Containers, places: seq<Key>): Master
    requires g in m.graphs && |places| <= |cs| && forall j | 0 <= j < |places| :: places[j] in m.agents
    decreases |places|
  {
    if places == [] then m
    else EnterAll(Entered(m, g, cs[0], places[0]), g, cs[1..], places[1..])
  }

  lemma {:induction false} EnterAllSnoc(m: Master, g: Key, cs: Containers, places: seq<Key>, n: nat)
    requires g in m.graphs && n < |places| <= |cs| && forall j | 0 <= j < |places| :: places[j] in m.agents
    ensures var r := EnterAll(m, g, cs, places[..n]);
      && g in r.graphs && places[n] in r.agents
      && EnterAll(m, g, cs, places[..n + 1]) == Entered(r, g, cs[n], places[n])
    decreases n
  {
    if n > 0 {
      var one := Entered(m, g, cs[0], places[0]);
      assert places[..n + 1][1..] == places[1..][..n] && places[..n][1..] == places[1..][..n - 1];
      assert forall j | 0 <= j < |places[1..]| :: places[1..][j] == places[j + 1];
      EnterAllSnoc(one, g, cs[1..], places[1..], n - 1);
      assert places[1..][..n - 1 + 1] == places[1..][..n];
    } else {
      assert places[..1] == [places[0]] && places[..0] == [];
      assert [places[0]][1..] == [];
    }
  }

  /** The whole first pass. */
  function SubtractAll(m: Master, cs: Containers): (r: Option<(Master, seq<Key>)>)
    requires Ordered(m)
    ensures r.Some? ==> Ordered(r.value.0) && |r.value.1| == |cs| && r.value.0.graphs == m.graphs
                        && r.value.0.agents.Keys == m.agents.Keys
                        && forall j | 0 <= j < |cs| :: r.value.1[j] in m.agents
    decreases |cs|
  {
    if cs == [] then Some((m, []))
    else
      match Chosen(m, cs[0].1)
      case None => None
      case Some(a) =>
        SubtractOrdered(m, a, cs[0].1);
        match SubtractAll(Subtracted(m, a, cs[0].1), cs[1..])
        case None => None
        case Some((n, places)) => Some((n, [a] + places))
  }

  lemma SubtractOrdered(m: Master, a: Key, need: Resource)
    requires Ordered(m) && a in m.agents && m.agents[a].released.Some? && Covers(m.agents[a].released.value, need)
    ensures Ordered(Subtracted(m, a, need))
  {
  }

  /** Entering a task does not change what the first pass does. */
  lemma {:induction false} PassesCommute(m: Master, g: Key, c: (Key, Resource), a: Key, cs: Containers)
    requires Ordered(m) && g in m.graphs && a in m.agents
    ensures Ordered(Entered(m, g, c, a))
    ensures var r, s := SubtractAll(m, cs), SubtractAll(Entered(m, g, c, a), cs);
      && r.Some? == s.Some?
      && (r.Some? ==> s.value == (Entered(r.value.0, g, c, a), r.value.1))
    decreases |cs|
  {
    hide Distinct;
    EnteredChooses(m, g, c, a, if cs == [] then NO_RESOURCE else cs[0].1);
    hide Ordered, Chosen, Entered, Subtracted;
    if cs != [] && Chosen(m, cs[0].1).Some? {
      var b := Chosen(m, cs[0].1).value;
      SubtractOrdered(m, b, cs[0].1);
      EnterAfter(m, g, c, a, b, cs[0].1);
      SubtractKeepsGraphs(m, b, cs[0].1, g, a);
      PassesCommute(Subtracted(m, b, cs[0].1), g, c, a, cs[1..]);
    }
  }

  /** Entering a placement changes neither the order of the agents nor what they have released. */
  lemma EnteredChooses(m: Master, g: Key, c: (Key, Resource), a: Key, need: Resource)
    requires Ordered(m) && g in m.graphs && a in m.agents
    ensures Ordered(Entered(m, g, c, a)) && Chosen(Entered(m, g, c, a), need) == Chosen(m, need)
  {
    assert Released(Entered(m, g, c, a)) == Released(m);
  }

  lemma SubtractKeepsGraphs(m: Master, b: Key, need: Resource, g: Key, a: Key)
    requires b in m.agents && m.agents[b].released.Some? && Covers(m.agents[b].released.value, need)
    requires g in m.graphs && a in m.agents
    ensures g in Subtracted(m, b, need).graphs && a in Subtracted(m, b, need).agents
  {
  }

  lemma EnterAfter(m: Master, g: Key, c: (Key, Resource), a: Key, b: Key, need: Resource)
    requires g in m.graphs && a in m.agents && b in m.agents
    requires m.agents[b].released.Some? && Covers(m.agents[b].released.value, need)
    ensures var e := Entered(m, g, c, a);
      b in e.agents && e.agents[b].released == m.agents[b].released
      && Subtracted(e, b, need) == Entered(Subtracted(m, b, need), g, c, a)
  {
    var x, y := Subtracted(Entered(m, g, c, a), b, need), Entered(Subtracted(m, b, need), g, c, a);
    assert x.agents == y.agents;
  }

  /** Taking everything first and entering it afterwards is placing container by container. */
  lemma {:induction false} TwoPassesPlace(m: Master, g: Key, cs: Containers)
    requires Ordered(m) && g in m.graphs
    ensures var r := SubtractAll(m, cs);
      && r.Some? == PlaceAll(m, g, cs).Some?
      && (r.Some? ==> PlaceAll(m, g, cs).value == EnterAll(r.value.0, g, cs, r.value.1))
    decreases |cs|
  {
    hide Ordered, Chosen;
    if cs != [] && Chosen(m, cs[0].1).Some? {
      var a := Chosen(m, cs[0].1).value;
      SubtractOrdered(m, a, cs[0].1);
      PlaceOneOrdered(m, g, cs[0], a);
      var s := Subtracted(m, a, cs[0].1);
      assert PlaceOne(m, g, cs[0], a) == Entered(s, g, cs[0], a);
      TwoPassesPlace(Entered(s, g, cs[0], a), g, cs[1..]);
      PassesCommute(s, g, cs[0], a, cs[1..]);
      var r := SubtractAll(s, cs[1..]);
      if r.Some? {
        assert ([a] + r.value.1)[1..] == r.value.1;
      }
    }
  }

  predicate AreIndices(order: seq<Key>, chosen: seq<nat>) { forall j | 0 <= j < |chosen| :: chosen[j] < |order| }

  function PlacesOf(order: seq<Key>, chosen: seq<nat>): seq<Key>
    requires AreIndices(order, chosen)
  {
    seq(|chosen|, j requires 0 <= j < |chosen| => order[chosen[j]])
  }

  lemma PlacesJoin(order: seq<Key>, b: nat, rest: seq<nat>)
    requires b < |order| && AreIndices(order, rest)
    ensures AreIndices(order, [b] + rest) && PlacesOf(order, [b] + rest) == [order[b]] + PlacesOf(order, rest)
  {
    assert forall j | 0 <= j < |[b] + rest| :: j > 0 ==> ([b] + rest)[j] == rest[j - 1];
  }

  lemma ReleasedOnlyJoins(x: map<Key, Agent>, a: Key, r: Resource, z: map<Key, Agent>)
    requires a in x && ReleasedOnly(x[a := x[a].(released := Some(r))], z)
    ensures ReleasedOnly(x, z)
  {
  }

  lemma AssignIndices(m: Master, needs: seq<Resource>)
    requires Ordered(m)
    ensures AreIndices(m.order, Assign(Released(m), needs).0)
  {
  }

  /** The first pass is the assignment. */
  lemma {:induction false} SubtractAllIsAssign(m: Master, cs: Containers)
    requires Ordered(m)
    ensures var r := SubtractAll(m, cs); var (chosen, left) := Assign(Released(m), Needs(cs));
      && (r.Some? <==> Assignable(Released(m), Needs(cs))) && AreIndices(m.order, chosen)
      && (r.Some? ==>
            && Released(r.value.0) == left && ReleasedOnly(m.agents, r.value.0.agents)
            && r.value.0 == m.(agents := r.value.0.agents)
            && r.value.1 == PlacesOf(m.order, chosen))
    decreases |cs|
  {
    hide Ordered, Best, PlacesOf, AreIndices, ReleasedOnly;
    AssignIndices(m, Needs(cs));
    if cs == [] {
      NothingSubtracted(m, cs);
    } else {
      assert Needs(cs)[1..] == Needs(cs[1..]) && Needs(cs)[0] == cs[0].1;
      var b := Best(Released(m), cs[0].1, |m.order|);
      if b.Some? {
        var r := Minus(Released(m)[b.value].value, cs[0].1);
        ReleasedChanges(m, b.value, r);
        var a := m.order[b.value];
        SubtractAllIsAssign(Subtracted(m, a, cs[0].1), cs[1..]);
        var rest := SubtractAll(Subtracted(m, a, cs[0].1), cs[1..]);
        if rest.Some? {
          ReleasedOnlyJoins(m.agents, a, r, rest.value.0.agents);
          PlacesJoin(m.order, b.value, Assign(Released(m)[b.value := Some(r)], Needs(cs[1..])).0);
        }
      }
    }
  }

  lemma NothingSubtracted(m: Master, cs: Containers)
    requires Ordered(m) && cs == []
    ensures Assign(Released(m), Needs(cs)) == ([], Released(m)) && ReleasedOnly(m.agents, m.agents)
    ensures AreIndices(m.order, []) && PlacesOf(m.order, []) == []
  {
  }

  // ---- The object --------------------------------------------------------------------------

  /** Only what agents have left, or have, differs. */
  ghost predicate ReleasedOnly(x: map<Key, Agent>, y: map<Key, Agent>) {
    x.Keys == y.Keys && forall a | a in x :: y[a] == x[a].(released := y[a].released)
  }

  ghost predicate ResourceOnly(x: map<Key, Agent>, y: map<Key, Agent>) {
    x.Keys == y.Keys && forall a | a in x :: y[a] == x[a].(resource := y[a].resource)
  }

  lemma SameReleased(m: Master, n: Master)
    requires Ordered(m) && Ordered(n) && m.order == n.order
    requires ReleasedOnly(m.agents, n.agents) && Released(m) == Released(n)
    ensures m.agents == n.agents
  {
    forall a | a in m.agents ensures m.agents[a] == n.agents[a] {
      var i :| 0 <= i < |m.order| && m.order[i] == a;
      assert Released(m)[i] == Released(n)[i];
    }
  }

  lemma SameResources(m: Master, n: Master)
    requires Ordered(m) && Ordered(n) && m.order == n.order
    requires ResourceOnly(m.agents, n.agents) && Resources(m) == Resources(n)
    ensures m.agents == n.agents
  {
    forall a | a in m.agents ensures m.agents[a] == n.agents[a] {
      var i :| 0 <= i < |m.order| && m.order[i] == a;
      assert Resources(m)[i] == Resources(n)[i];
    }
  }

  lemma ReleasedChanges(m: Master, b: nat, r: Resource)
    requires Ordered(m) && b < |m.order|
    ensures m.order[b] in m.agents
    ensures var n := m.(agents := m.agents[m.order[b] := m.agents[m.order[b]].(released := Some(r))]);
      Ordered(n) && Released(n) == Released(m)[b := Some(r)]
  {
    assert m.order[b] in m.order;
    var n := m.(agents := m.agents[m.order[b] := m.agents[m.order[b]].(released := Some(r))]);
    forall i | 0 <= i < |m.order| ensures Released(n)[i] == Released(m)[b := Some(r)][i] {
      if m.order[i] == m.order[b] {
        OrderIndex(m, i, b);
      }
    }
  }

  lemma ResourcesChange(m: Master, b: nat, r: Resource)
    requires Ordered(m) && b < |m.order|
    ensures m.order[b] in m.agents
    ensures var n := m.(agents := m.agents[m.order[b] := m.agents[m.order[b]].(resource := Some(r))]);
      Ordered(n) && Resources(n) == Resources(m)[b := Some(r)]
  {
    assert m.order[b] in m.order;
    var n := m.(agents := m.agents[m.order[b] := m.agents[m.order[b]].(resource := Some(r))]);
    forall i | 0 <= i < |m.order| ensures Resources(n)[i] == Resources(m)[b := Some(r)][i] {
      if m.order[i] == m.order[b] {
        OrderIndex(m, i, b);
      }
    }
  }

  /** Some containers are assigned and the rest are to be. */
  ghost predicate Halfway(pool: Pool, needs: seq<Resource>, chosen: seq<nat>, left: Pool, j: nat) {
    && j == |chosen| <= |needs| && |left| == |pool|
    && Assign(pool, needs) == (chosen + Assign(left, needs[j..]).0, Assign(left, needs[j..]).1)
  }

  lemma HalfwayStarts(pool: Pool, needs: seq<Resource>)
    ensures Halfway(pool, needs, [], pool, 0)
  {
    assert needs[0..] == needs;
    assert [] + Assign(pool, needs).0 == Assign(pool, needs).0;
  }

  lemma HalfwayGoes(pool: Pool, needs: seq<Resource>, chosen: seq<nat>, left: Pool, j: nat)
    requires Halfway(pool, needs, chosen, left, j) && j < |needs|
    ensures match Best(left, needs[j], |left|)
            case None => Assign(pool, needs) == (chosen, left) && !Assignable(pool, needs)
            case Some(b) => Halfway(pool, needs, chosen + [b], left[b := Some(Minus(left[b].value, needs[j]))], j + 1)
  {
    assert needs[j..][1..] == needs[j + 1..];
    match Best(left, needs[j], |left|) {
      case None => assert chosen + [] == chosen;
      case Some(b) =>
        var next := left[b := Some(Minus(left[b].value, needs[j]))];
        assert chosen + ([b] + Assign(next, needs[j + 1..]).0) == chosen + [b] + Assign(next, needs[j + 1..]).0;
    }
  }

  lemma HalfwayEnds(pool: Pool, needs: seq<Resource>, chosen: seq<nat>, left: Pool)
    requires Halfway(pool, needs, chosen, left, |needs|)
    ensures Assign(pool, needs) == (chosen, left) && Assignable(pool, needs)
  {
    assert needs[|needs|..] == [];
    assert chosen + [] == chosen;
  }

  /** The containers so far are on these agents, all of which have reported. */
  ghost predicate On(pool: Pool, order: seq<Key>, chosen: seq<nat>, c2a: seq<Key>) {
    |pool| == |order| && AreIndices(order, chosen) && c2a == PlacesOf(order, chosen)
    && forall j | 0 <= j < |chosen| :: pool[chosen[j]].Some?
  }

  lemma OnGrows(pool: Pool, order: seq<Key>, chosen: seq<nat>, c2a: seq<Key>, b: nat, r: Resource)
    requires On(pool, order, chosen, c2a) && b < |order|
    ensures On(pool[b := Some(r)], order, chosen + [b], c2a + [order[b]])
  {
    var more := chosen + [b];
    assert forall j | 0 <= j < |chosen| :: more[j] == chosen[j];
    assert PlacesOf(order, more) == c2a + [order[b]];
  }

  lemma OnKeeps(pool: Pool, order: seq<Key>, chosen: seq<nat>, c2a: seq<Key>, b: nat, r: Resource)
    requires On(pool, order, chosen, c2a) && b < |order|
    ensures On(pool[b := Some(r)], order, chosen, c2a)
  {
  }

  /** One container of those given back. */
  lemma RestoredGoes(pool: Pool, order: seq<Key>, chosen: seq<nat>, c2a: seq<Key>, needs: seq<Resource>, j: nat)
    requires On(pool, order, chosen, c2a) && j < |chosen| <= |needs|
    ensures var b := chosen[j];
      && b < |pool| && c2a[j] == order[b] && pool[b].Some?
      && On(pool, order, chosen[j..], c2a[j..])
      && On(pool[b := Some(Plus(pool[b].value, needs[j]))], order, chosen[j + 1..], c2a[j + 1..])
      && Restored(pool, chosen[j..], needs[j..])
         == Restored(pool[b := Some(Plus(pool[b].value, needs[j]))], chosen[j + 1..], needs[j + 1..])
  {
    assert chosen[j..][1..] == chosen[j + 1..] && needs[j..][1..] == needs[j + 1..];
    OnAt(pool, order, chosen, c2a, j);
    OnSuffix(pool, order, chosen, c2a, j);
    OnKeeps(pool, order, chosen, c2a, chosen[j], Plus(pool[chosen[j]].value, needs[j]));
    hide On, AreIndices, PlacesOf, Plus;
    OnSuffix(pool[chosen[j] := Some(Plus(pool[chosen[j]].value, needs[j]))], order, chosen, c2a, j + 1);
  }

  lemma OnAt(pool: Pool, order: seq<Key>, chosen: seq<nat>, c2a: seq<Key>, j: nat)
    requires On(pool, order, chosen, c2a) && j < |chosen|
    ensures |c2a| == |chosen| && chosen[j] < |pool| && c2a[j] == order[chosen[j]] && pool[chosen[j]].Some?
  {
  }

  lemma OnSuffix(pool: Pool, order: seq<Key>, chosen: seq<nat>, c2a: seq<Key>, j: nat)
    requires On(pool, order, chosen, c2a) && j <= |chosen|
    ensures |c2a| == |chosen| && On(pool, order, chosen[j..], c2a[j..])
  {
    var rest := chosen[j..];
    assert forall k | 0 <= k < |rest| :: rest[k] == chosen[j + k];
    assert PlacesOf(order, rest) == c2a[j..];
  }

  lemma OnNone(pool: Pool, order: seq<Key>)
    requires |pool| == |order|
    ensures On(pool, order, [], [])
  {
  }

  ghost predicate RestoresTo(pool: Pool, order: seq<Key>, chosen: seq<nat>, c2a: seq<Key>, needs: seq<Resource>, j: nat, end: Pool)
  {
    j <= |chosen| <= |needs| && |c2a| == |chosen| && On(pool, order, chosen[j..], c2a[j..])
    && Restored(pool, chosen[j..], needs[j..]) == end
  }

  lemma RestoreStarts(pool: Pool, order: seq<Key>, chosen: seq<nat>, c2a: seq<Key>, needs: seq<Resource>)
    requires On(pool, order, chosen, c2a) && |chosen| <= |needs|
    ensures |c2a| == |chosen| && RestoresTo(pool, order, chosen, c2a, needs, 0, Restored(pool, chosen, needs))
  {
    assert chosen[0..] == chosen && c2a[0..] == c2a && needs[0..] == needs;
  }

  lemma RestoreEnds(pool: Pool, order: seq<Key>, chosen: seq<nat>, c2a: seq<Key>, needs: seq<Resource>, end: Pool)
    requires RestoresTo(pool, order, chosen, c2a, needs, |chosen|, end)
    ensures pool == end
  {
    assert chosen[|chosen|..] == [];
  }

  class Node {
    var agents: map<Key, Agent>
    var order: seq<Key>
    var graphs: map<Key, Graph>
    var queue: seq<Key>
    var solutions: seq<Solution>
    ghost var kills: set<(Key, TaskId)>
    var nextAgent: Key
    var nextGraph: Key

    ghost function State(): Master
      reads this
    {
      Master(agents, order, graphs, queue, solutions, kills, nextAgent, nextGraph)
    }

    ghost predicate Valid()
      reads this
    {
      Ordered(State())
    }

    constructor ()
      ensures Valid() && State() == UNUSED
    {
      agents, order, graphs, queue, solutions, kills, nextAgent, nextGraph := map[], [], map[], [], [], {}, 0, 0;
    }

    /** Gives back what the first containers took from the agents' resources. */
    method RestoreResources(c2a: seq<Key>, cs: Containers, ghost chosen: seq<nat>, ghost pool: Pool)
      requires Valid() && |chosen| <= |cs| && On(Resources(State()), order, chosen, c2a)
      requires Restored(Resources(State()), chosen, Needs(cs)) == pool
      modifies this`agents
      ensures Valid() && Resources(State()) == pool && ResourceOnly(old(agents), agents)
    {
      hide Ordered, Plus, On, Restored, PlacesOf;
      RestoreStarts(Resources(State()), order, chosen, c2a, Needs(cs));
      for j := 0 to |c2a|
        invariant Valid() && ResourceOnly(old(agents), agents) && |c2a| == |chosen|
        invariant On(Resources(State()), order, chosen, c2a)
        invariant RestoresTo(Resources(State()), order, chosen, c2a, Needs(cs), j, pool)
      {
        RestoredGoes(Resources(State()), order, chosen, c2a, Needs(cs), j);
        var a := c2a[j];
        ghost var b := chosen[j];
        ResourcesChange(State(), b, NO_RESOURCE);
        var sum := Plus(agents[a].resource.value, cs[j].1);
        ResourcesChange(State(), b, sum);
        OnKeeps(Resources(State()), order, chosen, c2a, b, sum);
        agents := agents[a := agents[a].(resource := Some(sum))];
      }
      RestoreEnds(Resources(State()), order, chosen, c2a, Needs(cs), pool);
    }

    /** The first loop of _try_enqueue: containers are tried on what the agents have, until one finds none. */
    method TakeResources(cs: Containers) returns (c2a: seq<Key>, ghost chosen: seq<nat>)
      requires Valid()
      modifies this`agents
      ensures Valid() && ResourceOnly(old(agents), agents) && |c2a| == |chosen| <= |cs|
      ensures Assign(Resources(old(State())), Needs(cs)) == (chosen, Resources(State()))
      ensures On(Resources(State()), order, chosen, c2a)
    {
      hide Ordered, Halfway, Minus, Covers, On, PlacesOf;
      OnNone(Resources(State()), order);
      c2a, chosen := [], [];
      ghost var pool := Resources(State());
      HalfwayStarts(pool, Needs(cs));
      var j, stuck := 0, false;
      while j < |cs| && !stuck
        invariant j <= |cs| && Valid() && ResourceOnly(old(agents), agents)
        invariant |c2a| == |chosen| == j
        invariant On(Resources(State()), order, chosen, c2a)
        invariant if stuck then j < |cs| && Assign(pool, Needs(cs)) == (chosen, Resources(State()))
                  else Halfway(pool, Needs(cs), chosen, Resources(State()), j)
        decreases |cs| - j + if stuck then 0 else 1
      {
        HalfwayGoes(pool, Needs(cs), chosen, Resources(State()), j);
        var now := ResourcesNow();
        var best := FindBest(now, cs[j].1);
        if best.None? {
          stuck := true;
        } else {
          var b := best.value;
          var r := Minus(now[b].value, cs[j].1);
          ResourcesChange(State(), b, r);
          OnGrows(Resources(State()), order, chosen, c2a, b, r);
          var a := order[b];
          agents := agents[a := agents[a].(resource := Some(r))];
          c2a, chosen := c2a + [a], chosen + [b];
          j := j + 1;
        }
      }
      if !stuck {
        HalfwayEnds(pool, Needs(cs), chosen, Resources(State()));
      }
    }

    /** _try_enqueue: try on the agents' resources, then give everything back. */
    method TryEnqueue(cs: Containers) returns (ok: bool)
      requires Valid()
      modifies this`agents
      ensures State() == old(State()) && ok == MasterState.TryEnqueue(State(), cs)
    {
      hide Ordered, Assign;
      ghost var start := State();
      var c2a; ghost var chosen;
      c2a, chosen := TakeResources(cs);
      RestoringIsExact(Resources(start), Needs(cs));
      RestoreResources(c2a, cs, chosen, Resources(start));
      SameResources(start, State());
      ok := |c2a| == |cs|;
    }

    method ResourcesNow() returns (pool: Pool)
      requires Valid()
      ensures pool == Resources(State())
    {
      pool := [];
      for i := 0 to |order|
        invariant pool == Resources(State())[..i]
      {
        assert order[i] in order;
        pool := pool + [agents[order[i]].resource];
      }
    }

    method ReleasedNow() returns (pool: Pool)
      requires Valid()
      ensures pool == Released(State())
    {
      pool := [];
      for i := 0 to |order|
        invariant pool == Released(State())[..i]
      {
        assert order[i] in order;
        pool := pool + [agents[order[i]].released];
      }
    }

    /** Gives back what the first containers took from what was released. */
    method RestoreReleased(c2a: seq<Key>, cs: Containers, ghost chosen: seq<nat>, ghost pool: Pool)
      requires Valid() && |chosen| <= |cs| && On(Released(State()), order, chosen, c2a)
      requires Restored(Released(State()), chosen, Needs(cs)) == pool
      modifies this`agents
      ensures Valid() && Released(State()) == pool && ReleasedOnly(old(agents), agents)
    {
      hide Ordered, Plus, On, Restored, PlacesOf;
      RestoreStarts(Released(State()), order, chosen, c2a, Needs(cs));
      for j := 0 to |c2a|
        invariant Valid() && ReleasedOnly(old(agents), agents) && |c2a| == |chosen|
        invariant On(Released(State()), order, chosen, c2a)
        invariant RestoresTo(Released(State()), order, chosen, c2a, Needs(cs), j, pool)
      {
        RestoredGoes(Released(State()), order, chosen, c2a, Needs(cs), j);
        var a := c2a[j];
        ghost var b := chosen[j];
        ReleasedChanges(State(), b, NO_RESOURCE);
        var sum := Plus(agents[a].released.value, cs[j].1);
        ReleasedChanges(State(), b, sum);
        OnKeeps(Released(State()), order, chosen, c2a, b, sum);
        agents := agents[a := agents[a].(released := Some(sum))];
      }
      RestoreEnds(Released(State()), order, chosen, c2a, Needs(cs), pool);
    }

    /** The first loop of _try_dequeue: containers are assigned to what is released, until one finds no agent. */
    method TakeReleased(cs: Containers) returns (c2a: seq<Key>, ghost chosen: seq<nat>)
      requires Valid()
      modifies this`agents
      ensures Valid() && ReleasedOnly(old(agents), agents) && |c2a| == |chosen| <= |cs|
      ensures Assign(Released(old(State())), Needs(cs)) == (chosen, Released(State()))
      ensures On(Released(State()), order, chosen, c2a)
    {
      hide Ordered, Halfway, Minus, Covers, On, PlacesOf;
      OnNone(Released(State()), order);
      c2a, chosen := [], [];
      ghost var pool := Released(State());
      HalfwayStarts(pool, Needs(cs));
      var j, stuck := 0, false;
      while j < |cs| && !stuck
        invariant j <= |cs| && Valid() && ReleasedOnly(old(agents), agents)
        invariant |c2a| == |chosen| == j
        invariant On(Released(State()), order, chosen, c2a)
        invariant if stuck then j < |cs| && Assign(pool, Needs(cs)) == (chosen, Released(State()))
                  else Halfway(pool, Needs(cs), chosen, Released(State()), j)
        decreases |cs| - j + if stuck then 0 else 1
      {
        HalfwayGoes(pool, Needs(cs), chosen, Released(State()), j);
        var now := ReleasedNow();
        var best := FindBest(now, cs[j].1);
        if best.None? {
          stuck := true;
        } else {
          var b := best.value;
          var r := Minus(now[b].value, cs[j].1);
          ReleasedChanges(State(), b, r);
          OnGrows(Released(State()), order, chosen, c2a, b, r);
          var a := order[b];
          agents := agents[a := agents[a].(released := Some(r))];
          c2a, chosen := c2a + [a], chosen + [b];
          j := j + 1;
        }
      }
      if !stuck {
        HalfwayEnds(pool, Needs(cs), chosen, Released(State()));
      }
    }

    /** The last loop of _try_dequeue: every task is entered with its agent and its graph. */
    method Enter(g: Key, cs: Containers, c2a: seq<Key>)
      requires Valid() && g in graphs && |c2a| == |cs| && forall j | 0 <= j < |c2a| :: c2a[j] in agents
      modifies this`agents, this`graphs
      ensures State() == EnterAll(old(State()), g, cs, c2a)
    {
      hide EnterAll, Ordered;
      EnterNone(State(), g, cs, c2a[..0]);
      for j := 0 to |c2a|
        invariant agents.Keys == old(agents.Keys) && g in graphs
        invariant State() == EnterAll(old(State()), g, cs, c2a[..j])
      {
        EnterAllSnoc(old(State()), g, cs, c2a, j);
        var a, t := c2a[j], TaskId(g, cs[j].0);
        graphs := graphs[g := graphs[g].(placement := graphs[g].placement[t := a])];
        agents := agents[a := agents[a].(tasks := agents[a].tasks[t := cs[j].1])];
      }
      assert c2a[..|c2a|] == c2a;
    }

    /** _try_dequeue. */
    method TryDequeue(g: Key) returns (ok: bool)
      requires Valid() && g in graphs && graphs[g].containers.Some?
      modifies this`agents, this`graphs
      ensures Valid()
      ensures var r := MasterState.TryDequeue(old(State()), g);
        ok == r.Some? && State() == if ok then r.value else old(State())
    {
      hide Ordered, EnterAll, SubtractAll, PlaceAll, Assign;
      var cs := graphs[g].containers.value;
      ghost var start := State();
      var c2a; ghost var chosen;
      c2a, chosen := TakeReleased(cs);
      SubtractAllIsAssign(start, cs);
      TwoPassesPlace(start, g, cs);
      ok := |c2a| == |cs|;
      if !ok {
        RestoringIsExact(Released(start), Needs(cs));
        RestoreReleased(c2a, cs, chosen, Released(start));
        SameReleased(start, State());
        return;
      }
      ghost var taken := SubtractAll(start, cs).value;
      BothReleasedOnly(start.agents, agents, taken.0.agents);
      SameReleased(State(), taken.0);
      assert c2a == PlacesOf(order, chosen) == taken.1;
      Enter(g, cs, c2a);
    }

    /** _dequeue. */
    method Dequeue() returns (n: nat)
      requires Valid() && ToposKnown(State())
      modifies this
      ensures Valid() && ToposKnown(State()) && State() == MasterState.Dequeue(old(State()))
      ensures n == old(|queue|) - |queue|
    {
      hide Ordered, ToposKnown, MasterState.TryDequeue;
      n := 0;
      while queue != []
        invariant Valid() && ToposKnown(State()) && n == old(|queue|) - |queue|
        invariant MasterState.Dequeue(State()) == MasterState.Dequeue(old(State()))
        decreases |queue|
      {
        var g := queue[0];
        QueuePops(State(), g);
        if g in graphs {
          var ok := TryDequeue(g);
          if !ok {
            return;
          }
        }
        queue := queue[1..];
        n := n + 1;
      }
    }

    // ---- Handlers --------------------------------------------------------------------------

    /** _insert_agent. */
    method InsertAgent()
      requires Valid() && nextAgent !in agents
      modifies this
      ensures Valid() && State() == Do(old(State()), Connect)
    {
      AppendOrdered(State(), nextAgent, Agent(None, None, map[]));
      agents := agents[nextAgent := Agent(None, None, map[])];
      order := order + [nextAgent];
      nextAgent := nextAgent + 1;
    }

    /** _insert_graph. */
    method InsertGraph()
      requires Valid()
      modifies this
      ensures Valid() && State() == Do(old(State()), Submit)
    {
      graphs := graphs[nextGraph := Graph(None, [], map[])];
      nextGraph := nextGraph + 1;
    }

    /** _on_resource. */
    method OnResource(a: Key, r: Resource)
      requires Valid() && ToposKnown(State()) && (a in agents ==> Enabled(State(), Event.OnResource(a, r)))
      modifies this
      ensures Valid() && ToposKnown(State()) && State() == Do(old(State()), Event.OnResource(a, r))
    {
      if a in agents {
        agents := agents[a := agents[a].(resource := Some(r), released := Some(r))];
      }
      var n := Dequeue();
    }

    /** _remove_graph. */
    method RemoveGraph(g: Key, fits: bool)
      requires Valid() && ToposKnown(State())
      modifies this
      ensures Valid() && ToposKnown(State()) && State() == MasterState.RemoveGraph(old(State()), g, fits)
    {
      if g in graphs {
        ghost var p := graphs[g].placement;
        kills := kills + set t | t in p && p[t] in agents && t in agents[p[t]].tasks :: (p[t], t);
        solutions := solutions + [Solution(g, graphs[g].infos, fits)];
        graphs := graphs - {g};
      }
    }

    /** _on_topology, with _enqueue. */
    method OnTopology(g: Key, cs: Containers)
      requires Valid() && ToposKnown(State()) && (g in graphs ==> Enabled(State(), Event.OnTopology(g, cs)))
      modifies this
      ensures Valid() && ToposKnown(State()) && State() == Do(old(State()), Event.OnTopology(g, cs))
    {
      if g !in graphs {
        return;
      }
      graphs := graphs[g := Graph(Some(cs), [], graphs[g].placement)];
      ghost var entered := State();
      var ok := TryEnqueue(cs);
      if !ok {
        RemoveGraph(g, false);
        return;
      }
      queue := queue + [g];
      var n := Dequeue();
    }

    /** Agent::remove, and Graph::update. */
    method Update(a: Key, info: TaskInfo)
      requires a in agents && info.task in agents[a].tasks && agents[a].released.Some?
      modifies this`agents, this`graphs
      ensures State() == Book(old(State()), a, info)
    {
      hide Plus;
      var t := info.task;
      agents := agents[a := agents[a].(
        released := Some(Plus(agents[a].released.value, agents[a].tasks[t])), tasks := agents[a].tasks - {t})];
      if t.graph in graphs && t in graphs[t.graph].placement {
        graphs := graphs[t.graph := graphs[t.graph].(
          placement := graphs[t.graph].placement - {t}, infos := graphs[t.graph].infos + [info])];
      }
    }

    /** _on_taskinfo. */
    method OnTaskInfo(a: Key, info: TaskInfo)
      requires Valid() && ToposKnown(State())
      requires if a in agents then Enabled(State(), Event.OnTaskInfo(a, info)) && agents[a].released.Some?
               else Stale(State(), Event.OnTaskInfo(a, info))
      modifies this
      ensures Valid() && ToposKnown(State()) && State() == Do(old(State()), Event.OnTaskInfo(a, info))
    {
      hide MasterState.Dequeue, Plus, MasterState.RemoveGraph, Distinct;
      var g := info.task.graph;
      if a in agents {
        Update(a, info);
      }
      if g in graphs && (info.error || |graphs[g].placement| == 0) {
        RemoveGraph(g, true);
      }
      var n := Dequeue();
    }

    /** _remove_agent: the graphs of all its tasks end, in the order in which the tasks are found. */
    method RemoveAgent(a: Key, ts: seq<TaskId>)
      requires Valid() && ToposKnown(State()) && (a in agents ==> Enabled(State(), AgentLost(a, ts)))
      modifies this
      ensures Valid() && ToposKnown(State()) && State() == Do(old(State()), AgentLost(a, ts))
    {
      hide ToposKnown, MasterState.RemoveGraph;
      if a !in agents {
        return;
      }
      assert ts[0..] == ts;
      for i := 0 to |ts|
        invariant Valid() && ToposKnown(State()) && agents == old(agents) && order == old(order)
        invariant RemoveGraphs(State(), ts[i..]) == RemoveGraphs(old(State()), ts)
      {
        assert ts[i..][1..] == ts[i + 1..] && ts[i..][0] == ts[i];
        RemoveGraph(ts[i].graph, true);
      }
      assert ts[|ts|..] == [];
      WithoutOrdered(State(), a);
      AgentsForgotten(State(), a);
      agents := agents - {a};
      order := Without(order, a);
    }
  }

  lemma AgentsForgotten(m: Master, a: Key)
    ensures ToposKnown(m.(agents := m.agents - {a}, order := Without(m.order, a))) == ToposKnown(m)
  {
  }

  /** Graphs that wait have sent their topology. */
  ghost predicate ToposKnown(m: Master) { forall g | g in m.queue && g in m.graphs :: m.graphs[g].containers.Some? }

  /** Starting a graph does not look at the queue, and changes no topology. */
  lemma {:induction false} PlaceAllQueue(m: Master, g: Key, cs: Containers, q: seq<Key>)
    requires Ordered(m) && g in m.graphs
    ensures Ordered(m.(queue := q))
    ensures var r, s := PlaceAll(m, g, cs), PlaceAll(m.(queue := q), g, cs);
      && r.Some? == s.Some?
      && (r.Some? ==> s.value == r.value.(queue := q))
      && (r.Some? ==> forall h | h in m.graphs :: h in r.value.graphs && r.value.graphs[h].containers == m.graphs[h].containers)
    decreases |cs|
  {
    hide Ordered, Best;
    OrderedQueue(m, q);
    if cs != [] && Chosen(m, cs[0].1).Some? {
      var a := Chosen(m, cs[0].1).value;
      PlaceOneOrdered(m, g, cs[0], a);
      assert Released(m.(queue := q)) == Released(m);
      assert PlaceOne(m.(queue := q), g, cs[0], a) == PlaceOne(m, g, cs[0], a).(queue := q);
      PlaceAllQueue(PlaceOne(m, g, cs[0], a), g, cs[1..], q);
    } else {
      assert Released(m.(queue := q)) == Released(m);
    }
  }

  lemma OrderedQueue(m: Master, q: seq<Key>)
    requires Ordered(m)
    ensures Ordered(m.(queue := q))
  {
  }

  lemma QueuePops(m: Master, g: Key)
    requires Ordered(m) && m.queue != [] && g == m.queue[0] && ToposKnown(m)
    ensures var rest := m.queue[1..];
      if g in m.graphs then
        && m.graphs[g].containers.Some?
        && match MasterState.TryDequeue(m, g)
           case None => MasterState.Dequeue(m) == m
           case Some(r) => Ordered(r.(queue := rest)) && MasterState.Dequeue(m) == MasterState.Dequeue(r.(queue := rest))
                           && ToposKnown(r.(queue := rest))
      else Ordered(m.(queue := rest)) && MasterState.Dequeue(m) == MasterState.Dequeue(m.(queue := rest)) && ToposKnown(m.(queue := rest))
  {
    hide Ordered, PlaceAll;
    var rest := m.queue[1..];
    OrderedQueue(m, rest);
    assert m.queue[0] in m.queue && forall x | x in rest :: x in m.queue;
    if g in m.graphs {
      PlaceAllQueue(m, g, m.graphs[g].containers.value, rest);
    }
  }

  lemma BothReleasedOnly(x: map<Key, Agent>, y: map<Key, Agent>, z: map<Key, Agent>)
    requires ReleasedOnly(x, y) && ReleasedOnly(x, z)
    ensures ReleasedOnly(y, z)
  {
  }

  lemma EnterNone(m: Master, g: Key, cs: Containers, places: seq<Key>)
    requires g in m.graphs && places == []
    ensures EnterAll(m, g, cs, places) == m
  {
  }
}
