/**
 Placing the containers of a graph on the agents: greedy, container by container, on a smallest
 agent that is large enough.
 */
module Scheduler {
  import opened Options

  type Key = nat

  // ---- Resources ---------------------------------------------------------------------------

  datatype Resource = Resource(cpus: nat, memory: nat, space: nat)

  const NO_RESOURCE := Resource(0, 0, 0)

  /** Comparisons hold in all components at once: neither a < b nor a >= b may be true. */
  predicate Less(a: Resource, b: Resource) { a.cpus < b.cpus && a.memory < b.memory && a.space < b.space }

  predicate Covers(a: Resource, b: Resource) { a.cpus >= b.cpus && a.memory >= b.memory && a.space >= b.space }

  function Plus(a: Resource, b: Resource): Resource {
    Resource(a.cpus + b.cpus, a.memory + b.memory, a.space + b.space)
  }

  /** operator -=, where it does not throw. */
  function Minus(a: Resource, b: Resource): Resource
    requires Covers(a, b)
  {
    Resource(a.cpus - b.cpus, a.memory - b.memory, a.space - b.space)
  }

  // ---- Choosing an agent -------------------------------------------------------------------

  /** The agents in the order of iteration, with what they have; None before they reported it. */
  type Pool = seq<Option<Resource>>

  predicate Fits(pool: Pool, i: nat, need: Resource) {
    i < |pool| && pool[i].Some? && Covers(pool[i].value, need)
  }

  /** What the loop over the first n agents chooses. */
  function Best(pool: Pool, need: Resource, n: nat): (best: Option<nat>)
    requires n <= |pool|
    ensures best.Some? ==> best.value < n && Fits(pool, best.value, need)
  {
    if n == 0 then None
    else
      var best := Best(pool, need, n - 1);
      if Fits(pool, n - 1, need) && (best.None? || Less(pool[n - 1].value, pool[best.value].value)) then Some(n - 1)
      else best
  }

  /** An agent is chosen if any fits, and no agent that fits is smaller in every component. */
  lemma {:induction false} BestIsSmallest(pool: Pool, need: Resource, n: nat, i: nat)
    requires n <= |pool| && i < n && Fits(pool, i, need)
    ensures var best := Best(pool, need, n);
      best.Some? && !Less(pool[i].value, pool[best.value].value)
  {
    if i < n - 1 {
      BestIsSmallest(pool, need, n - 1, i);
    }
  }

  // ---- Assigning all containers ------------------------------------------------------------

  /** The agents chosen for the first containers, as many as find one, and what is left in the pool. */
  function Assign(pool: Pool, needs: seq<Resource>): (r: (seq<nat>, Pool))
    ensures |r.0| <= |needs| && |r.1| == |pool|
    ensures forall j | 0 <= j < |r.0| :: r.0[j] < |pool| && pool[r.0[j]].Some?
    ensures forall i | 0 <= i < |pool| :: pool[i].Some? == r.1[i].Some?
    decreases |needs|
  {
    if needs == [] then ([], pool)
    else
      match Best(pool, needs[0], |pool|)
      case None => ([], pool)
      case Some(b) =>
        var (chosen, left) := Assign(pool[b := Some(Minus(pool[b].value, needs[0]))], needs[1..]);
        ([b] + chosen, left)
  }

  predicate Assignable(pool: Pool, needs: seq<Resource>) { |Assign(pool, needs).0| == |needs| }

  /** What the containers on agent i take together. */
  function Taken(chosen: seq<nat>, needs: seq<Resource>, i: nat): Resource
    requires |chosen| <= |needs|
    decreases |chosen|
  {
    if chosen == [] then NO_RESOURCE
    else Plus(if chosen[0] == i then needs[0] else NO_RESOURCE, Taken(chosen[1..], needs[1..], i))
  }

  /** One container: its agent, the pool without what it takes, and how the rest goes on. */
  lemma AssignStep(pool: Pool, needs: seq<Resource>) returns (b: nat, rest: Pool)
    requires needs != [] && Best(pool, needs[0], |pool|).Some?
    ensures b < |pool| && pool[b].Some? && Covers(pool[b].value, needs[0])
    ensures rest == pool[b := Some(Minus(pool[b].value, needs[0]))]
    ensures Plus(rest[b].value, needs[0]) == pool[b].value
    ensures Assign(pool, needs) == ([b] + Assign(rest, needs[1..]).0, Assign(rest, needs[1..]).1)
  {
    hide Best;
    b := Best(pool, needs[0], |pool|).value;
    rest := pool[b := Some(Minus(pool[b].value, needs[0]))];
  }

  lemma AssignStops(pool: Pool, needs: seq<Resource>)
    requires needs == [] || Best(pool, needs[0], |pool|).None?
    ensures Assign(pool, needs) == ([], pool)
  {
    hide Best;
  }

  /** Every agent keeps what was not taken from it: nothing is lost and nothing is overcommitted. */
  lemma {:induction false} AssignConserves(pool: Pool, needs: seq<Resource>, i: nat)
    requires i < |pool| && pool[i].Some?
    ensures var (chosen, left) := Assign(pool, needs);
      Plus(left[i].value, Taken(chosen, needs, i)) == pool[i].value
    decreases |needs|
  {
    hide Best, Assign, Minus;
    if needs == [] || Best(pool, needs[0], |pool|).None? {
      AssignStops(pool, needs);
    } else {
      var b, rest := AssignStep(pool, needs);
      var (chosen, left) := Assign(rest, needs[1..]);
      AssignConserves(rest, needs[1..], i);
      TakenStep(b, chosen, needs, i);
      hide Plus, Taken;
      PlusSwaps(left[i].value, Taken(chosen, needs[1..], i), if b == i then needs[0] else NO_RESOURCE);
    }
  }

  lemma TakenStep(b: nat, chosen: seq<nat>, needs: seq<Resource>, i: nat)
    requires |chosen| < |needs|
    ensures Taken([b] + chosen, needs, i) == Plus(if b == i then needs[0] else NO_RESOURCE, Taken(chosen, needs[1..], i))
  {
    assert ([b] + chosen)[1..] == chosen;
  }

  lemma PlusSwaps(a: Resource, b: Resource, c: Resource)
    ensures Plus(a, Plus(c, b)) == Plus(Plus(a, b), c) && Plus(a, NO_RESOURCE) == a
  {
  }

  /** An agent without a resource is never touched. */
  lemma {:induction false} AssignSkips(pool: Pool, needs: seq<Resource>, i: nat)
    requires i < |pool| && pool[i].None?
    ensures Assign(pool, needs).1[i].None?
    decreases |needs|
  {
  }

  // ---- The loops ---------------------------------------------------------------------------

  /** The inner loop of both schedulers. */
  method FindBest(pool: Pool, need: Resource) returns (best: Option<nat>)
    ensures best == Best(pool, need, |pool|)
  {
    best := None;
    for i := 0 to |pool|
      invariant best == Best(pool, need, i)
    {
      if pool[i].Some? && Covers(pool[i].value, need) {
        if best.None? || Less(pool[i].value, pool[best.value].value) {
          best := Some(i);
        }
      }
    }
  }

  /** Giving back what was assigned. */
  function Restored(left: Pool, chosen: seq<nat>, needs: seq<Resource>): Pool
    requires |chosen| <= |needs| && forall j | 0 <= j < |chosen| :: chosen[j] < |left| && left[chosen[j]].Some?
    decreases |chosen|
  {
    if chosen == [] then left
    else Restored(left[chosen[0] := Some(Plus(left[chosen[0]].value, needs[0]))], chosen[1..], needs[1..])
  }

  /** After giving back each agent has what it has left and what was taken from it. */
  lemma {:induction false} RestoredIs(left: Pool, chosen: seq<nat>, needs: seq<Resource>, i: nat)
    requires |chosen| <= |needs| && forall j | 0 <= j < |chosen| :: chosen[j] < |left| && left[chosen[j]].Some?
    requires i < |left|
    ensures var r := Restored(left, chosen, needs);
      && |r| == |left| && r[i].Some? == left[i].Some?
      && (left[i].Some? ==> r[i].value == Plus(left[i].value, Taken(chosen, needs, i)))
    decreases |chosen|
  {
    hide Plus;
    if left[i].Some? && chosen == [] {
      PlusRegroups(left[i].value, NO_RESOURCE, NO_RESOURCE);
    }
    if chosen != [] {
      var next := left[chosen[0] := Some(Plus(left[chosen[0]].value, needs[0]))];
      forall j | 0 <= j < |chosen[1..]| ensures chosen[1..][j] < |next| && next[chosen[1..][j]].Some? {
        assert chosen[1..][j] == chosen[j + 1];
      }
      RestoredIs(next, chosen[1..], needs[1..], i);
      if left[i].Some? {
        PlusRegroups(left[i].value, if chosen[0] == i then needs[0] else NO_RESOURCE, Taken(chosen[1..], needs[1..], i));
      }
    }
  }

  lemma PlusRegroups(a: Resource, b: Resource, c: Resource)
    ensures Plus(Plus(a, b), c) == Plus(a, Plus(b, c)) && Plus(a, NO_RESOURCE) == a && Plus(NO_RESOURCE, c) == c
  {
  }

  /** Trying and giving back leaves every agent as it was, whether or not all containers found one. */
  lemma RestoringIsExact(pool: Pool, needs: seq<Resource>)
    ensures var (chosen, left) := Assign(pool, needs); Restored(left, chosen, needs) == pool
  {
    var (chosen, left) := Assign(pool, needs);
    var r := Restored(left, chosen, needs);
    if |pool| > 0 {
      RestoredIs(left, chosen, needs, 0);
    } else {
      EmptyPool(pool, needs);
    }
    forall i | 0 <= i < |pool| ensures |r| == |pool| && r[i] == pool[i] {
      RestoredIs(left, chosen, needs, i);
      if pool[i].Some? {
        AssignConserves(pool, needs, i);
      } else {
        AssignSkips(pool, needs, i);
      }
    }
    assert r == pool;
  }

  lemma EmptyPool(pool: Pool, needs: seq<Resource>)
    requires pool == []
    ensures Assign(pool, needs) == ([], pool)
  {
  }
}
