/**
 The lists of one agent, as its handlers change them. Each method is proved to take the step that
 Rendezvous describes.
 */
module RendezvousNode {
  import opened Options
  import opened Topologies
  import R = Rendezvous

  class Node {
    var tasks: map<R.TaskId, R.Task>
    var frontiers: seq<R.Frontier>

    ghost function State(): R.Agent
      reads this
    {
      R.Agent(tasks, frontiers)
    }

    constructor ()
      ensures State() == R.Agent(map[], [])
    {
      tasks, frontiers := map[], [];
    }

    /** The order of iteration over the tasks. */
    ghost predicate Lists(order: seq<R.TaskId>)
      reads this
    {
      (forall k | k in order :: k in tasks) && forall k | k in tasks :: k in order
    }

    /** find_if. */
    method Find(f: R.Frontier, order: seq<R.TaskId>) returns (found: Option<R.TaskId>)
      requires Lists(order)
      ensures R.Finds(State(), f, found)
    {
      for i := 0 to |order|
        invariant forall k | k in order[..i] :: k in tasks && !R.Matches(tasks[k], f)
      {
        var k := order[i];
        assert k in order;
        assert order[..i + 1] == order[..i] + [k];
        if R.Matches(tasks[k], f) {
          return Some(k);
        }
      }
      assert order[..|order|] == order;
      found := None;
    }

    /** _insert_frontier: false where the task found has no hatchery. A task that becomes ready is deployed,
        or removed where that fails. */
    method InsertFrontier(f: R.Frontier, order: seq<R.TaskId>, deploys: bool)
      returns (ok: bool, ghost found: Option<R.TaskId>)
      requires Lists(order)
      modifies this
      ensures R.Finds(old(State()), f, found)
      ensures ok == R.InsertFrontier(old(State()), f, found, deploys).Some?
      ensures State() == if ok then R.InsertFrontier(old(State()), f, found, deploys).value else old(State())
    {
      var at := Find(f, order);
      found, ok := at, true;
      if at == None {
        frontiers := frontiers + [f];
        return;
      }
      var t := tasks[at.value];
      if t.handle.Executor? {
        return false, at;
      }
      t := t.(handle := t.handle.(frontiers := t.handle.frontiers + [f]));
      tasks := tasks[at.value := t];
      if R.Ready(t.handle) {
        if deploys {
          tasks := tasks[at.value := R.Deployed(t)];
        } else {
          RemoveTask(at.value);
        }
      }
    }

    /** splice_frontiers: `parted` is what std::partition makes of the waiting frontiers. Those that match
        go to the front of the list of the task, the others stay. */
    method Splice(t: R.Task, parted: seq<R.Frontier>) returns (u: R.Task, ghost taken: seq<R.Frontier>)
      requires t.handle.Hatchery? && multiset(parted) == multiset(frontiers)
      requires forall i, j | 0 <= i < j < |parted| && R.Matches(t, parted[j]) :: R.Matches(t, parted[i])
      modifies this`frontiers
      ensures R.IsSplit(t, old(frontiers), taken, frontiers)
      ensures u == R.Spliced(t, taken)
    {
      var n := 0;
      while n < |parted| && R.Matches(t, parted[n])
        invariant n <= |parted| && forall i | 0 <= i < n :: R.Matches(t, parted[i])
      {
        n := n + 1;
      }
      taken := parted[..n];
      assert parted == parted[..n] + parted[n..];
      u := t.(handle := t.handle.(frontiers := parted[..n] + t.handle.frontiers));
      frontiers := parted[n..];
    }

    /** _insert_task: false where the task is ready and cannot be deployed. */
    method InsertTask(k: R.TaskId, t: R.Task, parted: seq<R.Frontier>, deploys: bool)
      returns (ok: bool, ghost taken: seq<R.Frontier>)
      requires t.handle.Hatchery? && multiset(parted) == multiset(frontiers)
      requires forall i, j | 0 <= i < j < |parted| && R.Matches(t, parted[j]) :: R.Matches(t, parted[i])
      modifies this
      ensures R.IsSplit(t, old(frontiers), taken, frontiers)
      ensures State() == R.InsertTask(old(State()), k, t, taken, frontiers, deploys)
      ensures ok <==> R.Ready(R.Spliced(t, taken).handle) ==> deploys
    {
      var u;
      u, taken := Splice(t, parted);
      ok := true;
      if R.Ready(u.handle) {
        if !deploys {
          return false, taken;
        }
        u := R.Deployed(u);
      }
      tasks := tasks[k := u];
    }

    /** _remove_task. */
    method RemoveTask(k: R.TaskId)
      modifies this`tasks
      ensures State() == old(State()).(tasks := old(tasks) - {k})
    {
      tasks := tasks - {k};
    }
  }

  /** The constructor of a task: a frontier, and a packet, for each incoming stream. */
  method NewTask(t: Topology, order: seq<Id>) returns (task: R.Task)
    requires Enumerates(order, t.streams.Keys)
    ensures task == R.Task(t, R.Hatchery(NumInter(t), R.Incoming(t, order)))
  {
    var n := CountInter(t, order);
    var fs: seq<R.Frontier> := [];
    assert order[0..] == order;
    for i := 0 to |order|
      invariant fs + R.Incoming(t, order[i..]) == R.Incoming(t, order)
    {
      assert order[i..][1..] == order[i + 1..];
      if HasInterIn(t, order[i]) {
        fs := fs + [R.Frontier(t.graph, order[i])];
      }
    }
    assert fs + [] == fs;
    task := R.Task(t, R.Hatchery(n, fs));
  }
}
