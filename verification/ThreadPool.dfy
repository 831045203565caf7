/**
 The thread pool: workers taking jobs from one queue, and a shutdown that posts one token for each worker
 and joins them. What happens under the pool's lock is one step; running a job is another.
 */
module ThreadPool {

  // ---- The machine -------------------------------------------------------------------------

  datatype Signal = Standard | Shutdown

  datatype Job = Job(id: nat, signal: Signal)

  datatype Worker = Waiting | Busy(job: Job) | Stopped

  datatype Done = Done(worker: nat, job: Job)

  /** Where the caller of shutdown is: before it, with `i` tokens posted, with `k` workers joined, or back. */
  datatype Master = Outside | Posting(i: nat) | Joining(k: nat) | Returned

  /** `posted` are the jobs ever queued and `ran` the jobs ended, in order. `begun` and `last` are the
      numbers of jobs queued when shutdown began and when it had posted its last token. */
  datatype State = State(queue: seq<Job>, workers: seq<Worker>, master: Master,
                         posted: seq<Job>, ran: seq<Done>, begun: nat, last: nat)

  datatype Action = Async | Begin | Post | Take(w: nat) | Finish(w: nat) | Join

  function Queued(s: State, signal: Signal): State {
    var job := Job(|s.posted|, signal);
    s.(queue := s.queue + [job], posted := s.posted + [job])
  }

  /** One step, or none when it is not enabled. Without workers async runs its job in the caller. */
  function Do(s: State, a: Action): State {
    match a
    case Async => if s.workers == [] || s.master.Returned? then s else Queued(s, Standard)
    case Begin =>
      if !s.master.Outside? then s
      else s.(master := if s.workers == [] then Joining(0) else Posting(0), begun := |s.posted|, last := |s.posted|)
    case Post =>
      if !s.master.Posting? then s
      else
        var r := Queued(s, Shutdown);
        var i := s.master.i + 1;
        r.(master := if i < |s.workers| then Posting(i) else Joining(0), last := |r.posted|)
    case Take(w) =>
      if w < |s.workers| && s.workers[w].Waiting? && s.queue != [] then
        s.(workers := s.workers[w := Busy(s.queue[0])], queue := s.queue[1..])
      else s
    case Finish(w) =>
      if w < |s.workers| && s.workers[w].Busy? then
        var job := s.workers[w].job;
        s.(workers := s.workers[w := if job.signal.Shutdown? then Stopped else Waiting], ran := s.ran + [Done(w, job)])
      else s
    case Join =>
      if !s.master.Joining? then s
      else if s.master.k == |s.workers| then s.(master := Returned)
      else if s.master.k < |s.workers| && s.workers[s.master.k].Stopped? then s.(master := Joining(s.master.k + 1))
      else s
  }

  function Run(s: State, schedule: seq<Action>): State
    decreases |schedule|
  {
    if schedule == [] then s else Run(Do(s, schedule[0]), schedule[1..])
  }

  predicate Spawned(s: State) {
    && s.queue == [] && s.posted == [] && s.ran == [] && s.master.Outside? && s.begun == 0 && s.last == 0
    && forall w :: 0 <= w < |s.workers| ==> s.workers[w].Waiting?
  }

  // ---- Counting ----------------------------------------------------------------------------

  function Tokens(q: seq<Job>): nat {
    if q == [] then 0 else (if q[0].signal.Shutdown? then 1 else 0) + Tokens(q[1..])
  }

  /** The workers that have a token, or have had it. */
  function Retired(ws: seq<Worker>): nat {
    if ws == [] then 0 else (if HasToken(ws[0]) then 1 else 0) + Retired(ws[1..])
  }

  predicate HasToken(w: Worker) { w.Stopped? || (w.Busy? && w.job.signal.Shutdown?) }

  function InHand(w: Worker): multiset<Job> { if w.Busy? then multiset{w.job} else multiset{} }

  function Held(ws: seq<Worker>): multiset<Job> {
    if ws == [] then multiset{} else InHand(ws[0]) + Held(ws[1..])
  }

  function Ended(ran: seq<Done>): multiset<Job> {
    if ran == [] then multiset{} else Ended(ran[..|ran| - 1]) + multiset{ran[|ran| - 1].job}
  }

  /** The tokens worker w has taken and ended with. */
  function TokensOf(ran: seq<Done>, w: nat): nat {
    if ran == [] then 0
    else
      var d := ran[|ran| - 1];
      TokensOf(ran[..|ran| - 1], w) + if d.worker == w && d.job.signal.Shutdown? then 1 else 0
  }

  lemma {:induction false} TokensAppend(q: seq<Job>, job: Job)
    ensures Tokens(q + [job]) == Tokens(q) + if job.signal.Shutdown? then 1 else 0
  {
    if q == [] { assert q + [job] == [job]; }
    else {
      assert (q + [job])[1..] == q[1..] + [job];
      TokensAppend(q[1..], job);
    }
  }

  lemma {:induction false} TokenCounts(q: seq<Job>, i: nat)
    requires i < |q| && q[i].signal.Shutdown?
    ensures Tokens(q) > 0
  {
    if i > 0 { TokenCounts(q[1..], i - 1); }
  }

  lemma {:induction false} NoTokens(q: seq<Job>)
    requires forall i :: 0 <= i < |q| ==> q[i].signal.Standard?
    ensures Tokens(q) == 0
  {
    if q != [] { NoTokens(q[1..]); }
  }

  lemma Regroup(a: multiset<Job>, b: multiset<Job>, c: multiset<Job>, x: multiset<Job>, y: multiset<Job>)
    requires b + x == c + y
    ensures (a + b) + x == (a + c) + y
  {
    assert (a + b) + x == a + (b + x) && (a + c) + y == a + (c + y);
  }

  lemma {:induction false} HeldChanges(ws: seq<Worker>, w: nat, v: Worker)
    requires w < |ws|
    ensures Held(ws[w := v]) + InHand(ws[w]) == Held(ws) + InHand(v)
  {
    if w == 0 {
      assert ws[0 := v][1..] == ws[1..];
    } else {
      assert ws[w := v][1..] == ws[1..][w - 1 := v];
      HeldChanges(ws[1..], w - 1, v);
      Regroup(InHand(ws[0]), Held(ws[1..][w - 1 := v]), Held(ws[1..]), InHand(ws[w]), InHand(v));
    }
  }

  lemma {:induction false} RetiredChanges(ws: seq<Worker>, w: nat, v: Worker)
    requires w < |ws|
    ensures Retired(ws[w := v]) + (if HasToken(ws[w]) then 1 else 0) == Retired(ws) + if HasToken(v) then 1 else 0
  {
    if w == 0 {
      assert ws[0 := v][1..] == ws[1..];
    } else {
      assert ws[w := v][1..] == ws[1..][w - 1 := v];
      RetiredChanges(ws[1..], w - 1, v);
    }
  }

  lemma {:induction false} AllRetired(ws: seq<Worker>)
    ensures Retired(ws) <= |ws|
    ensures Retired(ws) == |ws| ==> forall w :: 0 <= w < |ws| ==> HasToken(ws[w])
  {
    if ws != [] {
      AllRetired(ws[1..]);
      if Retired(ws) == |ws| {
        forall w | 0 < w < |ws| ensures HasToken(ws[w]) { assert ws[w] == ws[1..][w - 1]; }
      }
    }
  }

  lemma {:induction false} AllStopped(ws: seq<Worker>)
    requires forall w :: 0 <= w < |ws| ==> ws[w].Stopped?
    ensures Held(ws) == multiset{} && Retired(ws) == |ws|
  {
    if ws != [] { AllStopped(ws[1..]); }
  }

  lemma {:induction false} AllWaiting(ws: seq<Worker>)
    requires forall w :: 0 <= w < |ws| ==> ws[w].Waiting?
    ensures Held(ws) == multiset{} && Retired(ws) == 0
  {
    if ws != [] { AllWaiting(ws[1..]); }
  }

  // ---- The invariant -----------------------------------------------------------------------

  function TakenCount(s: State): int { |s.posted| - |s.queue| }

  /** The queue is the end of what was posted. */
  predicate Placed(posted: seq<Job>, queue: seq<Job>) {
    && |queue| <= |posted| && queue == posted[|posted| - |queue|..]
    && (forall i :: 0 <= i < |posted| ==> posted[i].id == i)
  }

  /** The rest is in hand or ended, each job once. */
  predicate EachOnce(taken: seq<Job>, workers: seq<Worker>, ran: seq<Done>) {
    Held(workers) + Ended(ran) == multiset(taken)
  }

  ghost predicate JobsKept(s: State) {
    && Placed(s.posted, s.queue)
    && EachOnce(s.posted[..TakenCount(s)], s.workers, s.ran)
    && (s.workers == [] ==> s.posted == [])
  }

  /** A worker has had a token exactly if it has stopped, and then one. */
  predicate OneTokenEach(workers: seq<Worker>, ran: seq<Done>) {
    forall w :: 0 <= w < |workers| ==> TokensOf(ran, w) == if workers[w].Stopped? then 1 else 0
  }

  function TokensPosted(s: State): nat {
    match s.master
    case Outside => 0
    case Posting(i) => i
    case Joining(_) => |s.workers|
    case Returned => |s.workers|
  }

  /** Every token posted is in the queue or with the one worker it stops. */
  ghost predicate TokensKept(s: State) {
    && Tokens(s.queue) + Retired(s.workers) == TokensPosted(s)
    && OneTokenEach(s.workers, s.ran)
  }

  ghost predicate MasterKept(s: State) {
    && s.begun <= s.last <= |s.posted|
    && (match s.master
        case Outside => true
        case Posting(i) => i < |s.workers|
        case Joining(k) =>
          && k <= |s.workers|
          && (forall w :: 0 <= w < k ==> s.workers[w].Stopped?)
        case Returned => forall w :: 0 <= w < |s.workers| ==> s.workers[w].Stopped?)
    && (s.master.Joining? || s.master.Returned? ==>
          && TakenCount(s) <= s.last
          && (s.workers != [] ==> s.last > 0 && s.posted[s.last - 1].signal.Shutdown?)
          && (forall i :: s.last <= i < |s.posted| ==> s.posted[i].signal.Standard?))
  }

  ghost predicate Inv(s: State) { JobsKept(s) && TokensKept(s) && MasterKept(s) }

  /** One job more at the end of what was posted, and of the part of it that is queued. */
  lemma PlacedGrows(posted: seq<Job>, queue: seq<Job>, job: Job)
    requires Placed(posted, queue) && job.id == |posted|
    ensures Placed(posted + [job], queue + [job])
    ensures (posted + [job])[..|posted| - |queue|] == posted[..|posted| - |queue|]
  {
  }

  lemma QueuedKeeps(s: State, signal: Signal)
    requires JobsKept(s) && s.workers != []
    ensures JobsKept(Queued(s, signal)) && TakenCount(Queued(s, signal)) == TakenCount(s)
    ensures Tokens(Queued(s, signal).queue) == Tokens(s.queue) + if signal.Shutdown? then 1 else 0
  {
    var job := Job(|s.posted|, signal);
    TokensAppend(s.queue, job);
    PlacedGrows(s.posted, s.queue, job);
    hide Tokens, EachOnce, Placed;
  }

  lemma AsyncKeepsMaster(s: State)
    requires Inv(s) && s.workers != [] && !s.master.Returned?
    ensures MasterKept(Do(s, Async))
  {
    hide TokensKept;
    var r := Do(s, Async);
    assert r.posted == s.posted + [Job(|s.posted|, Standard)] && TakenCount(r) == TakenCount(s);
    hide Do, TakenCount, JobsKept;
  }

  lemma AsyncKeeps(s: State)
    requires Inv(s)
    ensures Inv(Do(s, Async))
  {
    if s.workers != [] && !s.master.Returned? {
      QueuedKeeps(s, Standard);
      AsyncKeepsMaster(s);
      hide Tokens, Held, Ended, Retired, TokensOf, JobsKept, MasterKept, HasToken;
    }
  }

  lemma PostKeepsMaster(s: State)
    requires Inv(s) && s.master.Posting?
    ensures MasterKept(Do(s, Post))
  {
    hide TokensKept, EachOnce;
    var r := Do(s, Post);
    assert r.posted == s.posted + [Job(|s.posted|, Shutdown)] && TakenCount(r) == TakenCount(s);
    hide JobsKept, Placed, TakenCount;
  }

  lemma PostKeeps(s: State)
    requires Inv(s) && s.master.Posting?
    ensures Inv(Do(s, Post))
  {
    hide Tokens, Retired, EachOnce, Placed, OneTokenEach;
    PostKeepsMaster(s);
    QueuedKeeps(s, Shutdown);
    hide MasterKept, Queued;
    assert Do(s, Post) == Queued(s, Shutdown).(master := Do(s, Post).master, last := Do(s, Post).last);
  }

  lemma BeginKeeps(s: State)
    requires Inv(s)
    ensures Inv(Do(s, Begin))
  {
    if s.master.Outside? && s.workers == [] { assert TokensPosted(s) == 0; }
    hide Tokens, EachOnce, Placed, OneTokenEach;
  }

  lemma JoinKeeps(s: State)
    requires Inv(s)
    ensures Inv(Do(s, Join))
  {
    hide Tokens, Retired, EachOnce, Placed, OneTokenEach;
  }

  lemma Commutes(h: multiset<Job>, e: multiset<Job>, j: multiset<Job>)
    ensures (h + j) + e == (h + e) + j == h + (e + j)
  {
  }

  lemma HandAdds(ws: seq<Worker>, w: nat, job: Job)
    requires w < |ws| && ws[w].Waiting?
    ensures Held(ws[w := Busy(job)]) == Held(ws) + multiset{job}
  {
    HeldChanges(ws, w, Busy(job));
    hide Held;
  }

  lemma HandDrops(ws: seq<Worker>, w: nat, v: Worker)
    requires w < |ws| && ws[w].Busy? && !v.Busy?
    ensures Held(ws) == Held(ws[w := v]) + multiset{ws[w].job}
  {
    HeldChanges(ws, w, v);
    hide Held;
  }

  lemma PlacedShrinks(posted: seq<Job>, queue: seq<Job>)
    requires Placed(posted, queue) && queue != []
    ensures var t := |posted| - |queue|;
      && Placed(posted, queue[1..]) && queue[0] == posted[t]
      && multiset(posted[..t + 1]) == multiset(posted[..t]) + multiset{queue[0]}
  {
    var t := |posted| - |queue|;
    assert posted[..t + 1] == posted[..t] + [posted[t]];
  }

  lemma OneMoreTaken(taken: seq<Job>, more: seq<Job>, workers: seq<Worker>, w: nat, job: Job, ran: seq<Done>)
    requires EachOnce(taken, workers, ran) && w < |workers| && workers[w].Waiting?
    requires multiset(more) == multiset(taken) + multiset{job}
    ensures EachOnce(more, workers[w := Busy(job)], ran)
  {
    HandAdds(workers, w, job);
    Commutes(Held(workers), Ended(ran), multiset{job});
    hide Held, Ended;
  }

  lemma TakeKeepsJobs(s: State, w: nat)
    requires JobsKept(s) && w < |s.workers| && s.workers[w].Waiting? && s.queue != []
    ensures JobsKept(Do(s, Take(w)))
  {
    var r, t, job := Do(s, Take(w)), TakenCount(s), s.queue[0];
    assert r == s.(workers := s.workers[w := Busy(job)], queue := s.queue[1..]) && TakenCount(r) == t + 1;
    PlacedShrinks(s.posted, s.queue);
    hide Placed, EachOnce, Do, TakenCount;
    OneMoreTaken(s.posted[..t], s.posted[..t + 1], s.workers, w, job, s.ran);
  }

  /** No worker is left to take a job queued after the last token. */
  lemma TakeIsInTime(s: State, w: nat)
    requires Inv(s) && w < |s.workers| && s.workers[w].Waiting? && s.queue != []
    requires s.master.Joining? || s.master.Returned?
    ensures TakenCount(s) < s.last
  {
    if TakenCount(s) >= s.last { NoTokens(s.queue); }
    AllRetired(s.workers);
    hide Tokens, Held, Ended, Retired, TokensOf;
  }

  lemma TakeKeepsTokens(s: State, w: nat)
    requires TokensKept(s) && w < |s.workers| && s.workers[w].Waiting? && s.queue != []
    ensures TokensKept(Do(s, Take(w)))
  {
    RetiredChanges(s.workers, w, Busy(s.queue[0]));
    assert Tokens(s.queue) == (if s.queue[0].signal.Shutdown? then 1 else 0) + Tokens(s.queue[1..]);
    hide Tokens, Retired, TokensOf;
  }

  lemma TakeKeepsMaster(s: State, w: nat)
    requires Inv(s) && w < |s.workers| && s.workers[w].Waiting? && s.queue != []
    ensures MasterKept(Do(s, Take(w)))
  {
    if s.master.Joining? || s.master.Returned? { TakeIsInTime(s, w); }
    hide JobsKept, TokensKept;
  }

  lemma TakeKeeps(s: State, w: nat)
    requires Inv(s) && w < |s.workers| && s.workers[w].Waiting? && s.queue != []
    ensures Inv(Do(s, Take(w)))
  {
    TakeKeepsJobs(s, w);
    TakeKeepsTokens(s, w);
    TakeKeepsMaster(s, w);
    hide Do, JobsKept, TokensKept, MasterKept;
  }

  lemma FinishKeepsJobs(s: State, w: nat)
    requires JobsKept(s) && w < |s.workers| && s.workers[w].Busy?
    ensures JobsKept(Do(s, Finish(w)))
  {
    var r, j := Do(s, Finish(w)), s.workers[w].job;
    HandDrops(s.workers, w, r.workers[w]);
    assert r.ran[..|r.ran| - 1] == s.ran;
    assert Ended(r.ran) == Ended(s.ran) + multiset{j};
    assert r.workers == s.workers[w := r.workers[w]];
    Commutes(Held(r.workers), Ended(s.ran), multiset{j});
    hide Held, Ended, Placed;
  }

  lemma FinishKeepsTokens(s: State, w: nat)
    requires TokensKept(s) && w < |s.workers| && s.workers[w].Busy?
    ensures TokensKept(Do(s, Finish(w)))
  {
    var r, job := Do(s, Finish(w)), s.workers[w].job;
    RetiredChanges(s.workers, w, r.workers[w]);
    assert r.ran[..|r.ran| - 1] == s.ran;
    forall v: nat ensures TokensOf(r.ran, v) == TokensOf(s.ran, v) + if v == w && job.signal.Shutdown? then 1 else 0 {}
    hide Tokens, Retired, TokensOf;
  }

  lemma FinishKeepsMaster(s: State, w: nat)
    requires MasterKept(s) && w < |s.workers| && s.workers[w].Busy?
    ensures MasterKept(Do(s, Finish(w)))
  {
  }

  lemma FinishKeeps(s: State, w: nat)
    requires Inv(s) && w < |s.workers| && s.workers[w].Busy?
    ensures Inv(Do(s, Finish(w)))
  {
    FinishKeepsJobs(s, w);
    FinishKeepsTokens(s, w);
    FinishKeepsMaster(s, w);
    hide Do, JobsKept, TokensKept, MasterKept;
  }

  lemma DoKeeps(s: State, a: Action)
    requires Inv(s)
    ensures Inv(Do(s, a)) && |Do(s, a).workers| == |s.workers|
  {
    match a
    case Async => AsyncKeeps(s); hide Inv;
    case Begin => BeginKeeps(s); hide Inv;
    case Post => if s.master.Posting? { PostKeeps(s); } hide Inv;
    case Take(w) => if w < |s.workers| && s.workers[w].Waiting? && s.queue != [] { TakeKeeps(s, w); } hide Inv;
    case Finish(w) => if w < |s.workers| && s.workers[w].Busy? { FinishKeeps(s, w); } hide Inv;
    case Join => JoinKeeps(s); hide Inv;
  }

  lemma {:induction false} RunKeeps(s: State, schedule: seq<Action>)
    requires Inv(s)
    ensures Inv(Run(s, schedule)) && |Run(s, schedule).workers| == |s.workers|
    decreases |schedule|
  {
    if schedule != [] {
      DoKeeps(s, schedule[0]);
      RunKeeps(Do(s, schedule[0]), schedule[1..]);
      hide Inv, Do;
    }
  }

  lemma SpawnedIsInv(s: State)
    requires Spawned(s)
    ensures Inv(s)
  {
    AllWaiting(s.workers);
  }

  // ---- When shutdown returns ---------------------------------------------------------------

  lemma WhenReturned(s: State)
    requires Inv(s) && s.master.Returned?
    ensures Ended(s.ran) == multiset(s.posted[..s.last])
    ensures s.queue == s.posted[s.last..]
  {
    AllStopped(s.workers);
    if s.workers != [] && TakenCount(s) < s.last {
      var i := s.last - 1 - TakenCount(s);
      assert s.queue[i] == s.posted[s.last - 1];
      TokenCounts(s.queue, i);
      assert false;
    }
    hide Tokens, Retired, TokensOf, Ended, Held;
  }

  lemma {:induction false} OnceEach(jobs: seq<Job>, n: nat)
    requires n <= |jobs| && forall i :: 0 <= i < |jobs| ==> jobs[i].id == i
    ensures forall i :: 0 <= i < |jobs| ==> multiset(jobs[..n])[jobs[i]] == if i < n then 1 else 0
  {
    if n > 0 {
      OnceEach(jobs, n - 1);
      assert jobs[..n] == jobs[..n - 1] + [jobs[n - 1]];
    }
  }

  /** When shutdown is back, every worker has stopped on a token of its own, every job queued before
      the call has run exactly once, and so has every job queued before its last token; a job queued
      after that one stays in the queue and never ran. */
  lemma ShutdownRunsAllQueued(s: State, schedule: seq<Action>)
    requires Spawned(s)
    ensures var r := Run(s, schedule);
            r.master.Returned? ==>
              && |r.workers| == |s.workers|
              && (forall w :: 0 <= w < |s.workers| ==> r.workers[w].Stopped? && TokensOf(r.ran, w) == 1)
              && r.begun <= r.last <= |r.posted|
              && (forall i :: 0 <= i < |r.posted| ==> Ended(r.ran)[r.posted[i]] == if i < r.last then 1 else 0)
              && r.queue == r.posted[r.last..]
  {
    SpawnedIsInv(s);
    RunKeeps(s, schedule);
    var r := Run(s, schedule);
    hide Run;
    if r.master.Returned? {
      WhenReturned(r);
      OnceEach(r.posted, r.last);
    }
    hide Tokens, Retired, Held, Ended;
  }

  /** A run with one worker, in which a job comes after the only token: it is left in the queue. */
  lemma LateJobIsLeft()
    ensures var start := State([], [Waiting], Outside, [], [], 0, 0);
            var r := Run(start, [Begin, Post, Async, Take(0), Finish(0), Join, Join]);
            && Spawned(start) && r.master.Returned?
            && r.queue == [Job(1, Standard)] && r.ran == [Done(0, Job(0, Shutdown))]
  {
    var s1 := Do(State([], [Waiting], Outside, [], [], 0, 0), Begin);
    var s2 := Do(s1, Post);
    var s3 := Do(s2, Async);
    assert s3.queue == [Job(0, Shutdown), Job(1, Standard)];
    var s4 := Do(s3, Take(0));
    var s5 := Do(s4, Finish(0));
    assert s5.workers == [Stopped] && s5.queue == [Job(1, Standard)];
    assert Do(Do(s5, Join), Join).master.Returned?;
  }

  // ---- Shutdown comes back -----------------------------------------------------------------

  function BusyCount(ws: seq<Worker>): nat {
    if ws == [] then 0 else (if ws[0].Busy? then 1 else 0) + BusyCount(ws[1..])
  }

  lemma {:induction false} BusyChanges(ws: seq<Worker>, w: nat, v: Worker)
    requires w < |ws|
    ensures BusyCount(ws[w := v]) + (if ws[w].Busy? then 1 else 0) == BusyCount(ws) + if v.Busy? then 1 else 0
  {
    if w == 0 { assert ws[0 := v][1..] == ws[1..]; }
    else {
      assert ws[w := v][1..] == ws[1..][w - 1 := v];
      BusyChanges(ws[1..], w - 1, v);
    }
  }

  /** What is left to do: two steps for a queued job, one for a job in hand, one for a worker to join. */
  function Left(s: State): nat
    requires s.master.Joining? ==> s.master.k <= |s.workers|
  {
    2 * |s.queue| + BusyCount(s.workers) + if s.master.Joining? then |s.workers| - s.master.k + 1 else 0
  }

  /** A step of a worker or of the join that did something. */
  predicate Moves(s: State, a: Action) { (a.Take? || a.Finish? || a.Join?) && Do(s, a) != s }

  /** While shutdown joins, some step is always enabled. */
  lemma NeverStuck(s: State) returns (a: Action)
    requires Inv(s) && s.master.Joining?
    ensures Moves(s, a)
  {
    a := Join;
    if s.master.k < |s.workers| && !s.workers[s.master.k].Stopped? {
      var w := s.master.k;
      if s.workers[w].Busy? {
        a := Finish(w);
        assert Do(s, a).workers[w] != s.workers[w];
      } else {
        AllRetired(s.workers);
        assert s.queue != [];
        a := Take(w);
        assert Do(s, a).workers[w] != s.workers[w];
      }
    }
    hide Retired, Held, Ended, TokensOf, JobsKept;
  }

  lemma TakeLowers(s: State, w: nat)
    requires Inv(s) && s.master.Joining? && Moves(s, Take(w))
    ensures Do(s, Take(w)).master == s.master && Left(Do(s, Take(w))) < Left(s)
  {
    hide Inv, BusyCount;
    BusyChanges(s.workers, w, Busy(s.queue[0]));
  }

  lemma FinishLowers(s: State, w: nat)
    requires Inv(s) && s.master.Joining? && Moves(s, Finish(w))
    ensures Do(s, Finish(w)).master == s.master && Left(Do(s, Finish(w))) < Left(s)
  {
    hide Inv, BusyCount;
    BusyChanges(s.workers, w, Do(s, Finish(w)).workers[w]);
  }

  lemma JoinLowers(s: State)
    requires Inv(s) && s.master.Joining? && Moves(s, Join)
    ensures Do(s, Join).master.Joining? || Do(s, Join).master.Returned?
    ensures Left(Do(s, Join)) < Left(s)
  {
    hide Inv, BusyCount;
  }

  lemma MovesLower(s: State, a: Action)
    requires Inv(s) && s.master.Joining? && Moves(s, a)
    ensures Inv(Do(s, a)) && (Do(s, a).master.Joining? || Do(s, a).master.Returned?)
    ensures Left(Do(s, a)) < Left(s)
  {
    DoKeeps(s, a);
    hide Inv, Left, Do;
    match a
    case Take(w) => TakeLowers(s, w);
    case Finish(w) => FinishLowers(s, w);
    case Join => JoinLowers(s);
    case _ =>
  }

  predicate AllMove(s: State, schedule: seq<Action>)
    decreases |schedule|
  {
    schedule == [] || (Moves(s, schedule[0]) && AllMove(Do(s, schedule[0]), schedule[1..]))
  }

  lemma {:induction false} EveryRunEnds(s: State, schedule: seq<Action>)
    requires Inv(s) && s.master.Joining? && AllMove(s, schedule)
    requires forall n :: 0 <= n < |schedule| ==> !Run(s, schedule[..n]).master.Returned?
    ensures |schedule| <= Left(s)
    ensures Run(s, schedule).master.Returned? || exists a :: Moves(Run(s, schedule), a)
    decreases |schedule|
  {
    if schedule == [] {
      var a := NeverStuck(s);
    } else {
      var r := Do(s, schedule[0]);
      MovesLower(s, schedule[0]);
      var rest := schedule[1..];
      forall n | 0 <= n < |rest| ensures !Run(r, rest[..n]).master.Returned? {
        assert schedule[..n + 1][1..] == rest[..n];
      }
      assert rest != [] ==> Run(r, rest[..0]) == r;
      hide Inv, Left, Moves;
      if !r.master.Returned? { EveryRunEnds(r, rest); }
    }
  }

  /** Once the tokens are posted, every run of the workers and the join, whatever its order, ends, and it
      ends nowhere but in the return of shutdown. */
  lemma ShutdownReturns(start: State, before: seq<Action>, schedule: seq<Action>)
    requires Spawned(start) && Run(start, before).master.Joining?
    requires AllMove(Run(start, before), schedule)
    requires forall n :: 0 <= n < |schedule| ==> !Run(Run(start, before), schedule[..n]).master.Returned?
    ensures var s := Run(start, before);
            && s.master.k <= |s.workers|
            && |schedule| <= Left(s)
            && (Run(s, schedule).master.Returned? || exists a :: Moves(Run(s, schedule), a))
  {
    SpawnedIsInv(start);
    RunKeeps(start, before);
    EveryRunEnds(Run(start, before), schedule);
  }

  // ---- Every job handed in -----------------------------------------------------------------

  lemma {:induction false} RunConcat(s: State, a: seq<Action>, b: seq<Action>)
    ensures Run(s, a + b) == Run(Run(s, a), b)
    decreases |a|
  {
    hide Do;
    if a == [] {
      assert a + b == b;
    } else {
      assert (a + b)[1..] == a[1..] + b;
      RunConcat(Do(s, a[0]), a[1..], b);
    }
  }

  /** These jobs were the first to be posted, and before the last token was. */
  predicate InTime(s: State, jobs: seq<Job>) {
    jobs <= s.posted && (s.master.Joining? || s.master.Returned? ==> |jobs| <= s.last)
  }

  lemma StaysInTime(s: State, a: Action, jobs: seq<Job>)
    requires InTime(s, jobs)
    ensures InTime(Do(s, a), jobs)
  {
  }

  lemma {:induction false} RunStaysInTime(s: State, schedule: seq<Action>, jobs: seq<Job>)
    requires InTime(s, jobs)
    ensures InTime(Run(s, schedule), jobs)
    decreases |schedule|
  {
    hide InTime, Do;
    if schedule != [] {
      StaysInTime(s, schedule[0], jobs);
      RunStaysInTime(Do(s, schedule[0]), schedule[1..], jobs);
    }
  }

  /** A job given to async while there are workers and the last token is not posted yet gets a number of its own,
      and when shutdown is back it has run, once. */
  lemma EveryJobHandedInRuns(start: State, before: seq<Action>, after: seq<Action>)
    requires Spawned(start) && start.workers != []
    requires var s := Run(start, before); s.master.Outside? || s.master.Posting?
    ensures var s, r := Run(start, before), Run(start, before + [Async] + after);
      var job := Job(|s.posted|, Standard);
      && job !in s.posted && |s.posted| < |r.posted| && r.posted[|s.posted|] == job
      && (r.master.Returned? ==> Ended(r.ran)[job] == 1)
  {
    var s := Run(start, before);
    SpawnedIsInv(start);
    RunKeeps(start, before);
    var one := Do(s, Async);
    OneStep(s, Async);
    RunConcat(start, before, [Async]);
    RunConcat(start, before + [Async], after);
    var r := Run(one, after);
    AsyncIsQueued(s);
    RunStaysInTime(one, after, one.posted);
    ShutdownRunsAllQueued(start, before + [Async] + after);
    hide Run, Do, Inv, Ended, TokensOf, Spawned;
    assert r.posted[|s.posted|] == one.posted[|s.posted|];
  }

  lemma AsyncIsQueued(s: State)
    requires Inv(s) && s.workers != [] && (s.master.Outside? || s.master.Posting?)
    ensures var r, job := Do(s, Async), Job(|s.posted|, Standard);
      r.posted == s.posted + [job] && InTime(r, r.posted) && job !in s.posted
  {
    hide TokensKept, MasterKept, EachOnce;
  }

  lemma OneStep(s: State, a: Action)
    ensures Run(s, [a]) == Do(s, a)
  {
    assert Run(s, [a]) == Run(Do(s, a), [a][1..]);
  }
}
