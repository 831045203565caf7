/**
 The heap of timeout events: a binary heap over an array, in which every event knows its place (its
 satellite). Removing the last element writes one slot behind the logical end of the array, so the
 array is kept apart from the number of elements in it.
 */
module TimeoutHeap {

  // ---- Heaps of times ----------------------------------------------------------------------

  function Parent(i: nat): nat requires i > 0 { (i - 1) / 2 }

  /** Nothing comes before its parent. */
  predicate Ordered(t: seq<int>) { forall i | 0 < i < |t| :: t[Parent(i)] <= t[i] }

  /** The order but for the free place h: what is below h does not come before what is above it. */
  predicate OrderedBut(t: seq<int>, h: nat) {
    && (forall i | 0 < i < |t| && i != h && Parent(i) != h :: t[Parent(i)] <= t[i])
    && (forall i | 0 < i < |t| && Parent(i) == h && 0 < h :: t[Parent(h)] <= t[i])
  }

  /** x may be above everything below h. */
  predicate Above(t: seq<int>, h: nat, x: int) { forall i | 0 < i < |t| && Parent(i) == h :: x <= t[i] }

  /** x may be below what is above h. */
  predicate Below(t: seq<int>, h: nat, x: int) { 0 < h <= |t| ==> t[Parent(h)] <= x }

  lemma UpStep(t: seq<int>, h: nat, x: int)
    requires 0 < h < |t| && OrderedBut(t, h) && Above(t, h, x) && x < t[Parent(h)]
    ensures var p := Parent(h); OrderedBut(t[h := t[p]], p) && Above(t[h := t[p]], p, x)
  {
    var p := Parent(h);
    var r := t[h := t[p]];
    forall i | 0 < i < |r| && Parent(i) == p && 0 < p ensures r[Parent(p)] <= r[i] {
      assert t[Parent(p)] <= t[p];
      assert i != h ==> t[p] <= t[i];
    }
  }

  lemma Filled(t: seq<int>, h: nat, x: int)
    requires h < |t| && OrderedBut(t, h) && Above(t, h, x) && Below(t, h, x)
    ensures Ordered(t[h := x])
  {
  }

  lemma DownStep(t: seq<int>, h: nat, c: nat, x: int)
    requires h < |t| && 0 < c < |t| && Parent(c) == h && OrderedBut(t, h) && Below(t, h, x) && t[c] < x
    requires forall i | 0 < i < |t| && Parent(i) == h :: t[c] <= t[i]
    ensures OrderedBut(t[h := t[c]], c) && Below(t[h := t[c]], c, x)
  {
    var r := t[h := t[c]];
    forall i | 0 < i < |r| && Parent(i) == c ensures r[Parent(c)] <= r[i] {
      assert t[Parent(i)] <= t[i];
    }
  }

  /** The two children of h. */
  lemma Children(h: nat, i: nat)
    requires i > 0
    ensures Parent(i) == h <==> i == 2 * h + 1 || i == 2 * h + 2
  {
  }

  /** The first of a heap is a smallest one. */
  lemma {:induction false} RootIsFirst(t: seq<int>, i: nat)
    requires Ordered(t) && i < |t|
    ensures t[0] <= t[i]
    decreases i
  {
    if i > 0 {
      RootIsFirst(t, Parent(i));
    }
  }

  /** Without its last element a heap is a heap, with one more at the end it is one but for that place. */
  lemma Shorter(t: seq<int>, n: nat)
    requires Ordered(t) && n <= |t|
    ensures Ordered(t[..n])
  {
  }

  lemma Opened(t: seq<int>, h: nat)
    requires Ordered(t)
    ensures OrderedBut(t, h)
  {
    if 0 < h < |t| {
      forall i | 0 < i < |t| && Parent(i) == h ensures t[Parent(h)] <= t[i] {
        assert t[Parent(h)] <= t[h] <= t[i];
      }
    } else {
      forall i | 0 < i < |t| ensures Parent(i) < i {
      }
    }
  }

  // ---- Events ------------------------------------------------------------------------------

  class Event {
    var satellite: int
    var timeout: int

    constructor (timeout: int)
      ensures satellite == -1 && this.timeout == timeout
    {
      satellite, this.timeout := -1, timeout;
    }
  }

  ghost function Times(s: seq<Event>): (t: seq<int>)
    reads s
    ensures |t| == |s|
  {
    seq(|s|, i requires 0 <= i < |s| reads s => s[i].timeout)
  }

  function Elements(s: seq<Event>): set<Event> { set x | x in s }

  /** Everybody but what is at h knows its place. */
  ghost predicate PlacedBut(s: seq<Event>, h: int)
    reads s
  {
    forall i | 0 <= i < |s| && i != h :: s[i].satellite == i
  }

  function SetBut(s: seq<Event>, h: int): set<Event> { set i | 0 <= i < |s| && i != h :: s[i] }

  /** Moving an event into the free place leaves its own place free. */
  lemma MoveKeepsSet(s: seq<Event>, h: nat, p: nat)
    requires h < |s| && p < |s| && h != p
    ensures SetBut(s[h := s[p]], p) == SetBut(s, h)
  {
    var r := s[h := s[p]];
    forall x ensures x in SetBut(r, p) <==> x in SetBut(s, h) {
      if x in SetBut(r, p) {
        var i :| 0 <= i < |r| && i != p && r[i] == x;
        assert x == s[if i == h then p else i];
      }
      if x in SetBut(s, h) {
        var i :| 0 <= i < |s| && i != h && s[i] == x;
        assert x == r[if i == p then h else i];
      }
    }
  }

  lemma FillSet(s: seq<Event>, h: nat, e: Event)
    requires h < |s|
    ensures Elements(s[h := e]) == SetBut(s, h) + {e}
  {
    var r := s[h := e];
    forall x ensures x in r <==> x in SetBut(s, h) || x == e {
      if x in SetBut(s, h) {
        var i :| 0 <= i < |s| && i != h && s[i] == x;
        assert r[i] == x;
      }
      if x == e {
        assert r[h] == e;
      }
    }
  }

  // ---- The heap ----------------------------------------------------------------------------

  class Heap {
    var data: array<Event>
    var size: nat

    ghost predicate Sized() reads this { size <= data.Length }

    ghost function Items(): (s: seq<Event>)
      requires Sized()
      reads this, data
      ensures |s| == size
    {
      data[..size]
    }

    ghost function Contents(): set<Event>
      requires Sized()
      reads this, data
    {
      Elements(Items())
    }

    ghost predicate Valid()
      reads this, data
      reads if Sized() then Contents() else {}
    {
      Sized() && Ordered(Times(Items())) && PlacedBut(Items(), -1)
    }

    constructor ()
      ensures Valid() && Contents() == {} && fresh(data)
    {
      data, size := new Event[0], 0;
    }

    /** An event moves into the free place h. */
    method Move(h: nat, p: nat)
      requires Sized() && h < size && p < size && h != p && PlacedBut(Items(), h)
      modifies data, SetBut(Items(), h)`satellite
      ensures Items() == old(Items())[h := old(Items()[p])]
      ensures Times(Items()) == old(Times(Items()))[h := old(Items()[p].timeout)]
      ensures PlacedBut(Items(), p) && SetBut(Items(), p) == old(SetBut(Items(), h))
    {
      MoveKeepsSet(Items(), h, p);
      ghost var before, times := Items(), Times(Items());
      data[h] := data[p];
      data[h].satellite := h;
      assert Items() == before[h := before[p]];
      assert Times(Items()) == times[h := before[p].timeout];
    }

    /** Event e is put into the free place h. */
    method Put(h: nat, e: Event)
      requires Sized() && h < size && PlacedBut(Items(), h) && e !in SetBut(Items(), h)
      modifies data, e`satellite
      ensures Items() == old(Items())[h := e] && Times(Items()) == old(Times(Items()))[h := e.timeout]
      ensures PlacedBut(Items(), -1) && Contents() == old(SetBut(Items(), h)) + {e}
    {
      FillSet(Items(), h, e);
      ghost var before, times := Items(), Times(Items());
      assert forall i | 0 <= i < size && i != h :: before[i] in SetBut(before, h);
      data[h] := e;
      e.satellite := h;
      assert Items() == before[h := e];
      assert Times(Items()) == times[h := e.timeout];
    }

    /** _bubble_up. */
    method BubbleUp(at: nat, e: Event)
      requires Sized() && at < size && PlacedBut(Items(), at) && e !in SetBut(Items(), at)
      requires OrderedBut(Times(Items()), at) && Above(Times(Items()), at, e.timeout)
      modifies data, SetBut(Items(), at)`satellite, e`satellite
      ensures Valid() && Contents() == old(SetBut(Items(), at)) + {e}
    {
      hide Ordered, OrderedBut, Above, PlacedBut, SetBut, Elements, Times;
      var idx: nat := at;
      ghost var others := SetBut(Items(), at);
      while idx > 0
        invariant idx < size && SetBut(Items(), idx) == others && PlacedBut(Items(), idx)
        invariant OrderedBut(Times(Items()), idx) && Above(Times(Items()), idx, e.timeout)
        decreases idx
      {
        var parent: nat := (idx - 1) / 2;
        assert Times(Items())[parent] == data[parent].timeout by { TimeAt(Items(), parent); }
        if !(e.timeout < data[parent].timeout) {
          break;
        }
        UpStep(Times(Items()), idx, e.timeout);
        Move(idx, parent);
        idx := parent;
      }
      Filled(Times(Items()), idx, e.timeout);
      Put(idx, e);
    }

    /** _bubble_down, where there may be something below. */
    method SiftDown(at: nat, e: Event)
      requires Sized() && at < size && PlacedBut(Items(), at) && e !in SetBut(Items(), at)
      requires OrderedBut(Times(Items()), at) && Below(Times(Items()), at, e.timeout)
      modifies data, SetBut(Items(), at)`satellite, e`satellite
      ensures Valid() && Contents() == old(SetBut(Items(), at)) + {e}
    {
      hide Ordered, OrderedBut, Below, PlacedBut, SetBut, Elements, Times;
      var idx: nat := at;
      ghost var others := SetBut(Items(), at);
      while true
        invariant idx < size && SetBut(Items(), idx) == others && PlacedBut(Items(), idx)
        invariant OrderedBut(Times(Items()), idx) && Below(Times(Items()), idx, e.timeout)
        decreases size - idx
      {
        var child := SmallerChild(idx);
        if child >= size || !(data[child].timeout < e.timeout) {
          NoneBelow(Times(Items()), idx, child, e.timeout);
          break;
        }
        DownStep(Times(Items()), idx, child, e.timeout);
        Move(idx, child);
        idx := child;
      }
      Filled(Times(Items()), idx, e.timeout);
      Put(idx, e);
    }

    /** _bubble_down. With `at` behind the last element it writes the slot there, and nothing else. */
    method BubbleDown(at: nat, e: Event)
      requires Sized() && at <= size && at < data.Length && PlacedBut(Items(), at) && e !in SetBut(Items(), at)
      requires OrderedBut(Times(Items()), at) && Below(Times(Items()), at, e.timeout)
      modifies data, SetBut(Items(), at)`satellite, e`satellite
      ensures if at < size then Valid() && Contents() == old(SetBut(Items(), at)) + {e}
              else Items() == old(Items()) && Times(Items()) == old(Times(Items())) && PlacedBut(Items(), at)
    {
      hide Ordered, OrderedBut, Below, PlacedBut, SetBut, Elements, Times;
      if at == size {
        WriteBehind(e);
      } else {
        SiftDown(at, e);
      }
    }

    /** The last turn of _bubble_down when there is nothing below: one slot behind the end is written. */
    method WriteBehind(e: Event)
      requires Sized() && size < data.Length && PlacedBut(Items(), size) && e !in SetBut(Items(), size)
      modifies data, e`satellite
      ensures Items() == old(Items()) && Times(Items()) == old(Times(Items())) && PlacedBut(Items(), size)
    {
      assert forall x | x in Items() :: x in SetBut(Items(), size);
      data[size] := e;
      e.satellite := size;
    }

    /** The child that is due first, or a place behind the end. */
    method SmallerChild(idx: nat) returns (child: nat)
      requires Sized() && idx < size
      ensures child > idx && (child < size ==> Parent(child) == idx && Times(Items())[child] == data[child].timeout)
      ensures forall i | 0 < i < size && Parent(i) == idx :: child < size && Times(Items())[child] <= Times(Items())[i]
    {
      child := (idx + 1) * 2;
      if child >= size || data[child - 1].timeout < data[child].timeout {
        child := child - 1;
      }
      forall i | 0 < i < size && Parent(i) == idx ensures child < size && data[child].timeout <= data[i].timeout {
        Children(idx, i);
      }
    }

    // ---- The interface ---------------------------------------------------------------------

    /** An event that is in this heap or in none: its satellite tells. */
    ghost predicate Tracks(e: Event)
      requires Sized()
      reads this, data, e
    {
      if e in Items() then 0 <= e.satellite < size && data[e.satellite] == e else e.satellite == -1
    }

    /** top. */
    method Top() returns (e: Event)
      requires Valid() && size > 0
      ensures e in Contents() && forall x | x in Contents() :: e.timeout <= x.timeout
    {
      e := data[0];
      TopIsFirst();
    }

    lemma TopIsFirst()
      requires Valid() && size > 0
      ensures data[0] in Contents() && forall x | x in Contents() :: data[0].timeout <= x.timeout
    {
      hide Ordered;
      assert Items()[0] == data[0];
      forall x | x in Contents() ensures data[0].timeout <= x.timeout {
        var i :| 0 <= i < |Items()| && Items()[i] == x;
        RootIsFirst(Times(Items()), i);
      }
    }

    /** The array has room for one more. */
    method Reserve(e: Event)
      requires Valid()
      modifies this`data
      ensures Valid() && size < data.Length && Items() == old(Items())
      ensures data == old(data) || fresh(data)
    {
      hide Ordered, PlacedBut;
      if size == data.Length {
        ghost var before := Items();
        var more := new Event[2 * size + 1](_ => e);
        for i := 0 to size
          invariant data == old(data) && size == data.Length && more.Length == 2 * size + 1 && fresh(more)
          invariant data[..] == old(data[..]) && more[..i] == data[..i]
        {
          more[i] := data[i];
        }
        data := more;
        assert Items() == before;
      }
    }

    /** insert. */
    method Insert(e: Event)
      requires Valid() && Tracks(e)
      modifies this, data, Contents()`satellite, e`satellite
      ensures Valid() && Contents() == old(Contents()) + {e} && Tracks(e)
      ensures data == old(data) || fresh(data)
    {
      hide OrderedBut, Times;
      if e.satellite != -1 {
        assert e in Contents();
        return;
      }
      Push(e);
      BubbleUp(size - 1, e);
    }

    /** push_back: one more place at the end, to be filled with e. */
    method Push(e: Event)
      requires Valid() && e !in Contents()
      modifies this, data
      ensures Sized() && Items() == old(Items()) + [e] && size == old(size) + 1
      ensures PlacedBut(Items(), size - 1) && SetBut(Items(), size - 1) == old(Contents()) && e !in old(Contents())
      ensures OrderedBut(Times(Items()), size - 1) && Above(Times(Items()), size - 1, e.timeout)
      ensures data == old(data) || fresh(data)
    {
      hide Ordered, Times, PlacedBut;
      Reserve(e);
      ghost var before := Items();
      data[size] := e;
      size := size + 1;
      assert Items() == before + [e];
      AddedAtEnd(before, e);
    }

    /** remove. */
    method Remove(e: Event)
      requires Valid() && Tracks(e)
      modifies this`size, data, Contents()`satellite, e`satellite
      ensures Valid() && Contents() == old(Contents()) - {e} && e.satellite == -1
    {
      hide Ordered;
      if e.satellite == -1 {
        return;
      }
      var at: nat := e.satellite;
      var last := PopBack(at);
      if at > 0 && last.timeout < data[(at - 1) / 2].timeout {
        BubbleUp(at, last);
      } else {
        BubbleDown(at, last);
      }
      e.satellite := -1;
    }

    /** pop_back: what was at `at` is no longer there, and the last event is to be put in its place. */
    method PopBack(at: nat) returns (last: Event)
      requires Valid() && at < size
      modifies this`size
      ensures size == old(size) - 1 && Sized() && at <= size < data.Length
      ensures PlacedBut(Items(), at) && last !in SetBut(Items(), at) && OrderedBut(Times(Items()), at)
      ensures at < size ==> SetBut(Items(), at) + {last} == old(Contents()) - {old(data[at])}
      ensures at == size ==> last == old(data[at]) && Contents() == old(Contents()) - {last} && Ordered(Times(Items()))
      ensures SetBut(Items(), at) <= old(Contents()) && last in old(Contents())
      ensures 0 < at && last.timeout < data[Parent(at)].timeout ==> at < size && Above(Times(Items()), at, last.timeout)
      ensures 0 < at && last.timeout >= data[Parent(at)].timeout ==> Below(Times(Items()), at, last.timeout)
    {
      hide OrderedBut, Times, Elements, SetBut, PlacedBut;
      last := data[size - 1];
      LastTaken(Items(), at);
      size := size - 1;
      assert Items() == old(Items())[..size];
    }

    /** pop. */
    method Pop() returns (e: Event)
      requires Valid() && size > 0
      modifies this`size, data, Contents()`satellite
      ensures Valid() && e in old(Contents()) && Contents() == old(Contents()) - {e} && e.satellite == -1
      ensures size == old(size) - 1
      ensures forall x | x in old(Contents()) :: e.timeout <= x.timeout
    {
      hide Ordered, SetBut;
      TopIsFirst();
      e := data[0];
      var last := PopBack(0);
      BubbleDown(0, last);
      e.satellite := -1;
    }

    /** clear. */
    method Clear()
      requires Valid()
      modifies this`size, Contents()`satellite
      ensures Valid() && Contents() == {} && forall e | e in old(Contents()) :: e.satellite == -1
    {
      for i := 0 to size
        invariant size == old(size) && Items() == old(Items())
        invariant forall j | 0 <= j < i :: Items()[j].satellite == -1
      {
        assert Items()[i] in Contents();
        data[i].satellite := -1;
      }
      size := 0;
    }
  }

  // ---- The timer loop ----------------------------------------------------------------------

  /** What fires: each once, in the order of the times. */
  ghost predicate InOrder(fired: seq<Event>)
    reads fired
  {
    forall i, j | 0 <= i < j < |fired| :: fired[i] != fired[j] && fired[i].timeout <= fired[j].timeout
  }

  ghost function Due(events: set<Event>, now: int): set<Event>
    reads events
  {
    set e | e in events && e.timeout <= now
  }

  /** _poll_timeout_events: exactly the events that are due by the time of synchronization are handed to
      the workers, one after the other in the order of their times; all others stay. */
  method PollTimeoutEvents(heap: Heap, now: int) returns (fired: seq<Event>)
    requires heap.Valid()
    modifies heap`size, heap.data, heap.Contents()`satellite
    ensures heap.Valid() && InOrder(fired)
    ensures Elements(fired) == old(Due(heap.Contents(), now))
    ensures heap.Contents() == old(heap.Contents()) - Elements(fired)
    ensures forall e | e in fired :: e.satellite == -1
  {
    hide Ordered, PlacedBut, Times;
    fired := [];
    ghost var all := heap.Contents();
    while heap.size > 0
      invariant heap.Valid() && heap.data == old(heap.data)
      invariant Elements(fired) !! heap.Contents() && Elements(fired) + heap.Contents() == all
      invariant InOrder(fired) && forall e | e in fired :: e.timeout <= now && e.satellite == -1
      invariant forall e, x | e in fired && x in heap.Contents() :: e.timeout <= x.timeout
      decreases heap.size
    {
      var top := heap.Top();
      if top.timeout > now {
        break;
      }
      var e := heap.Pop();
      Fires(fired, e);
      fired := fired + [e];
    }
    if heap.size == 0 {
      assert heap.Contents() == {};
    }
  }

  lemma Fires(fired: seq<Event>, e: Event)
    requires InOrder(fired) && e !in fired && forall x | x in fired :: x.timeout <= e.timeout
    ensures InOrder(fired + [e]) && Elements(fired + [e]) == Elements(fired) + {e}
  {
  }

  /** A heap without its last event, which is to be put at h. */
  lemma LastTaken(s: seq<Event>, h: nat)
    requires Ordered(Times(s)) && PlacedBut(s, -1) && h < |s|
    ensures var r, last := s[..|s| - 1], s[|s| - 1];
      && PlacedBut(r, h) && last !in SetBut(r, h) && OrderedBut(Times(r), h)
      && (h < |r| ==> SetBut(r, h) + {last} == Elements(s) - {s[h]})
      && (h == |r| ==> Elements(r) == Elements(s) - {last} && Ordered(Times(r)))
      && SetBut(r, h) <= Elements(s) && last in Elements(s)
      && (0 < h && last.timeout < s[Parent(h)].timeout ==> h < |r| && Above(Times(r), h, last.timeout))
      && (0 < h && last.timeout >= s[Parent(h)].timeout ==> Below(Times(r), h, last.timeout))
  {
    var n := |s| - 1;
    var r, last := s[..n], s[n];
    assert Times(r) == Times(s)[..n];
    Shorter(Times(s), n);
    Opened(Times(r), h);
    TakenSet(s, h);
    if 0 < h {
      TimeAt(s, Parent(h));
      LastAbove(Times(s), h);
    }
  }

  lemma LastAbove(t: seq<int>, h: nat)
    requires Ordered(t) && 0 < h < |t|
    ensures var n := |t| - 1; t[n] < t[Parent(h)] ==> h < n && Above(t[..n], h, t[n])
  {
  }

  lemma TakenSet(s: seq<Event>, h: nat)
    requires PlacedBut(s, -1) && h < |s|
    ensures var r, last := s[..|s| - 1], s[|s| - 1];
      && PlacedBut(r, h) && last !in SetBut(r, h)
      && (h < |r| ==> SetBut(r, h) + {last} == Elements(s) - {s[h]})
      && (h == |r| ==> Elements(r) == Elements(s) - {last})
      && SetBut(r, h) <= Elements(s) && last in Elements(s)
  {
    var n := |s| - 1;
    var r, last := s[..n], s[n];
    forall x ensures x in SetBut(r, h) <==> x in Elements(s) && x != s[h] && x != last {
      if x in SetBut(r, h) {
        var i :| 0 <= i < |r| && i != h && r[i] == x;
        assert s[i] == x;
      }
      if x in Elements(s) && x != s[h] && x != last {
        var i :| 0 <= i < |s| && s[i] == x;
        assert r[i] == x;
      }
    }
    if h == n {
      forall x ensures x in Elements(r) <==> x in SetBut(r, h) {
      }
    }
  }

  /** One more place at the end, to be filled with e. */
  lemma AddedAtEnd(s: seq<Event>, e: Event)
    requires Ordered(Times(s)) && PlacedBut(s, -1) && e !in s
    ensures var r := s + [e];
      && PlacedBut(r, |s|) && SetBut(r, |s|) == Elements(s) && e !in SetBut(r, |s|)
      && OrderedBut(Times(r), |s|) && Above(Times(r), |s|, e.timeout)
  {
    var r := s + [e];
    forall x ensures x in SetBut(r, |s|) <==> x in Elements(s) {
      if x in Elements(s) {
        var i :| 0 <= i < |s| && s[i] == x;
        assert r[i] == x;
      }
    }
    assert forall i | 0 <= i < |s| :: Times(r)[i] == Times(s)[i];
  }

  /** At the end of the way down nothing below h comes before x. */
  lemma NoneBelow(t: seq<int>, h: nat, c: nat, x: int)
    requires c >= |t| || x <= t[c]
    requires forall i | 0 < i < |t| && Parent(i) == h :: c < |t| && t[c] <= t[i]
    ensures Above(t, h, x)
  {
  }

  lemma TimeAt(s: seq<Event>, i: nat)
    requires i < |s|
    ensures Times(s)[i] == s[i].timeout
  {
  }
}
