/**
 The sets of the reactor as its private methods change them, by the kind of event. Each method is
 proved to take the step that Reactor describes.
 */
module ReactorNode {
  import opened Reactor

  predicate Timed(e: Event) { e.kind == TIMEOUT || e.kind == PERIODIC }

  class Node {
    var eventset: set<Event>
    var timeoutpq: set<Event>
    var demux: set<Event>
    ghost var running: multiset<Event>
    ghost var promises: multiset<Promise>
    ghost var made: set<Event>
    ghost var gone: set<Event>

    ghost function View(): State
      reads this
    {
      State(eventset, timeoutpq + demux, running, promises, made, gone)
    }

    /** Each kind is registered where it belongs. */
    ghost predicate Valid()
      reads this
    {
      (forall e | e in timeoutpq :: Timed(e)) && (forall e | e in demux :: !Timed(e))
    }

    constructor ()
      ensures Valid() && View() == START
    {
      eventset, timeoutpq, demux := {}, {}, {};
      running, promises, made, gone := multiset{}, multiset{}, {}, {};
    }

    /** What insert has the owner do. */
    method Insert(e: Event)
      requires Valid()
      modifies this`eventset, this`timeoutpq, this`demux
      ensures Valid() && View() == Inserted(old(View()), e)
    {
      eventset := eventset + {e};
      if Timed(e) {
        timeoutpq := timeoutpq + {e};
      } else if e.kind == READ {
        demux := demux + {e};
      }
    }

    /** _freeze. */
    method Freeze(e: Event) returns (ok: bool)
      requires Valid()
      modifies this`timeoutpq, this`demux
      ensures Valid() && ok == (e in eventset) && View() == Frozen(old(View()), e)
    {
      if e !in eventset {
        return false;
      }
      if Timed(e) {
        timeoutpq := timeoutpq - {e};
      } else {
        demux := demux - {e};
      }
      ok := true;
    }

    /** _thaw. */
    method Thaw(e: Event) returns (ok: bool)
      requires Valid()
      modifies this`timeoutpq, this`demux
      ensures Valid() && ok == (e in eventset) && View() == Thawed(old(View()), e)
    {
      if e !in eventset {
        return false;
      }
      if Timed(e) {
        timeoutpq := timeoutpq + {e};
      } else {
        demux := demux + {e};
      }
      ok := true;
    }

    /** _remove. */
    method Remove(e: Event) returns (ok: bool)
      requires Valid()
      modifies this
      ensures Valid() && ok == (e in old(eventset)) && View() == Removed(old(View()), e)
    {
      if e !in eventset {
        return false;
      }
      if Timed(e) {
        timeoutpq := timeoutpq - {e};
      } else {
        demux := demux - {e};
      }
      eventset, gone := eventset - {e}, gone + {e};
      ok := true;
    }

    /** _activate_event: a timer has been popped, a descriptor is taken from the demultiplexer. */
    method Activate(e: Event)
      requires Valid() && Enabled(View(), Fire(e))
      modifies this
      ensures Valid() && View() == Do(old(View()), Fire(e))
    {
      if Timed(e) {
        timeoutpq := timeoutpq - {e};
      } else {
        demux := demux - {e};
      }
      running := running + multiset{e};
    }
  }
}
