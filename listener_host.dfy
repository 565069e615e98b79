/**
 * `Vagrant::Mirror::Listener::Host`: the body of the change callback, which
 * flattens each `(modified, added, removed)` report into one queue event
 * per path.
 */
module ListenerHost {

  datatype EventKind = Modified | Added | Removed

  /** The hash pushed onto the queue, with its `:event` and `:path` keys. */
  datatype Event = Event(event: EventKind, path: string)

  /** One event of the given kind per path, in the reported order. */
  function Tagged(kind: EventKind, paths: seq<string>): seq<Event>
  {
    if paths == [] then [] else Tagged(kind, paths[..|paths| - 1]) + [Event(kind, paths[|paths| - 1])]
  }

  /** What one callback pushes: the modified paths, then the added ones, then the removed ones. */
  function Flatten(modified: seq<string>, added: seq<string>, removed: seq<string>): seq<Event>
  {
    Tagged(Modified, modified) + Tagged(Added, added) + Tagged(Removed, removed)
  }

  /** Each path becomes one event carrying that kind and the path unchanged, in order. */
  lemma {:induction false} TaggedAt(kind: EventKind, paths: seq<string>)
    ensures |Tagged(kind, paths)| == |paths|
    ensures forall i :: 0 <= i < |paths| ==> Tagged(kind, paths)[i] == Event(kind, paths[i])
    decreases |paths|
  {
    if paths != [] {
      TaggedAt(kind, paths[..|paths| - 1]);
    }
  }

  /**
   * A callback pushes `|modified| + |added| + |removed|` events: first one
   * `Modified` event per modified path, then one `Added` event per added
   * path, then one `Removed` event per removed path, each group in the
   * reported order.
   */
  lemma FlattenAt(modified: seq<string>, added: seq<string>, removed: seq<string>)
    ensures var events := Flatten(modified, added, removed);
      && |events| == |modified| + |added| + |removed|
      && (forall i :: 0 <= i < |modified| ==> events[i] == Event(Modified, modified[i]))
      && (forall i :: 0 <= i < |added| ==> events[|modified| + i] == Event(Added, added[i]))
      && (forall i :: 0 <= i < |removed| ==> events[|modified| + |added| + i] == Event(Removed, removed[i]))
  {
    TaggedAt(Modified, modified);
    TaggedAt(Added, added);
    TaggedAt(Removed, removed);
  }

  /** The number of events of one kind in a queue. */
  function CountKind(events: seq<Event>, kind: EventKind): nat
  {
    if events == [] then 0
    else CountKind(events[..|events| - 1], kind) + (if events[|events| - 1].event == kind then 1 else 0)
  }

  lemma {:induction false} CountKindAppend(a: seq<Event>, b: seq<Event>, kind: EventKind)
    ensures CountKind(a + b, kind) == CountKind(a, kind) + CountKind(b, kind)
    decreases |b|
  {
    if b == [] {
      assert a + b == a;
    } else {
      CountKindAppend(a, b[..|b| - 1], kind);
      assert (a + b)[..|a + b| - 1] == a + b[..|b| - 1];
    }
  }

  lemma {:induction false} CountTagged(tag: EventKind, paths: seq<string>, kind: EventKind)
    ensures CountKind(Tagged(tag, paths), kind) == if tag == kind then |paths| else 0
    decreases |paths|
  {
    if paths != [] {
      CountTagged(tag, paths[..|paths| - 1], kind);
    }
  }

  /** Each kind's events come only from the list of that kind, one per path. */
  lemma FlattenCounts(modified: seq<string>, added: seq<string>, removed: seq<string>)
    ensures CountKind(Flatten(modified, added, removed), Modified) == |modified|
    ensures CountKind(Flatten(modified, added, removed), Added) == |added|
    ensures CountKind(Flatten(modified, added, removed), Removed) == |removed|
  {
    var m, a, r := Tagged(Modified, modified), Tagged(Added, added), Tagged(Removed, removed);
    forall kind: EventKind
      ensures CountKind(m + a + r, kind) == CountKind(m, kind) + CountKind(a, kind) + CountKind(r, kind)
    {
      CountKindAppend(m + a, r, kind);
      CountKindAppend(m, a, kind);
    }
    CountTagged(Modified, modified, Modified);
    CountTagged(Added, added, Modified);
    CountTagged(Removed, removed, Modified);
    CountTagged(Modified, modified, Added);
    CountTagged(Added, added, Added);
    CountTagged(Removed, removed, Added);
    CountTagged(Modified, modified, Removed);
    CountTagged(Added, added, Removed);
    CountTagged(Removed, removed, Removed);
  }

  /** A listener on a host path, and the queue it shares with the mirror. */
  class Host {
    const path: string
    var queue: seq<Event>

    constructor (path: string, queue: seq<Event>)
      ensures this.path == path && this.queue == queue
    {
      this.path := path;
      this.queue := queue;
    }

    /**
     * The `Listen.to` callback: existing entries stay as they were and the
     * report's events are appended after them.
     */
    method Callback(modified: seq<string>, added: seq<string>, removed: seq<string>)
      modifies this
      ensures queue == old(queue) + Flatten(modified, added, removed)
    {
      ghost var start := queue;
      for i := 0 to |modified|
        invariant queue == start + Tagged(Modified, modified[..i])
      {
        assert modified[..i + 1][..i] == modified[..i];
        queue := queue + [Event(Modified, modified[i])];
      }
      assert modified[..|modified|] == modified;
      ghost var afterModified := queue;
      for i := 0 to |added|
        invariant queue == afterModified + Tagged(Added, added[..i])
      {
        assert added[..i + 1][..i] == added[..i];
        queue := queue + [Event(Added, added[i])];
      }
      assert added[..|added|] == added;
      ghost var afterAdded := queue;
      for i := 0 to |removed|
        invariant queue == afterAdded + Tagged(Removed, removed[..i])
      {
        assert removed[..i + 1][..i] == removed[..i];
        queue := queue + [Event(Removed, removed[i])];
      }
      assert removed[..|removed|] == removed;
    }
  }
}
