/**
 * `StatQueue::Base`: the stats (mtime and atime) to apply to files once
 * their transfers complete, keyed by path.  `setstat` itself is an effect
 * of the subclasses (a deferred `File.utime` on the host, an SFTP
 * `setstat` on the guest); it is recorded in a log.
 */
module StatQueue {
  import opened Wrappers

  /** The attributes of a pending stat; downloads record no atime. */
  datatype Stat = Stat(mtime: int, atime: Option<int>)

  type Pending = map<string, Stat>

  /** `Hash#fetch(path, nil)`. */
  function Fetch(q: Pending, path: string): Option<Stat>
  {
    if path in q then Some(q[path]) else None
  }

  /** `queue[path] = stat`. */
  function Store(q: Pending, path: string, stat: Stat): Pending
  {
    q[path := stat]
  }

  /** What a pop returns: the stat, if any, and the queue left behind. */
  datatype Taken = Taken(stat: Option<Stat>, rest: Pending)

  /** Fetch the stat for `path` and delete the entry if there was one. */
  function Take(q: Pending, path: string): Taken
  {
    if path in q then Taken(Some(q[path]), q - {path}) else Taken(None, q)
  }

  /** A stat applied to a file. */
  datatype Applied = SetStat(path: string, stat: Stat)

  /** After `queue(p, s)`, `queued(p)` is `s`, and every other path reads as before. */
  lemma StoreThenFetch(q: Pending, path: string, stat: Stat, other: string)
    ensures Fetch(Store(q, path, stat), path) == Some(stat)
    ensures other != path ==> Fetch(Store(q, path, stat), other) == Fetch(q, other)
  {
  }

  /** A later `queue` for the same path overwrites the earlier one. */
  lemma StoreOverwrites(q: Pending, path: string, first: Stat, second: Stat)
    ensures Store(Store(q, path, first), path, second) == Store(q, path, second)
  {
  }

  /**
   * Popping a queued path returns its stat and removes that entry only;
   * popping an unqueued path returns nil and changes nothing; so a second
   * pop of the same path finds nothing.
   */
  lemma TakeRemovesOnlyThat(q: Pending, path: string)
    ensures var t := Take(q, path);
      t.stat == Fetch(q, path)
      && t.rest.Keys == q.Keys - {path}
      && (forall k :: k in t.rest ==> t.rest[k] == q[k])
      && Take(t.rest, path) == Taken(None, t.rest)
  {
  }

  /**
   * Queueing a stat and then popping the same path hands back that stat and
   * leaves every other entry as it was before the queueing.
   */
  lemma StoreThenTake(q: Pending, path: string, stat: Stat)
    ensures Take(Store(q, path, stat), path) == Taken(Some(stat), q - {path})
  {
    assert Store(q, path, stat) - {path} == q - {path};
  }

  /** The operations a queue sees, in order. */
  datatype Op = Enqueue(path: string, stat: Stat) | Dequeue(path: string)

  /** A queue's state and the stats applied so far. */
  datatype Trace = Trace(pending: Pending, applied: seq<Applied>)

  /** The queue after `ops`, starting from `q`: `queue` stores, `apply` takes and applies. */
  function Replay(q: Pending, ops: seq<Op>): Trace
  {
    if ops == [] then Trace(q, [])
    else
      var t := Replay(q, ops[..|ops| - 1]);
      match ops[|ops| - 1]
      case Enqueue(p, s) => Trace(Store(t.pending, p, s), t.applied)
      case Dequeue(p) =>
        var taken := Take(t.pending, p);
        Trace(taken.rest, t.applied + if taken.stat.Some? then [SetStat(p, taken.stat.value)] else [])
  }

  function Enqueues(ops: seq<Op>, path: string): nat
  {
    if ops == [] then 0
    else Enqueues(ops[..|ops| - 1], path) + if ops[|ops| - 1].Enqueue? && ops[|ops| - 1].path == path then 1 else 0
  }

  function Applications(applied: seq<Applied>, path: string): nat
  {
    if applied == [] then 0
    else Applications(applied[..|applied| - 1], path) + if applied[|applied| - 1].path == path then 1 else 0
  }

  lemma {:induction false} ApplicationsAppend(a: seq<Applied>, b: seq<Applied>, path: string)
    ensures Applications(a + b, path) == Applications(a, path) + Applications(b, path)
    decreases |b|
  {
    if b == [] {
      assert a + b == a;
    } else {
      assert (a + b)[..|a + b| - 1] == a + b[..|b| - 1];
      assert (a + b)[|a + b| - 1] == b[|b| - 1];
      ApplicationsAppend(a, b[..|b| - 1], path);
    }
  }

  /**
   * Each queued stat is applied at most once: the applications to a path,
   * plus the entry still pending for it, never exceed the entry it started
   * with plus the number of times it was queued.
   */
  lemma {:induction false} AppliedAtMostOnce(q: Pending, ops: seq<Op>, path: string)
    ensures var t := Replay(q, ops);
      Applications(t.applied, path) + (if path in t.pending then 1 else 0)
        <= (if path in q then 1 else 0) + Enqueues(ops, path)
    decreases |ops|
  {
    if ops != [] {
      var init := ops[..|ops| - 1];
      var t := Replay(q, init);
      AppliedAtMostOnce(q, init, path);
      match ops[|ops| - 1]
      case Enqueue(p, s) =>
      case Dequeue(p) =>
        var taken := Take(t.pending, p);
        ApplicationsAppend(t.applied, if taken.stat.Some? then [SetStat(p, taken.stat.value)] else [], path);
        assert Applications([], path) == 0;
        assert Applications([SetStat(p, Stat(0, None))], path) == (if p == path then 1 else 0);
    }
  }

  /** `StatQueue::Base`: the pending map, and the `setstat` calls made so far. */
  class Base {
    var pending: Pending
    var applied: seq<Applied>

    constructor ()
      ensures pending == map[] && applied == []
    {
      pending := map[];
      applied := [];
    }

    /** `queue(file_path, stat)`: stores the stat, overwriting any earlier one. */
    method Queue(path: string, stat: Stat)
      modifies this
      ensures pending == Store(old(pending), path, stat) && applied == old(applied)
    {
      pending := pending[path := stat];
    }

    /** `queued(file_path)`: the pending stat, or nil; the queue is not changed. */
    method Queued(path: string) returns (stat: Option<Stat>)
      ensures stat.Some? <==> path in pending
      ensures stat.Some? ==> stat.value == pending[path]
    {
      if path in pending {
        stat := Some(pending[path]);
      } else {
        stat := None;
      }
    }

    /** `apply(file_path)`: pops the pending stat, if any, and applies it once. */
    method Apply(path: string) returns (stat: Option<Stat>)
      modifies this
      ensures Taken(stat, pending) == Take(old(pending), path)
      ensures applied == old(applied) + if stat.Some? then [SetStat(path, stat.value)] else []
    {
      stat := Queued(path);
      if stat.Some? {
        pending := pending - {path};
        applied := applied + [SetStat(path, stat.value)];
      }
    }
  }
}
