/**
 * `Sync::Changes#execute`: replays one change notification.  Added and
 * modified paths go through the compare-and-transfer policy; removed paths
 * are deleted on the side opposite to where the removal was seen, if they
 * still exist there.  Both filesystems are snapshots mapping absolute paths
 * to mtimes that stay fixed during one call apart from its own deletes; a
 * delete removes its path from the snapshot it acts on (a guest `rmdir` is
 * taken to succeed), while transfers are only queued and take effect after
 * `finish_transfers`.
 */
module SyncChanges {
  import opened Wrappers
  import opened RubyPaths
  import opened SyncBase

  /** The side on which a change was detected (a Ruby symbol). */
  datatype Source = Host | Guest | Other(symbol: string)

  /** The calls made for one changed path: the policy on its host and guest paths. */
  function ChangedOne(hostRoot: string, guestRoot: string, hostFs: map<string, int>, guestFs: map<string, int>,
                      file: string): seq<Action>
  {
    var hostFile, guestFile := Join(hostRoot, file), Join(guestRoot, file);
    TransferActions(hostFile, guestFile, HostMtime(hostFs, hostFile), HostMtime(guestFs, guestFile))
  }

  /** The calls made for the changed paths `files`, in order. */
  function ChangedActions(hostRoot: string, guestRoot: string, hostFs: map<string, int>, guestFs: map<string, int>,
                          files: seq<string>): seq<Action>
  {
    if files == [] then []
    else
      ChangedActions(hostRoot, guestRoot, hostFs, guestFs, files[..|files| - 1])
        + ChangedOne(hostRoot, guestRoot, hostFs, guestFs, files[|files| - 1])
  }

  /** The two snapshots while removals are replayed. */
  datatype Sides = Sides(hostFs: map<string, int>, guestFs: map<string, int>)

  /** The snapshots after some removals, and the calls those removals made. */
  datatype Step = Step(sides: Sides, actions: seq<Action>)

  /** One iteration of the removal loop. */
  function RemoveOne(source: Source, hostRoot: string, guestRoot: string, sides: Sides, file: string): Step
  {
    match source
    case Host =>
      var guestFile := Join(guestRoot, file);
      if guestFile in sides.guestFs then Step(sides.(guestFs := sides.guestFs - {guestFile}), [DeleteOnGuest(guestFile)])
      else Step(sides, [UiInfo(NothingToDeleteOnGuest(file))])
    case Guest =>
      var hostFile := Join(hostRoot, file);
      if hostFile in sides.hostFs then Step(sides.(hostFs := sides.hostFs - {hostFile}), [DeleteOnHost(hostFile)])
      else Step(sides, [UiInfo(NothingToDeleteOnHost(file))])
    case Other(_) => Step(sides, [])
  }

  /** The removal loop over `files`, in order, starting from `sides`. */
  function Removals(source: Source, hostRoot: string, guestRoot: string, sides: Sides, files: seq<string>): Step
  {
    if files == [] then Step(sides, [])
    else
      var before := Removals(source, hostRoot, guestRoot, sides, files[..|files| - 1]);
      var last := RemoveOne(source, hostRoot, guestRoot, before.sides, files[|files| - 1]);
      Step(last.sides, before.actions + last.actions)
  }

  /** Everything one `execute(source, added, modified, removed)` call does, in order. */
  function ExecuteActions(source: Source, hostRoot: string, guestRoot: string, hostFs: map<string, int>, guestFs: map<string, int>,
                          added: seq<string>, modified: seq<string>, removed: seq<string>): seq<Action>
  {
    ChangedActions(hostRoot, guestRoot, hostFs, guestFs, added + modified)
      + Removals(source, hostRoot, guestRoot, Sides(hostFs, guestFs), removed).actions
      + [FinishTransfers]
  }

  // ----- the changed paths -----

  /** The changed paths are handled in list order: the calls for `xs + ys` are those for `xs`, then those for `ys`. */
  lemma {:induction false} ChangedActionsAppend(hostRoot: string, guestRoot: string, hostFs: map<string, int>,
                                                guestFs: map<string, int>, xs: seq<string>, ys: seq<string>)
    ensures ChangedActions(hostRoot, guestRoot, hostFs, guestFs, xs + ys)
         == ChangedActions(hostRoot, guestRoot, hostFs, guestFs, xs) + ChangedActions(hostRoot, guestRoot, hostFs, guestFs, ys)
    decreases |ys|
  {
    if ys == [] {
      assert xs + ys == xs;
    } else {
      var init := ys[..|ys| - 1];
      assert (xs + ys)[..|xs + ys| - 1] == xs + init;
      assert (xs + ys)[|xs + ys| - 1] == ys[|ys| - 1];
      ChangedActionsAppend(hostRoot, guestRoot, hostFs, guestFs, xs, init);
    }
  }

  /** Changed paths only ever produce transfers and "cannot sync" errors: no delete, no finish. */
  lemma {:induction false} ChangedActionsKinds(hostRoot: string, guestRoot: string, hostFs: map<string, int>,
                                               guestFs: map<string, int>, files: seq<string>)
    ensures forall a :: a in ChangedActions(hostRoot, guestRoot, hostFs, guestFs, files) ==>
              IsTransfer(a) || (a.UiError? && a.message.CannotSync?)
    decreases |files|
  {
    if files != [] {
      ChangedActionsKinds(hostRoot, guestRoot, hostFs, guestFs, files[..|files| - 1]);
    }
  }

  // ----- the removed paths -----

  /** The snapshot a removal acts on: the guest for a host-side removal and the host for a guest-side one. */
  function Opposite(source: Source, sides: Sides): map<string, int>
    requires !source.Other?
  {
    if source.Host? then sides.guestFs else sides.hostFs
  }

  /** The snapshot a removal never touches. */
  function SameSide(source: Source, sides: Sides): map<string, int>
    requires !source.Other?
  {
    if source.Host? then sides.hostFs else sides.guestFs
  }

  function OppositeRoot(source: Source, hostRoot: string, guestRoot: string): string
    requires !source.Other?
  {
    if source.Host? then guestRoot else hostRoot
  }

  function Deletion(source: Source, path: string): Action
    requires !source.Other?
  {
    if source.Host? then DeleteOnGuest(path) else DeleteOnHost(path)
  }

  predicate IsDeletion(source: Source, a: Action)
    requires !source.Other?
  {
    if source.Host? then a.DeleteOnGuest? else a.DeleteOnHost?
  }

  /** What a removal may do, by the side it came from. */
  predicate RemovalKind(source: Source, a: Action)
  {
    match source
    case Host => a.DeleteOnGuest? || (a.UiInfo? && a.message.NothingToDeleteOnGuest?)
    case Guest => a.DeleteOnHost? || (a.UiInfo? && a.message.NothingToDeleteOnHost?)
    case Other(_) => false
  }

  /**
   * Removals act only on the opposite side: a host-side removal may delete on
   * the guest or report that nothing was there, a guest-side removal the
   * reverse, and any other source does nothing at all.  None of them transfers.
   */
  lemma {:induction false} RemovalsKinds(source: Source, hostRoot: string, guestRoot: string, sides: Sides, files: seq<string>)
    ensures forall a :: a in Removals(source, hostRoot, guestRoot, sides, files).actions ==> RemovalKind(source, a)
    ensures source.Other? ==> Removals(source, hostRoot, guestRoot, sides, files) == Step(sides, [])
    decreases |files|
  {
    if files != [] {
      RemovalsKinds(source, hostRoot, guestRoot, sides, files[..|files| - 1]);
    }
  }

  /** The set of opposite-side paths that `files` name. */
  function Targets(source: Source, hostRoot: string, guestRoot: string, files: seq<string>): set<string>
    requires !source.Other?
  {
    set f | f in files :: Join(OppositeRoot(source, hostRoot, guestRoot), f)
  }

  /** One removal takes its target out of the opposite snapshot and leaves the other alone. */
  lemma RemoveOneSides(source: Source, hostRoot: string, guestRoot: string, sides: Sides, file: string)
    requires !source.Other?
    ensures var next := RemoveOne(source, hostRoot, guestRoot, sides, file).sides;
      && Opposite(source, next) == Opposite(source, sides) - {Join(OppositeRoot(source, hostRoot, guestRoot), file)}
      && SameSide(source, next) == SameSide(source, sides)
  {
  }

  lemma TargetsSnoc(source: Source, hostRoot: string, guestRoot: string, files: seq<string>)
    requires !source.Other? && files != []
    ensures Targets(source, hostRoot, guestRoot, files)
         == Targets(source, hostRoot, guestRoot, files[..|files| - 1]) + {Join(OppositeRoot(source, hostRoot, guestRoot), files[|files| - 1])}
  {
    assert files == files[..|files| - 1] + [files[|files| - 1]];
  }

  /**
   * After the removal loop the opposite snapshot has lost exactly the paths
   * the removed files name, and the snapshot on the source's own side is
   * untouched.
   */
  lemma {:induction false} RemovalsFinalSides(source: Source, hostRoot: string, guestRoot: string, sides: Sides, files: seq<string>)
    requires !source.Other?
    ensures var run := Removals(source, hostRoot, guestRoot, sides, files);
      && Opposite(source, run.sides) == Opposite(source, sides) - Targets(source, hostRoot, guestRoot, files)
      && SameSide(source, run.sides) == SameSide(source, sides)
    decreases |files|
  {
    if files == [] {
      assert Targets(source, hostRoot, guestRoot, files) == {};
    } else {
      var init := files[..|files| - 1];
      var before := Removals(source, hostRoot, guestRoot, sides, init);
      RemovalsFinalSides(source, hostRoot, guestRoot, sides, init);
      RemoveOneSides(source, hostRoot, guestRoot, before.sides, files[|files| - 1]);
      TargetsSnoc(source, hostRoot, guestRoot, files);
    }
  }

  /** A path is deleted by the loop exactly when it was present on the opposite side and is gone afterwards. */
  lemma {:induction false} DeletedIffRemoved(source: Source, hostRoot: string, guestRoot: string, sides: Sides,
                                             files: seq<string>, path: string)
    requires !source.Other?
    ensures var run := Removals(source, hostRoot, guestRoot, sides, files);
      Deletion(source, path) in run.actions <==> path in Opposite(source, sides) && path !in Opposite(source, run.sides)
    decreases |files|
  {
    if files != [] {
      var init := files[..|files| - 1];
      var before := Removals(source, hostRoot, guestRoot, sides, init);
      DeletedIffRemoved(source, hostRoot, guestRoot, sides, init, path);
      RemovalsFinalSides(source, hostRoot, guestRoot, sides, init);
    }
  }

  /** Every removed path still present on the opposite side is deleted there. */
  lemma PresentPathsDeleted(source: Source, hostRoot: string, guestRoot: string, sides: Sides, files: seq<string>, f: string)
    requires !source.Other? && f in files
    requires Join(OppositeRoot(source, hostRoot, guestRoot), f) in Opposite(source, sides)
    ensures Deletion(source, Join(OppositeRoot(source, hostRoot, guestRoot), f))
              in Removals(source, hostRoot, guestRoot, sides, files).actions
  {
    RemovalsFinalSides(source, hostRoot, guestRoot, sides, files);
    DeletedIffRemoved(source, hostRoot, guestRoot, sides, files, Join(OppositeRoot(source, hostRoot, guestRoot), f));
  }

  /** Each path is deleted at most once, however often it is listed as removed. */
  lemma {:induction false} DeletesAtMostOnce(source: Source, hostRoot: string, guestRoot: string, sides: Sides,
                                             files: seq<string>, i: nat, j: nat)
    requires !source.Other?
    requires var acts := Removals(source, hostRoot, guestRoot, sides, files).actions;
      i < j < |acts| && IsDeletion(source, acts[i])
    ensures var acts := Removals(source, hostRoot, guestRoot, sides, files).actions;
      acts[j] != acts[i]
    decreases |files|
  {
    var init := files[..|files| - 1];
    var before := Removals(source, hostRoot, guestRoot, sides, init);
    var acts := Removals(source, hostRoot, guestRoot, sides, files).actions;
    if j < |before.actions| {
      assert acts[i] == before.actions[i] && acts[j] == before.actions[j];
      DeletesAtMostOnce(source, hostRoot, guestRoot, sides, init, i, j);
    } else {
      var p := acts[i].path;
      assert acts[i] == before.actions[i] && acts[i] in before.actions;
      DeletedIffRemoved(source, hostRoot, guestRoot, sides, init, p);
    }
  }

  // ----- one whole call -----

  /**
   * `finish_transfers` is called once per `execute`, as its last call, also
   * when all three lists are empty.
   */
  lemma ExecuteFinishesOnce(source: Source, hostRoot: string, guestRoot: string, hostFs: map<string, int>, guestFs: map<string, int>,
                            added: seq<string>, modified: seq<string>, removed: seq<string>)
    ensures var acts := ExecuteActions(source, hostRoot, guestRoot, hostFs, guestFs, added, modified, removed);
      && |acts| > 0 && acts[|acts| - 1] == FinishTransfers
      && forall i :: 0 <= i < |acts| - 1 ==> acts[i] != FinishTransfers
  {
    var changed := ChangedActions(hostRoot, guestRoot, hostFs, guestFs, added + modified);
    var removals := Removals(source, hostRoot, guestRoot, Sides(hostFs, guestFs), removed).actions;
    ChangedActionsKinds(hostRoot, guestRoot, hostFs, guestFs, added + modified);
    RemovalsKinds(source, hostRoot, guestRoot, Sides(hostFs, guestFs), removed);
    var acts := changed + removals + [FinishTransfers];
    forall i | 0 <= i < |acts| - 1
      ensures acts[i] != FinishTransfers
    {
      if i < |changed| {
        assert acts[i] == changed[i] && changed[i] in changed;
      } else {
        assert acts[i] == removals[i - |changed|] && removals[i - |changed|] in removals;
      }
    }
  }

  /**
   * The order within one `execute`: the calls for `added`, then those for
   * `modified`, then the removals (which never transfer), then the finish.
   */
  lemma ExecuteOrder(source: Source, hostRoot: string, guestRoot: string, hostFs: map<string, int>, guestFs: map<string, int>,
                     added: seq<string>, modified: seq<string>, removed: seq<string>)
    ensures ExecuteActions(source, hostRoot, guestRoot, hostFs, guestFs, added, modified, removed)
         == ChangedActions(hostRoot, guestRoot, hostFs, guestFs, added)
          + ChangedActions(hostRoot, guestRoot, hostFs, guestFs, modified)
          + Removals(source, hostRoot, guestRoot, Sides(hostFs, guestFs), removed).actions
          + [FinishTransfers]
    ensures forall a :: a in Removals(source, hostRoot, guestRoot, Sides(hostFs, guestFs), removed).actions ==> !IsTransfer(a)
  {
    ChangedActionsAppend(hostRoot, guestRoot, hostFs, guestFs, added, modified);
    RemovalsKinds(source, hostRoot, guestRoot, Sides(hostFs, guestFs), removed);
  }

  // ----- the imperative form -----

  /** `execute`: the log grows by exactly `ExecuteActions(...)`, written out. */
  method Execute(b: Base, hostFs: map<string, int>, guestFs: map<string, int>,
                 source: Source, added: seq<string>, modified: seq<string>, removed: seq<string>)
    modifies b
    ensures b.log == old(b.log) + ChangedActions(b.hostRoot, b.guestRoot, hostFs, guestFs, added + modified)
                                + Removals(source, b.hostRoot, b.guestRoot, Sides(hostFs, guestFs), removed).actions
                                + [FinishTransfers]
  {
    CompareChanged(b, hostFs, guestFs, added + modified);
    RemoveAll(b, Sides(hostFs, guestFs), source, removed);
    b.log := b.log + [FinishTransfers];
  }

  /** The first loop of `execute`: the policy on every changed path, in order. */
  method CompareChanged(b: Base, hostFs: map<string, int>, guestFs: map<string, int>, changed: seq<string>)
    modifies b
    ensures b.log == old(b.log) + ChangedActions(b.hostRoot, b.guestRoot, hostFs, guestFs, changed)
  {
    for i := 0 to |changed|
      invariant b.log == old(b.log) + ChangedActions(b.hostRoot, b.guestRoot, hostFs, guestFs, changed[..i])
    {
      var file := changed[i];
      assert changed[..i + 1][..i] == changed[..i];
      var hostFile, guestFile := b.HostPath(file), b.GuestPath(file);
      b.CompareAndTransfer(hostFile, guestFile, HostMtime(hostFs, hostFile), HostMtime(guestFs, guestFile));
    }
    assert changed[..|changed|] == changed;
  }

  /** The second loop of `execute`: deletions on the side opposite to `source`. */
  method RemoveAll(b: Base, sides: Sides, source: Source, removed: seq<string>)
    modifies b
    ensures b.log == old(b.log) + Removals(source, b.hostRoot, b.guestRoot, sides, removed).actions
  {
    var host, guest := sides.hostFs, sides.guestFs;
    for i := 0 to |removed|
      invariant var run := Removals(source, b.hostRoot, b.guestRoot, sides, removed[..i]);
        Sides(host, guest) == run.sides && b.log == old(b.log) + run.actions
    {
      var file := removed[i];
      assert removed[..i + 1][..i] == removed[..i];
      if source == Host {
        var guestFile := b.GuestPath(file);
        if HostMtime(guest, guestFile).Some? {
          b.log := b.log + [DeleteOnGuest(guestFile)];
          guest := guest - {guestFile};
        } else {
          b.log := b.log + [UiInfo(NothingToDeleteOnGuest(file))];
        }
      } else if source == Guest {
        var hostFile := b.HostPath(file);
        if hostFile in host {
          b.log := b.log + [DeleteOnHost(hostFile)];
          host := host - {hostFile};
        } else {
          b.log := b.log + [UiInfo(NothingToDeleteOnHost(file))];
        }
      }
    }
    assert removed[..|removed|] == removed;
  }
}
