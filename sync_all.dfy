/**
 * `Sync::All#execute`: reconciles a host directory with a guest directory.
 * Each filesystem is a finite tree; a call receives the nodes found at the
 * host and guest directories it resolves (`None` when nothing is there),
 * and every path it passes on is computed from strings exactly as the
 * source computes it.  Transfers are only queued, so both trees stay fixed
 * during a run.
 */
module SyncAll {
  import opened Wrappers
  import opened RubyPaths
  import opened SyncBase

  /** A filesystem node with its mtime in whole seconds. */
  datatype Node = File(mtime: int) | Dir(mtime: int, entries: seq<Entry>)

  /** A directory entry; a listing reports the names in this order, "." and ".." included where present. */
  datatype Entry = Entry(name: string, node: Node)

  function Depth(n: Node): nat
  {
    match n
    case File(_) => 1
    case Dir(_, entries) => 1 + EntriesDepth(entries)
  }

  function EntriesDepth(entries: seq<Entry>): nat
  {
    if entries == [] then 0
    else
      var d := Depth(entries[|entries| - 1].node);
      var rest := EntriesDepth(entries[..|entries| - 1]);
      if d < rest then rest else d
  }

  function NodeDepth(o: Option<Node>): nat
  {
    match o
    case None => 0
    case Some(n) => Depth(n)
  }

  /** The names a listing returns, in order. */
  function Names(entries: seq<Entry>): seq<string>
  {
    if entries == [] then [] else Names(entries[..|entries| - 1]) + [entries[|entries| - 1].name]
  }

  /** The node a path inside the directory names: the first entry with that name. */
  function Lookup(entries: seq<Entry>, name: string): Option<Node>
  {
    if entries == [] then None
    else if entries[0].name == name then Some(entries[0].node)
    else Lookup(entries[1..], name)
  }

  lemma {:induction false} LookupDepth(entries: seq<Entry>, name: string)
    ensures NodeDepth(Lookup(entries, name)) <= EntriesDepth(entries)
    decreases |entries|
  {
    if entries != [] {
      var init := entries[..|entries| - 1];
      if entries[0].name != name {
        LookupDepth(entries[1..], name);
        EntriesDepthTail(entries);
      } else {
        EntriesDepthHead(entries);
      }
    }
  }

  lemma {:induction false} EntriesDepthHead(entries: seq<Entry>)
    requires entries != []
    ensures Depth(entries[0].node) <= EntriesDepth(entries)
    decreases |entries|
  {
    if |entries| > 1 {
      EntriesDepthHead(entries[..|entries| - 1]);
    }
  }

  lemma {:induction false} EntriesDepthTail(entries: seq<Entry>)
    requires entries != []
    ensures EntriesDepth(entries[1..]) <= EntriesDepth(entries)
    decreases |entries|
  {
    if |entries| > 1 {
      var init := entries[..|entries| - 1];
      EntriesDepthTail(init);
      assert entries[1..][..|entries[1..]| - 1] == init[1..];
    }
  }

  /** The entries of a directory; a file or a missing path has none. */
  function Children(o: Option<Node>): seq<Entry>
  {
    if o.Some? && o.value.Dir? then o.value.entries else []
  }

  /** `dir_entries` on the guest: a missing path, or a plain file, lists as empty. */
  function GuestListing(guest: Option<Node>): seq<string>
  {
    Names(Children(guest))
  }

  function Mtime(o: Option<Node>): Option<int>
  {
    match o
    case None => None
    case Some(n) => Some(n.mtime)
  }

  predicate IsDir(o: Option<Node>) { o.Some? && o.value.Dir? }

  predicate IsDot(name: string) { name == "." || name == ".." }

  /**
   * `Array#|` on one concatenated array: every name once, at its first
   * occurrence, in order.
   */
  function Dedup(s: seq<string>): seq<string>
  {
    if s == [] then []
    else
      var d := Dedup(s[..|s| - 1]);
      if s[|s| - 1] in d then d else d + [s[|s| - 1]]
  }

  /** `guest | host`: the guest listing, then the host names the guest lacks. */
  function Union(guestNames: seq<string>, hostNames: seq<string>): seq<string>
  {
    Dedup(guestNames + hostNames)
  }

  /** Recurse into an entry that is a directory on the host, or missing there and a directory on the guest. */
  predicate Recurses(host: Option<Node>, guest: Option<Node>)
  {
    IsDir(host) || (host.None? && IsDir(guest))
  }

  /** What one `execute` call does: its calls in order, and whether it raised. */
  datatype Run = Run(actions: seq<Action>, raised: bool)

  /** The directories a call on `path` resolves: one trailing '/' chomped off the joined path. */
  function HostDir(hostRoot: string, path: string): string { Chomp(Join(hostRoot, Chomp(path))) }

  function GuestDir(guestRoot: string, path: string): string { Chomp(Join(guestRoot, Chomp(path))) }

  /** The state of one call's loop: its chomped path, its two directories and what they contain. */
  datatype Level = Level(path: string, hostDir: string, guestDir: string, hostEntries: seq<Entry>, guestEntries: seq<Entry>)

  function LevelDepth(lv: Level): nat { EntriesDepth(lv.hostEntries) + EntriesDepth(lv.guestEntries) }

  /**
   * `execute(path)`, given the nodes at its host and guest directories.
   * A missing guest directory is uploaded whole; otherwise a missing host
   * directory is downloaded whole; a host path that is a plain file makes
   * `Dir.entries` raise; otherwise every name of the listing union is visited.
   */
  function Plan(hostRoot: string, guestRoot: string, path: string, host: Option<Node>, guest: Option<Node>): Run
    decreases NodeDepth(host) + NodeDepth(guest), 0, 0
  {
    var hostDir, guestDir := HostDir(hostRoot, path), GuestDir(guestRoot, path);
    if guest.None? then Run([Upload(hostDir, guestDir, true)], false)
    else if host.None? then Run([Download(guestDir, hostDir, true)], false)
    else if host.value.File? then Run([], true)
    else
      var lv := Level(Chomp(path), hostDir, guestDir, host.value.entries, Children(guest));
      Run(EntriesPlan(hostRoot, guestRoot, lv, Union(GuestListing(guest), Names(host.value.entries))), false)
  }

  /** The loop over the listing union, for the first `|names|` names. */
  function EntriesPlan(hostRoot: string, guestRoot: string, lv: Level, names: seq<string>): seq<Action>
    decreases LevelDepth(lv), 2, |names|
  {
    if names == [] then []
    else EntriesPlan(hostRoot, guestRoot, lv, names[..|names| - 1]) + EntryPlan(hostRoot, guestRoot, lv, names[|names| - 1])
  }

  /** One iteration: skip dot entries, recurse where needed, then compare. */
  function EntryPlan(hostRoot: string, guestRoot: string, lv: Level, name: string): seq<Action>
    decreases LevelDepth(lv), 1, 0
  {
    if IsDot(name) then []
    else
      var h, g := Lookup(lv.hostEntries, name), Lookup(lv.guestEntries, name);
      LookupDepth(lv.hostEntries, name);
      LookupDepth(lv.guestEntries, name);
      (if Recurses(h, g) then Plan(hostRoot, guestRoot, lv.path + "/" + name, h, g).actions else [])
        + TransferActions(Join(lv.hostDir, name), Join(lv.guestDir, name), Mtime(h), Mtime(g))
  }

  /**
   * `All#execute(path)` against the trees at that path.  Proved to perform
   * exactly `Plan`'s calls; `raised` reports the `Dir.entries` failure.
   */
  method Execute(b: Base, path: string, host: Option<Node>, guest: Option<Node>) returns (raised: bool)
    modifies b
    decreases NodeDepth(host) + NodeDepth(guest), 0
    ensures b.log == old(b.log) + Plan(b.hostRoot, b.guestRoot, path, host, guest).actions
    ensures raised == Plan(b.hostRoot, b.guestRoot, path, host, guest).raised
  {
    var p := Chomp(path);
    var hostDir := Chomp(b.HostPath(p));
    var guestDir := Chomp(b.GuestPath(p));
    if guest.None? {
      b.log := b.log + [Upload(hostDir, guestDir, true)];
      return false;
    }
    if host.None? {
      b.log := b.log + [Download(guestDir, hostDir, true)];
      return false;
    }
    if host.value.File? {
      return true;
    }
    var allFiles := Union(GuestListing(guest), Names(host.value.entries));
    VisitAll(b, Level(p, hostDir, guestDir, host.value.entries, Children(guest)), allFiles);
    return false;
  }

  /** The loop of `execute` over the listing union `allFiles`. */
  method VisitAll(b: Base, lv: Level, allFiles: seq<string>)
    modifies b
    decreases LevelDepth(lv), 3
    ensures b.log == old(b.log) + EntriesPlan(b.hostRoot, b.guestRoot, lv, allFiles)
  {
    for i := 0 to |allFiles|
      invariant b.log == old(b.log) + EntriesPlan(b.hostRoot, b.guestRoot, lv, allFiles[..i])
    {
      ghost var before := b.log;
      Visit(b, lv, allFiles[i]);
      LogStep(b.hostRoot, b.guestRoot, lv, allFiles, i, old(b.log), before, b.log);
    }
    assert allFiles[..|allFiles|] == allFiles;
  }

  /** One pass of the loop in `execute`, for the entry `file`. */
  method Visit(b: Base, lv: Level, file: string)
    modifies b
    decreases LevelDepth(lv), 2
    ensures b.log == old(b.log) + EntryPlan(b.hostRoot, b.guestRoot, lv, file)
  {
    if IsDot(file) {
      return;
    }
    var hostFile := Join(lv.hostDir, file);
    var guestFile := Join(lv.guestDir, file);
    var h, g := Lookup(lv.hostEntries, file), Lookup(lv.guestEntries, file);
    ghost var sub := Descend(b, lv, file, h, g);
    b.CompareAndTransfer(hostFile, guestFile, Mtime(h), Mtime(g));
    EntryPlanSplit(b.hostRoot, b.guestRoot, lv, file, sub);
  }

  /** The recursive call for an entry that is a directory on one side; `sub` is what it logged. */
  method Descend(b: Base, lv: Level, file: string, h: Option<Node>, g: Option<Node>) returns (ghost sub: seq<Action>)
    requires h == Lookup(lv.hostEntries, file) && g == Lookup(lv.guestEntries, file)
    modifies b
    decreases LevelDepth(lv), 1
    ensures sub == if Recurses(h, g) then Plan(b.hostRoot, b.guestRoot, lv.path + "/" + file, h, g).actions else []
    ensures b.log == old(b.log) + sub
  {
    if IsDir(h) || (h.None? && IsDir(g)) {
      LookupDepth(lv.hostEntries, file);
      LookupDepth(lv.guestEntries, file);
      var nested := Execute(b, lv.path + "/" + file, h, g);
      RecursionNeverRaises(b.hostRoot, b.guestRoot, lv.path + "/" + file, h, g);
      assert !nested;
      sub := Plan(b.hostRoot, b.guestRoot, lv.path + "/" + file, h, g).actions;
    } else {
      sub := [];
    }
  }

  lemma LogStep(hostRoot: string, guestRoot: string, lv: Level, names: seq<string>, i: nat,
                start: seq<Action>, before: seq<Action>, after: seq<Action>)
    requires i < |names|
    requires before == start + EntriesPlan(hostRoot, guestRoot, lv, names[..i])
    requires after == before + EntryPlan(hostRoot, guestRoot, lv, names[i])
    ensures after == start + EntriesPlan(hostRoot, guestRoot, lv, names[..i + 1])
  {
    EntriesPlanStep(hostRoot, guestRoot, lv, names, i);
  }

  lemma EntriesPlanStep(hostRoot: string, guestRoot: string, lv: Level, names: seq<string>, i: nat)
    requires i < |names|
    ensures EntriesPlan(hostRoot, guestRoot, lv, names[..i + 1])
         == EntriesPlan(hostRoot, guestRoot, lv, names[..i]) + EntryPlan(hostRoot, guestRoot, lv, names[i])
  {
    assert names[..i + 1][..i] == names[..i];
  }

  lemma EntryPlanSplit(hostRoot: string, guestRoot: string, lv: Level, name: string, sub: seq<Action>)
    requires !IsDot(name)
    requires var h, g := Lookup(lv.hostEntries, name), Lookup(lv.guestEntries, name);
      sub == if Recurses(h, g) then Plan(hostRoot, guestRoot, lv.path + "/" + name, h, g).actions else []
    ensures EntryPlan(hostRoot, guestRoot, lv, name)
         == sub + TransferActions(Join(lv.hostDir, name), Join(lv.guestDir, name),
                                  Mtime(Lookup(lv.hostEntries, name)), Mtime(Lookup(lv.guestEntries, name)))
  {
  }

  /** Each name of a listing is its entry's name, position by position. */
  lemma {:induction false} NamesAt(entries: seq<Entry>)
    ensures |Names(entries)| == |entries|
    ensures forall i :: 0 <= i < |entries| ==> Names(entries)[i] == entries[i].name
    decreases |entries|
  {
    if entries != [] {
      NamesAt(entries[..|entries| - 1]);
    }
  }

  /** A name is found in a directory exactly when the directory lists it. */
  lemma {:induction false} LookupFound(entries: seq<Entry>, name: string)
    ensures Lookup(entries, name).Some? <==> name in Names(entries)
    decreases |entries|
  {
    NamesAt(entries);
    if entries != [] && entries[0].name != name {
      LookupFound(entries[1..], name);
      NamesAt(entries[1..]);
      if name in Names(entries) {
        var i :| 0 <= i < |entries| && Names(entries)[i] == name;
        assert Names(entries[1..])[i - 1] == name;
      }
      if name in Names(entries[1..]) {
        var i :| 0 <= i < |entries| - 1 && Names(entries[1..])[i] == name;
        assert Names(entries)[i + 1] == name;
      }
    }
  }

  /** `Array#|` keeps every name of either side, and each only once. */
  lemma {:induction false} DedupFacts(s: seq<string>)
    ensures forall x :: x in Dedup(s) <==> x in s
    ensures forall i, j :: 0 <= i < j < |Dedup(s)| ==> Dedup(s)[i] != Dedup(s)[j]
    decreases |s|
  {
    if s != [] {
      DedupFacts(s[..|s| - 1]);
      assert s == s[..|s| - 1] + [s[|s| - 1]];
    }
  }

  /**
   * The union starts with the guest listing (duplicates dropped, order
   * kept); every name after that is a host name the guest does not list.
   */
  lemma {:induction false} UnionGuestFirst(guestNames: seq<string>, hostNames: seq<string>)
    ensures Dedup(guestNames) <= Union(guestNames, hostNames)
    ensures forall k :: |Dedup(guestNames)| <= k < |Union(guestNames, hostNames)| ==>
      Union(guestNames, hostNames)[k] in hostNames && Union(guestNames, hostNames)[k] !in guestNames
    decreases |hostNames|
  {
    if hostNames == [] {
      assert guestNames + hostNames == guestNames;
    } else {
      var init := hostNames[..|hostNames| - 1];
      UnionGuestFirst(guestNames, init);
      assert (guestNames + hostNames)[..|guestNames + hostNames| - 1] == guestNames + init;
      DedupFacts(guestNames + init);
    }
  }

  /** The names the loop does not skip. */
  function WithoutDots(names: seq<string>): seq<string>
  {
    if names == [] then []
    else WithoutDots(names[..|names| - 1]) + (if IsDot(names[|names| - 1]) then [] else [names[|names| - 1]])
  }

  /** The "." and ".." entries contribute nothing: the loop does what it does on the listing without them. */
  lemma {:induction false} DotsSkipped(hostRoot: string, guestRoot: string, lv: Level, names: seq<string>)
    ensures EntriesPlan(hostRoot, guestRoot, lv, names) == EntriesPlan(hostRoot, guestRoot, lv, WithoutDots(names))
    decreases |names|
  {
    if names != [] {
      var init, last := names[..|names| - 1], names[|names| - 1];
      DotsSkipped(hostRoot, guestRoot, lv, init);
      assert EntriesPlan(hostRoot, guestRoot, lv, names)
          == EntriesPlan(hostRoot, guestRoot, lv, init) + EntryPlan(hostRoot, guestRoot, lv, last);
      if !IsDot(last) {
        var kept := WithoutDots(init) + [last];
        assert WithoutDots(names) == kept;
        assert kept[..|kept| - 1] == WithoutDots(init);
        assert EntriesPlan(hostRoot, guestRoot, lv, kept)
            == EntriesPlan(hostRoot, guestRoot, lv, WithoutDots(init)) + EntryPlan(hostRoot, guestRoot, lv, last);
      } else {
        assert WithoutDots(names) == WithoutDots(init);
        assert EntryPlan(hostRoot, guestRoot, lv, last) == [];
        assert EntriesPlan(hostRoot, guestRoot, lv, names) == EntriesPlan(hostRoot, guestRoot, lv, init);
      }
    }
  }

  /** A directory that is identical on both sides is already mirrored: no call is made, nothing raises. */
  lemma {:induction false} IdenticalInSync(hostRoot: string, guestRoot: string, path: string, mtime: int, entries: seq<Entry>)
    ensures Plan(hostRoot, guestRoot, path, Some(Dir(mtime, entries)), Some(Dir(mtime, entries))) == Run([], false)
    decreases 2 * Depth(Dir(mtime, entries)), 0
  {
    var lv := Level(Chomp(path), HostDir(hostRoot, path), GuestDir(guestRoot, path), entries, entries);
    DedupFacts(Names(entries) + Names(entries));
    IdenticalEntriesInSync(hostRoot, guestRoot, lv, Union(Names(entries), Names(entries)));
  }

  lemma {:induction false} IdenticalEntriesInSync(hostRoot: string, guestRoot: string, lv: Level, names: seq<string>)
    requires lv.hostEntries == lv.guestEntries
    requires forall n :: n in names ==> n in Names(lv.hostEntries)
    ensures EntriesPlan(hostRoot, guestRoot, lv, names) == []
    decreases LevelDepth(lv), 1, |names|
  {
    if names != [] {
      var name := names[|names| - 1];
      IdenticalEntriesInSync(hostRoot, guestRoot, lv, names[..|names| - 1]);
      if !IsDot(name) {
        var h := Lookup(lv.hostEntries, name);
        LookupFound(lv.hostEntries, name);
        LookupDepth(lv.hostEntries, name);
        if h.value.Dir? {
          IdenticalInSync(hostRoot, guestRoot, lv.path + "/" + name, h.value.mtime, h.value.entries);
        }
        assert Decide(Mtime(h), Mtime(h)) == InSync;
      }
    }
  }

  /**
   * The fast paths: a missing guest directory is uploaded whole and a
   * missing host directory (under an existing guest one) downloaded whole,
   * each as the only call, with the mtime flag set and nothing listed.
   */
  lemma FastPaths(hostRoot: string, guestRoot: string, path: string, host: Option<Node>, guest: Option<Node>)
    ensures guest.None? ==>
      Plan(hostRoot, guestRoot, path, host, guest) == Run([Upload(HostDir(hostRoot, path), GuestDir(guestRoot, path), true)], false)
    ensures guest.Some? && host.None? ==>
      Plan(hostRoot, guestRoot, path, host, guest) == Run([Download(GuestDir(guestRoot, path), HostDir(hostRoot, path), true)], false)
    ensures Plan(hostRoot, guestRoot, path, host, guest).raised <==> guest.Some? && host.Some? && host.value.File?
  {
  }

  /**
   * A recursive `execute` never reaches `Dir.entries` on a host file: it
   * recurses only where the host entry is a directory or missing, so the
   * abort can only happen in the outermost call.
   */
  lemma RecursionNeverRaises(hostRoot: string, guestRoot: string, path: string, host: Option<Node>, guest: Option<Node>)
    requires Recurses(host, guest)
    ensures !Plan(hostRoot, guestRoot, path, host, guest).raised
  {
  }

  /**
   * An entry that is a plain file on the host is never descended into,
   * even when the guest has a directory of that name: only the policy runs.
   */
  lemma HostFileNotDescended(hostRoot: string, guestRoot: string, lv: Level, name: string)
    requires !IsDot(name)
    requires Lookup(lv.hostEntries, name).Some? && Lookup(lv.hostEntries, name).value.File?
    ensures EntryPlan(hostRoot, guestRoot, lv, name)
         == TransferActions(Join(lv.hostDir, name), Join(lv.guestDir, name),
                            Mtime(Lookup(lv.hostEntries, name)), Mtime(Lookup(lv.guestEntries, name)))
  {
    EntryPlanSplit(hostRoot, guestRoot, lv, name, []);
  }

  /** `execute('/')`, the call the middleware makes, is the same as a call on the empty path, and resolves the two roots. */
  lemma RootPath(hostRoot: string, guestRoot: string, host: Option<Node>, guest: Option<Node>)
    ensures Plan(hostRoot, guestRoot, "/", host, guest) == Plan(hostRoot, guestRoot, "", host, guest)
    ensures HostDir(hostRoot, "/") == if EndsWithSep(hostRoot) then hostRoot[..|hostRoot| - 1] else hostRoot
    ensures GuestDir(guestRoot, "/") == if EndsWithSep(guestRoot) then guestRoot[..|guestRoot| - 1] else guestRoot
  {
    assert Chomp("/") == "";
    RootDir(hostRoot);
    RootDir(guestRoot);
  }

  /**
   * The recursive call for entry `name` resolves exactly the path the loop
   * looked the entry up under, so the nodes handed down are the right ones.
   */
  lemma DescendResolves(root: string, path: string, name: string)
    requires NoDoubleTrailingSep(root) && !EndsWithSep(Chomp(path)) && PlainName(name)
    ensures HostDir(root, Chomp(path) + "/" + name) == Join(HostDir(root, path), name)
  {
    var p := Chomp(path);
    AppendNameNoTrailingSep(p + "/", name);
    assert p + "/" + name == (p + "/") + name;
    DescendAgrees(root, p, name);
  }
}
