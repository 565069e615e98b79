/**
 * `Vagrant::Mirror::Rsync`: the rsync command run on the guest to copy a
 * path from the shared folder into the mirror.  Whether a host path is a
 * directory is given as the set of host directories.
 */
module Rsync {
  import opened Wrappers
  import opened RubyPaths
  import opened MirrorConfig

  /** `"--exclude '#{exclude}'"`. */
  function ExcludeArg(pattern: string): string
  {
    "--exclude '" + pattern + "'"
  }

  function ExcludeArgs(excludes: seq<string>): seq<string>
  {
    if excludes == [] then [] else ExcludeArgs(excludes[..|excludes| - 1]) + [ExcludeArg(excludes[|excludes| - 1])]
  }

  /** One exclude argument per pattern, in configuration order. */
  lemma {:induction false} ExcludeArgsAt(excludes: seq<string>)
    ensures |ExcludeArgs(excludes)| == |excludes|
    ensures forall i :: 0 <= i < |excludes| ==> ExcludeArgs(excludes)[i] == ExcludeArg(excludes[i])
    decreases |excludes|
  {
    if excludes != [] {
      ExcludeArgsAt(excludes[..|excludes| - 1]);
    }
  }

  /** The constructor's loop building `@exclude_args`. */
  method BuildExcludeArgs(excludes: seq<string>) returns (args: seq<string>)
    ensures args == ExcludeArgs(excludes)
  {
    args := [];
    for i := 0 to |excludes|
      invariant args == ExcludeArgs(excludes[..i])
    {
      assert excludes[..i + 1][..i] == excludes[..i];
      args := args + [ExcludeArg(excludes[i])];
    }
    assert excludes[..|excludes|] == excludes;
  }

  /** `path.sub!(/^\//, '')`: one leading '/' removed. */
  function StripLeadingSep(path: string): string
  {
    if StartsWithSep(path) then path[1..] else path
  }

  /** `"#{x}"`: nil interpolates as the empty string. */
  function Interpolate(s: Option<string>): string
  {
    if s.Some? then s.value else ""
  }

  /** Each word preceded by one space. */
  function Spaced(words: seq<string>): string
  {
    if words == [] then "" else Spaced(words[..|words| - 1]) + " " + words[|words| - 1]
  }

  /** `Array#join(' ')`: the first word, then a space before each later one. */
  function JoinWords(words: seq<string>): string
  {
    if words == [] then "" else words[0] + Spaced(words[1..])
  }

  lemma {:induction false} SpacedAppend(a: seq<string>, b: seq<string>)
    ensures Spaced(a + b) == Spaced(a) + Spaced(b)
    decreases |b|
  {
    if b == [] {
      assert a + b == a;
    } else {
      var init := b[..|b| - 1];
      SpacedAppend(a, init);
      assert (a + b)[..|a + b| - 1] == a + init;
      assert (a + b)[|a + b| - 1] == b[|b| - 1];
    }
  }

  /** The source and destination of a run on the stripped path `p`. */
  datatype Endpoints = Endpoints(source: string, dest: string)

  /** `guest_sf_path/path` and `guest_path/path`, each with a trailing '/' when `p` names a host directory. */
  function RunEndpoints(guestSfPath: string, hostPath: string, guestPath: string, p: string, hostDirs: set<string>): Endpoints
  {
    var slash := if p != "" && Join(hostPath, p) in hostDirs then "/" else "";
    Endpoints(guestSfPath + "/" + p + slash, guestPath + "/" + p + slash)
  }

  /** The arguments of `run(path)`, before they are joined. */
  function RunArgs(guestSfPath: string, hostPath: string, guestPath: string, delete: bool, excludeArgs: seq<string>,
                   path: string, hostDirs: set<string>): seq<string>
  {
    var ends := RunEndpoints(guestSfPath, hostPath, guestPath, StripLeadingSep(path), hostDirs);
    ["rsync -av"] + (if delete then ["--del"] else []) + excludeArgs + [ends.source, ends.dest]
  }

  /** The command `run(path)` passes to `sudo`. */
  function Command(guestSfPath: string, hostPath: string, guestPath: string, delete: bool, excludeArgs: seq<string>,
                   path: string, hostDirs: set<string>): string
  {
    JoinWords(RunArgs(guestSfPath, hostPath, guestPath, delete, excludeArgs, path, hostDirs))
  }

  lemma SpacedPair(a: string, b: string)
    ensures Spaced([a, b]) == " " + a + " " + b
  {
    assert [a, b][..1] == [a];
    assert [a][..0] == [];
    assert Spaced([a]) == " " + a;
  }

  lemma SpacedFlags(delete: bool)
    ensures Spaced(if delete then ["--del"] else []) == (if delete then " --del" else "")
  {
    if delete {
      assert ["--del"][..0] == [];
    }
  }

  /** Joining `["rsync -av"] + flags + rest` puts a space before each later word. */
  lemma JoinWordsHead(head: string, flags: seq<string>, rest: seq<string>)
    ensures JoinWords([head] + flags + rest) == head + Spaced(flags) + Spaced(rest)
  {
    var words := [head] + flags + rest;
    calc {
      JoinWords(words);
    == { assert words[0] == head; }
      head + Spaced(words[1..]);
    == { assert words[1..] == flags + rest; }
      head + Spaced(flags + rest);
    == { SpacedAppend(flags, rest); }
      head + Spaced(flags) + Spaced(rest);
    }
  }

  /**
   * The command is `rsync -av`, then `--del` when deleting, then the
   * exclude arguments, then source and destination, separated by single
   * spaces.
   */
  lemma CommandShape(guestSfPath: string, hostPath: string, guestPath: string, delete: bool, excludeArgs: seq<string>,
                     path: string, hostDirs: set<string>)
    ensures var ends := RunEndpoints(guestSfPath, hostPath, guestPath, StripLeadingSep(path), hostDirs);
      Command(guestSfPath, hostPath, guestPath, delete, excludeArgs, path, hostDirs)
        == "rsync -av" + (if delete then " --del" else "") + Spaced(excludeArgs) + " " + ends.source + " " + ends.dest
  {
    var ends := RunEndpoints(guestSfPath, hostPath, guestPath, StripLeadingSep(path), hostDirs);
    var flags := if delete then ["--del"] else [];
    var rest := excludeArgs + [ends.source, ends.dest];
    calc {
      Command(guestSfPath, hostPath, guestPath, delete, excludeArgs, path, hostDirs);
    ==
      JoinWords(["rsync -av"] + flags + excludeArgs + [ends.source, ends.dest]);
    == { assert ["rsync -av"] + flags + excludeArgs + [ends.source, ends.dest] == ["rsync -av"] + flags + rest; }
      JoinWords(["rsync -av"] + flags + rest);
    == { JoinWordsHead("rsync -av", flags, rest); }
      "rsync -av" + Spaced(flags) + Spaced(rest);
    == { SpacedAppend(excludeArgs, [ends.source, ends.dest]); SpacedPair(ends.source, ends.dest); }
      "rsync -av" + Spaced(flags) + (Spaced(excludeArgs) + (" " + ends.source + " " + ends.dest));
    == { SpacedFlags(delete); }
      "rsync -av" + (if delete then " --del" else "") + Spaced(excludeArgs) + " " + ends.source + " " + ends.dest;
    }
  }

  /**
   * A leading '/' makes no difference: `run('/x')` runs what `run('x')`
   * runs, so `'/'` and `''` both copy the whole share.  The trailing '/' is
   * added exactly when the stripped path is non-empty and a host directory.
   */
  lemma LeadingSepIgnored(guestSfPath: string, hostPath: string, guestPath: string, delete: bool, excludeArgs: seq<string>,
                          path: string, hostDirs: set<string>)
    requires !StartsWithSep(path)
    ensures Command(guestSfPath, hostPath, guestPath, delete, excludeArgs, "/" + path, hostDirs)
         == Command(guestSfPath, hostPath, guestPath, delete, excludeArgs, path, hostDirs)
    ensures var ends := RunEndpoints(guestSfPath, hostPath, guestPath, path, hostDirs);
      && (ends.source == guestSfPath + "/" + path + "/" <==> (path != "" && Join(hostPath, path) in hostDirs))
      && (ends.dest == guestPath + "/" + path + "/" <==> (path != "" && Join(hostPath, path) in hostDirs))
  {
    assert ("/" + path)[1..] == path;
    var ends := RunEndpoints(guestSfPath, hostPath, guestPath, path, hostDirs);
    if !(path != "" && Join(hostPath, path) in hostDirs) {
      assert |ends.source| < |guestSfPath + "/" + path + "/"|;
      assert |ends.dest| < |guestPath + "/" + path + "/"|;
    }
  }

  /** A host directory is copied with trailing separators on both sides, so rsync copies its contents. */
  lemma DirectoryExample()
    ensures RunEndpoints("/vagrant", "c:/vagrant", "/var/vagrant", StripLeadingSep("dir"), {"c:/vagrant/dir"})
         == Endpoints("/vagrant/dir/", "/var/vagrant/dir/")
  {
    assert Join("c:/vagrant", "dir") == "c:/vagrant/dir";
  }

  /** A path that is not a host directory is copied without trailing separators. */
  lemma FileExample()
    ensures RunEndpoints("/vagrant", "c:/vagrant", "/var/vagrant", StripLeadingSep("file"), {"c:/vagrant/dir"})
         == Endpoints("/vagrant/file", "/var/vagrant/file")
  {
    assert Join("c:/vagrant", "file") == "c:/vagrant/file";
  }

  /** The root path `/` is copied with trailing separators on both sides. */
  lemma RootExample(hostDirs: set<string>)
    ensures RunEndpoints("/vagrant", "c:/vagrant", "/var/vagrant", StripLeadingSep("/"), hostDirs)
         == Endpoints("/vagrant/", "/var/vagrant/")
  {
  }

  /** Excludes are quoted and passed in order. */
  lemma ExcludeExample()
    ensures Spaced(ExcludeArgs(["/.git", "cache"])) == " " + ExcludeArg("/.git") + " " + ExcludeArg("cache")
  {
    ExcludeArgsAt(["/.git", "cache"]);
    SpacedPair(ExcludeArg("/.git"), ExcludeArg("cache"));
  }

  /** `Vagrant::Mirror::Rsync` for one mirrored folder, and the commands it has run with `sudo`. */
  class Rsync {
    const guestSfPath: string
    const hostPath: string
    const delete: bool
    const excludes: seq<string>
    const guestPath: string
    const excludeArgs: seq<string>
    var sudo: seq<string>

    constructor (guestSfPath: string, hostPath: string, folder: Folder)
      ensures this.guestSfPath == guestSfPath && this.hostPath == hostPath
      ensures delete == folder.delete && excludes == folder.exclude && guestPath == Interpolate(folder.guestPath)
      ensures excludeArgs == ExcludeArgs(folder.exclude) && sudo == []
    {
      this.guestSfPath := guestSfPath;
      this.hostPath := hostPath;
      delete := folder.delete;
      excludes := folder.exclude;
      guestPath := Interpolate(folder.guestPath);
      var args := BuildExcludeArgs(folder.exclude);
      excludeArgs := args;
      sudo := [];
    }

    /** `run(path)`: exactly one `sudo` call, with the command for that path. */
    method Run(path: string, hostDirs: set<string>)
      modifies this
      ensures sudo == old(sudo) + [Command(guestSfPath, hostPath, guestPath, delete, excludeArgs, path, hostDirs)]
    {
      var p := StripLeadingSep(path);
      var source := guestSfPath + "/" + p;
      var dest := guestPath + "/" + p;
      if p != "" && Join(hostPath, p) in hostDirs {
        source := source + "/";
        dest := dest + "/";
      }
      ghost var ends := RunEndpoints(guestSfPath, hostPath, guestPath, p, hostDirs);
      assert source == ends.source && dest == ends.dest;
      var args := ["rsync -av"];
      if delete {
        args := args + ["--del"];
      }
      args := args + excludeArgs;
      args := args + [source];
      args := args + [dest];
      assert args == RunArgs(guestSfPath, hostPath, guestPath, delete, excludeArgs, path, hostDirs);
      sudo := sudo + [JoinWords(args)];
    }
  }
}
