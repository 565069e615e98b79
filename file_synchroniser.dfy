/**
 * `Vagrant::Mirror::FileSynchroniser`: the older per-file helpers.  The
 * synchroniser's roots are fixed at construction, so it is a value; the SSH
 * channel's `exec!` is a function from command line to reply.
 */
module FileSynchroniser {
  import opened Wrappers
  import opened RubyPaths
  import SyncBase

  /** What `exec!` hands back: a number, or any other output (such as an error message). */
  datatype ExecReply = Number(n: int) | Output(text: string)

  /** The hash `absolute_paths` returns, with its `:host` and `:guest` keys. */
  datatype AbsolutePaths = AbsolutePaths(host: string, guest: string)

  /** The command `guest_mtime` runs on the guest. */
  function StatCommand(path: string): string
  {
    "stat -c %Y " + path
  }

  datatype Synchroniser = Synchroniser(hostRoot: string, guestRoot: string)
  {
    /** `absolute_paths(relative_path)`: the relative path joined onto each root. */
    function Absolute(relativePath: string): AbsolutePaths
    {
      AbsolutePaths(Join(hostRoot, relativePath), Join(guestRoot, relativePath))
    }

    /**
     * `host_mtime`: the same lookup as `Sync::Base#host_mtime`, so it
     * delegates to `SyncBase.HostMtime`, whose contract states it.
     */
    function HostMtime(hostFs: map<string, int>, path: string): Option<int>
    {
      SyncBase.HostMtime(hostFs, path)
    }

    /** `guest_mtime`: runs `stat -c %Y <path>` and keeps the reply only when it is numeric. */
    function GuestMtime(exec: string -> ExecReply, path: string): (t: Option<int>)
      ensures t.Some? <==> exec(StatCommand(path)).Number?
      ensures t.Some? ==> t.value == exec(StatCommand(path)).n
    {
      match exec(StatCommand(path))
      case Number(n) => Some(n)
      case Output(_) => None
    }
  }

  /**
   * Under a root without a trailing separator, a relative path without a
   * leading one is reached through exactly one '/'.
   */
  lemma AbsoluteUnderRoots(s: Synchroniser, relativePath: string)
    requires !EndsWithSep(s.hostRoot) && !EndsWithSep(s.guestRoot) && !StartsWithSep(relativePath)
    ensures s.Absolute(relativePath) == AbsolutePaths(s.hostRoot + "/" + relativePath, s.guestRoot + "/" + relativePath)
  {
  }

  /** The paths agree with `Sync::Base#host_path` and `#guest_path` over the same roots. */
  lemma AbsoluteAgreesWithSync(s: Synchroniser, b: SyncBase.Base, relativePath: string)
    requires b.hostRoot == s.hostRoot && b.guestRoot == s.guestRoot
    ensures s.Absolute(relativePath) == AbsolutePaths(b.HostPath(relativePath), b.GuestPath(relativePath))
  {
  }

  /** A Windows-style root such as `C:\host` ends in no '/', so one '/' is put before the relative path. */
  lemma AbsoluteExample()
    ensures Synchroniser("C:\\host", "/var/guest").Absolute("path/to/my/file")
         == AbsolutePaths("C:\\host" + "/" + "path/to/my/file", "/var/guest" + "/" + "path/to/my/file")
  {
    var host, guest, rel := "C:\\host", "/var/guest", "path/to/my/file";
    assert !EndsWithSep(host) && !EndsWithSep(guest) && !StartsWithSep(rel);
    AbsoluteUnderRoots(Synchroniser(host, guest), rel);
  }

  /**
   * Only the reply to `stat -c %Y <path>` matters: two channels that give
   * the same reply to that one command give the same mtime.
   */
  lemma GuestMtimeAsksOnlyStat(s: Synchroniser, exec1: string -> ExecReply, exec2: string -> ExecReply, path: string)
    requires exec1(StatCommand(path)) == exec2(StatCommand(path))
    ensures s.GuestMtime(exec1, path) == s.GuestMtime(exec2, path)
  {
  }
}
