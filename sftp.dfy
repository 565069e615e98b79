/**
 * `Connection::SFTP`: the guest side of the mirror.  The Net::SFTP session
 * is foreign: its calls are recorded in a log, and the answers it gives
 * (`stat!` replies, directory listings) are parameters.
 */
module Sftp {
  import opened Wrappers
  import opened StatQueue

  /** Attributes `stat!` reports. */
  datatype Attrs = Attrs(mtime: int, isDirectory: bool)

  /** What `stat!` on a guest path does: answer, or raise a `StatusException` with a code. */
  datatype StatReply = Found(attrs: Attrs) | Status(code: int)

  /** `Net::SFTP::Constants::StatusCodes::FX_NO_SUCH_FILE`. */
  const FX_NO_SUCH_FILE: int := 2

  /** The exceptions that leave these methods. */
  datatype Failure = StatusException(code: int) | NoMethodError

  /**
   * The mtime argument: a `Time` (whole seconds), or the `true`/`false`
   * the sync classes pass, on which Ruby defines no `to_i`.
   */
  datatype MtimeArg = Seconds(seconds: int) | Flag(flag: bool)

  function ToI(m: MtimeArg): Result<int, Failure>
  {
    match m
    case Seconds(t) => Ok(t)
    case Flag(_) => Err(NoMethodError)
  }

  /** `exists?`: a missing path is false; any other failure propagates. */
  function ExistsOf(reply: StatReply): Result<bool, Failure>
  {
    match reply
    case Found(_) => Ok(true)
    case Status(code) => if code == FX_NO_SUCH_FILE then Ok(false) else Err(StatusException(code))
  }

  /** `mtime`: a missing path is nil. */
  function MtimeOf(reply: StatReply): Result<Option<int>, Failure>
  {
    match reply
    case Found(attrs) => Ok(Some(attrs.mtime))
    case Status(code) => if code == FX_NO_SUCH_FILE then Ok(None) else Err(StatusException(code))
  }

  /** `directory?`: a missing path is false. */
  function DirectoryOf(reply: StatReply): Result<bool, Failure>
  {
    match reply
    case Found(attrs) => Ok(attrs.isDirectory)
    case Status(code) => if code == FX_NO_SUCH_FILE then Ok(false) else Err(StatusException(code))
  }

  /**
   * The three queries agree on the same reply: they raise together, and
   * then with the same code; a path is missing for `exists?` exactly when
   * `mtime` is nil, exactly when the status was "no such file"; and a
   * directory exists.
   */
  lemma QueriesAgree(reply: StatReply)
    ensures ExistsOf(reply).Err? <==> MtimeOf(reply).Err?
    ensures ExistsOf(reply).Err? <==> DirectoryOf(reply).Err?
    ensures ExistsOf(reply).Err? ==> ExistsOf(reply).error == MtimeOf(reply).error == DirectoryOf(reply).error == StatusException(reply.code)
    ensures ExistsOf(reply) == Ok(false) <==> MtimeOf(reply) == Ok(None)
    ensures ExistsOf(reply) == Ok(false) <==> reply == Status(FX_NO_SUCH_FILE)
    ensures DirectoryOf(reply) == Ok(true) ==> ExistsOf(reply) == Ok(true)
  {
  }

  /** An entry of a guest directory listing. */
  datatype DirEntry = DirEntry(name: string, attrs: Attrs)

  /** What `dir.entries` does: list the directory, or raise with a status code. */
  datatype Listing = Listed(entries: seq<DirEntry>) | ListFailed(code: int)

  function EntryNames(entries: seq<DirEntry>): seq<string>
  {
    if entries == [] then [] else EntryNames(entries[..|entries| - 1]) + [entries[|entries| - 1].name]
  }

  /** One name per listed entry, in listing order. */
  lemma {:induction false} EntryNamesAt(entries: seq<DirEntry>)
    ensures |EntryNames(entries)| == |entries|
    ensures forall i :: 0 <= i < |entries| ==> EntryNames(entries)[i] == entries[i].name
    decreases |entries|
  {
    if entries != [] {
      EntryNamesAt(entries[..|entries| - 1]);
    }
  }

  /** The cached session: its identity, and whether its socket was closed. */
  datatype Session = Session(id: nat, closed: bool)

  /** `@connection`, and how many sessions have been started so far. */
  datatype Link = Link(session: Option<Session>, started: nat)

  predicate IsOpen(l: Link) { l.session.Some? && !l.session.value.closed }

  /** `connection`: the cached session while it is open; otherwise a new one, which is then cached. */
  function Connected(l: Link): Link
  {
    if IsOpen(l) then l else Link(Some(Session(l.started, false)), l.started + 1)
  }

  /**
   * After `connection` the cached session is open; asking again returns
   * the same session and starts none; a session is started exactly when
   * none was open, and then it is a new one.
   */
  lemma ConnectedReuses(l: Link)
    ensures IsOpen(Connected(l))
    ensures Connected(Connected(l)) == Connected(l)
    ensures IsOpen(l) <==> Connected(l).started == l.started
    ensures !IsOpen(l) ==> Connected(l).session.value.id == l.started
    ensures l.session.Some? && l.session.value.id < l.started ==> Connected(l).session.value.id < Connected(l).started
  {
  }

  /** The kind of transfer whose file was closed. */
  datatype TransferKind = UploadTransfer | DownloadTransfer | OtherTransfer

  /** Calls on the session and on the UI, in the order made. */
  datatype Call =
    | Put(hostPath: string, guestPath: string)
    | Get(guestPath: string, hostPath: string)
    | RemoteSetStat(path: string, stat: Stat)
    | LocalUtime(path: string, mtime: int)
    | MakeDir(path: string)
    | Rmdir(path: string)
    | Remove(path: string)
    | Loop
    | Info(line: string)
    | Warn(line: string)
    | UiError(line: string)

  const UnexpectedTransfer: string := "Unexpected transfer type passed to Vagrant::Mirror::Connection::SFTP.on_close"

  /** `Connection::SFTP`: the two stat queues, the cached session, and the calls made. */
  class Connection {
    var remoteStats: Pending
    var localStats: Pending
    var link: Link
    var calls: seq<Call>

    constructor ()
      ensures remoteStats == map[] && localStats == map[] && link == Link(None, 0) && calls == []
    {
      remoteStats := map[];
      localStats := map[];
      link := Link(None, 0);
      calls := [];
    }

    /** `connection` (and `connect`): reuse the cached session while it is open, or start and cache a new one. */
    method Connect() returns (s: Session)
      modifies this
      ensures link == Connected(old(link)) && s == link.session.value && !s.closed
      ensures remoteStats == old(remoteStats) && localStats == old(localStats) && calls == old(calls)
    {
      if link.session.Some? && !link.session.value.closed {
        return link.session.value;
      }
      s := Session(link.started, false);
      link := Link(Some(s), link.started + 1);
    }

    /**
     * An environment step, not a method of the source: the guest closes the
     * socket under the cached session, which `connection` must then notice.
     */
    method Dropped()
      modifies this
      ensures link == if old(link).session.Some? then Link(Some(old(link).session.value.(closed := true)), old(link).started) else old(link)
      ensures remoteStats == old(remoteStats) && localStats == old(localStats) && calls == old(calls)
    {
      if link.session.Some? {
        link := link.(session := Some(link.session.value.(closed := true)));
      }
    }

    /** `remote_stat_queue(file, stat = nil)`: with a stat, store it; without, pop the pending one. */
    method RemoteStatQueue(file: string, stat: Option<Stat>) returns (r: Option<Stat>)
      modifies this
      ensures stat.Some? ==> r == stat && remoteStats == Store(old(remoteStats), file, stat.value)
      ensures stat.None? ==> Taken(r, remoteStats) == Take(old(remoteStats), file)
      ensures localStats == old(localStats) && link == old(link) && calls == old(calls)
    {
      if stat.None? {
        r := if file in remoteStats then Some(remoteStats[file]) else None;
        if r.Some? {
          remoteStats := remoteStats - {file};
        }
      } else {
        remoteStats := remoteStats[file := stat.value];
        r := stat;
      }
    }

    /** `local_stat_queue(file, stat = nil)`: the same, on the host-side queue. */
    method LocalStatQueue(file: string, stat: Option<Stat>) returns (r: Option<Stat>)
      modifies this
      ensures stat.Some? ==> r == stat && localStats == Store(old(localStats), file, stat.value)
      ensures stat.None? ==> Taken(r, localStats) == Take(old(localStats), file)
      ensures remoteStats == old(remoteStats) && link == old(link) && calls == old(calls)
    {
      if stat.None? {
        r := if file in localStats then Some(localStats[file]) else None;
        if r.Some? {
          localStats := localStats - {file};
        }
      } else {
        localStats := localStats[file := stat.value];
        r := stat;
      }
    }

    /**
     * `upload(host_path, guest_path, mtime)`: queue the transfer, record the
     * stat to set on the guest once it completes (`now` is `Time.new`), log
     * it.  A flag for `mtime` raises once the transfer is queued.
     */
    method Upload(hostPath: string, guestPath: string, mtime: MtimeArg, now: int) returns (err: Option<Failure>)
      modifies this
      ensures link == Connected(old(link)) && localStats == old(localStats)
      ensures mtime.Seconds? ==>
        && err.None?
        && remoteStats == Store(old(remoteStats), guestPath, Stat(mtime.seconds, Some(now)))
        && calls == old(calls) + [Put(hostPath, guestPath), Info(">> " + hostPath)]
      ensures mtime.Flag? ==>
        && err == Some(NoMethodError)
        && remoteStats == old(remoteStats)
        && calls == old(calls) + [Put(hostPath, guestPath)]
    {
      var _ := Connect();
      calls := calls + [Put(hostPath, guestPath)];
      var seconds := ToI(mtime);
      if seconds.Err? {
        return Some(seconds.error);
      }
      var _ := RemoteStatQueue(guestPath, Some(Stat(seconds.value, Some(now))));
      calls := calls + [Info(">> " + hostPath)];
      return None;
    }

    /** `download(guest_path, host_path, mtime)`: the same towards the host; the host-side stat carries no atime. */
    method Download(guestPath: string, hostPath: string, mtime: MtimeArg) returns (err: Option<Failure>)
      modifies this
      ensures link == Connected(old(link)) && remoteStats == old(remoteStats)
      ensures mtime.Seconds? ==>
        && err.None?
        && localStats == Store(old(localStats), hostPath, Stat(mtime.seconds, None))
        && calls == old(calls) + [Get(guestPath, hostPath), Info("<< " + guestPath)]
      ensures mtime.Flag? ==>
        && err == Some(NoMethodError)
        && localStats == old(localStats)
        && calls == old(calls) + [Get(guestPath, hostPath)]
    {
      var _ := Connect();
      calls := calls + [Get(guestPath, hostPath)];
      var seconds := ToI(mtime);
      if seconds.Err? {
        return Some(seconds.error);
      }
      var _ := LocalStatQueue(hostPath, Some(Stat(seconds.value, None)));
      calls := calls + [Info("<< " + guestPath)];
      return None;
    }

    /** `exists?(path)`, given what `stat!` does on that path. */
    method Exists(path: string, reply: StatReply) returns (r: Result<bool, Failure>)
      modifies this
      ensures r == ExistsOf(reply)
      ensures link == Connected(old(link)) && remoteStats == old(remoteStats) && localStats == old(localStats) && calls == old(calls)
    {
      var _ := Connect();
      match reply {
        case Found(_) => return Ok(true);
        case Status(code) =>
          if code != FX_NO_SUCH_FILE {
            return Err(StatusException(code));
          }
      }
      return Ok(false);
    }

    /** `mtime(path)`. */
    method Mtime(path: string, reply: StatReply) returns (r: Result<Option<int>, Failure>)
      modifies this
      ensures r == MtimeOf(reply)
      ensures link == Connected(old(link)) && remoteStats == old(remoteStats) && localStats == old(localStats) && calls == old(calls)
    {
      var _ := Connect();
      match reply {
        case Found(attrs) => return Ok(Some(attrs.mtime));
        case Status(code) =>
          if code != FX_NO_SUCH_FILE {
            return Err(StatusException(code));
          }
      }
      return Ok(None);
    }

    /** `directory?(path)`. */
    method Directory(path: string, reply: StatReply) returns (r: Result<bool, Failure>)
      modifies this
      ensures r == DirectoryOf(reply)
      ensures link == Connected(old(link)) && remoteStats == old(remoteStats) && localStats == old(localStats) && calls == old(calls)
    {
      var _ := Connect();
      match reply {
        case Found(attrs) => return Ok(attrs.isDirectory);
        case Status(code) =>
          if code != FX_NO_SUCH_FILE {
            return Err(StatusException(code));
          }
      }
      return Ok(false);
    }

    /** `mkdir(path)`. */
    method Mkdir(path: string)
      modifies this
      ensures link == Connected(old(link)) && calls == old(calls) + [MakeDir(path)]
      ensures remoteStats == old(remoteStats) && localStats == old(localStats)
    {
      var _ := Connect();
      calls := calls + [MakeDir(path)];
    }

    /**
     * `dir_entries(path)`: the names of the listing in order; a missing
     * directory lists as empty; any other failure propagates.
     */
    method DirEntries(path: string, listing: Listing) returns (r: Result<seq<string>, Failure>)
      modifies this
      ensures listing.Listed? ==> r == Ok(EntryNames(listing.entries))
      ensures listing.ListFailed? && listing.code == FX_NO_SUCH_FILE ==> r == Ok([])
      ensures listing.ListFailed? && listing.code != FX_NO_SUCH_FILE ==> r == Err(StatusException(listing.code))
      ensures link == Connected(old(link)) && remoteStats == old(remoteStats) && localStats == old(localStats) && calls == old(calls)
    {
      var names: seq<string> := [];
      var _ := Connect();
      match listing {
        case ListFailed(code) =>
          if code != FX_NO_SUCH_FILE {
            return Err(StatusException(code));
          }
        case Listed(entries) =>
          for i := 0 to |entries|
            invariant names == EntryNames(entries[..i])
          {
            assert entries[..i + 1][..i] == entries[..i];
            names := names + [entries[i].name];
          }
          assert entries[..|entries|] == entries;
      }
      return Ok(names);
    }

    /**
     * `delete(path)`: one removal, chosen by `directory?` (`rmdir` with an
     * "XX" warning, else `remove` with an "xx" warning); a failing
     * `directory?` propagates and removes nothing.
     */
    method Delete(path: string, reply: StatReply) returns (err: Option<Failure>)
      modifies this
      ensures DirectoryOf(reply) == Ok(true) ==> err.None? && calls == old(calls) + [Rmdir(path), Warn("XX " + path)]
      ensures DirectoryOf(reply) == Ok(false) ==> err.None? && calls == old(calls) + [Remove(path), Warn("xx " + path)]
      ensures DirectoryOf(reply).Err? ==> err == Some(DirectoryOf(reply).error) && calls == old(calls)
      ensures link == Connected(old(link)) && remoteStats == old(remoteStats) && localStats == old(localStats)
    {
      var isDirectory := Directory(path, reply);
      if isDirectory.Err? {
        return Some(isDirectory.error);
      }
      ConnectedReuses(old(link));
      var _ := Connect();
      if isDirectory.value {
        calls := calls + [Rmdir(path), Warn("XX " + path)];
      } else {
        calls := calls + [Remove(path), Warn("xx " + path)];
      }
      return None;
    }

    /** `finish_transfers`: run the session's event loop until the queued transfers are done. */
    method FinishTransfers()
      modifies this
      ensures link == Connected(old(link)) && calls == old(calls) + [Loop]
      ensures remoteStats == old(remoteStats) && localStats == old(localStats)
    {
      var _ := Connect();
      calls := calls + [Loop];
    }

    /**
     * `on_close(transfer, file)`: an upload pops the guest-side stat for the
     * remote file and sets it once; a download pops the host-side stat for
     * the local file and sets its mtime; any other transfer logs an error
     * and leaves both queues alone.
     */
    method OnClose(kind: TransferKind, remote: string, local: string)
      modifies this
      ensures kind.UploadTransfer? ==>
        var t := Take(old(remoteStats), remote);
        remoteStats == t.rest && localStats == old(localStats)
        && calls == old(calls) + (if t.stat.Some? then [RemoteSetStat(remote, t.stat.value)] else [])
        && link == (if t.stat.Some? then Connected(old(link)) else old(link))
      ensures kind.DownloadTransfer? ==>
        var t := Take(old(localStats), local);
        localStats == t.rest && remoteStats == old(remoteStats) && link == old(link)
        && calls == old(calls) + (if t.stat.Some? then [LocalUtime(local, t.stat.value.mtime)] else [])
      ensures kind.OtherTransfer? ==>
        remoteStats == old(remoteStats) && localStats == old(localStats) && link == old(link)
        && calls == old(calls) + [UiError(UnexpectedTransfer)]
    {
      match kind {
        case UploadTransfer =>
          var stat := RemoteStatQueue(remote, None);
          if stat.Some? {
            var _ := Connect();
            calls := calls + [RemoteSetStat(remote, stat.value)];
          }
        case DownloadTransfer =>
          var stat := LocalStatQueue(local, None);
          if stat.Some? {
            calls := calls + [LocalUtime(local, stat.value.mtime)];
          }
        case OtherTransfer =>
          calls := calls + [UiError(UnexpectedTransfer)];
      }
    }
  }
}
