/**
 * The compare-and-transfer policy shared by both synchronisers
 * (`Sync::Base`).  The SFTP connection and the Vagrant UI are not modelled
 * here: every call the policy makes on them is appended to an action log.
 */
module SyncBase {
  import opened Wrappers
  import opened RubyPaths

  /** A call made on the connection, on the UI or on the host filesystem. */
  datatype Action =
    | Upload(hostPath: string, guestPath: string, mtime: bool)
    | Download(guestPath: string, hostPath: string, mtime: bool)
    | DeleteOnGuest(path: string)
    | DeleteOnHost(path: string)
    | UiError(message: Message)
    | UiInfo(message: Message)
    | FinishTransfers

  /** A line written to the UI; `Text` gives its exact wording. */
  datatype Message =
    | CannotSync(hostFile: string)
    | NothingToDeleteOnGuest(file: string)
    | NothingToDeleteOnHost(file: string)

  function Text(m: Message): string
  {
    match m
    case CannotSync(hostFile) => hostFile + " was not found on either the host or guest filesystem - cannot sync"
    case NothingToDeleteOnGuest(file) => file + " was not found on guest - nothing to delete"
    case NothingToDeleteOnHost(file) => file + " was not found on host - nothing to delete"
  }

  predicate IsTransfer(a: Action) { a.Upload? || a.Download? }

  /** The branch `compare_and_transfer` takes. */
  datatype Decision = NotFound | InSync | ToGuest | ToHost

  /**
   * The decision table on two optional mtimes in whole seconds.  The branches
   * are tried in the order the source writes them; the final "neither newer"
   * case cannot arise with integers and yields no transfer.
   */
  function Decide(hostTime: Option<int>, guestTime: Option<int>): (d: Decision)
    ensures d == NotFound <==> hostTime.None? && guestTime.None?
    ensures d == InSync <==> hostTime.Some? && hostTime == guestTime
    ensures d == ToGuest <==> hostTime.Some? && (guestTime.None? || guestTime.value < hostTime.value)
    ensures d == ToHost <==> guestTime.Some? && (hostTime.None? || hostTime.value < guestTime.value)
  {
    if hostTime.None? && guestTime.None? then NotFound
    else if hostTime == guestTime then InSync
    else if guestTime.None? then ToGuest
    else if hostTime.None? then ToHost
    else if hostTime.value > guestTime.value then ToGuest
    else if hostTime.value < guestTime.value then ToHost
    else InSync
  }

  /** The calls `compare_and_transfer(hostFile, guestFile)` makes, given what the two mtime lookups returned. */
  function TransferActions(hostFile: string, guestFile: string, hostTime: Option<int>, guestTime: Option<int>): seq<Action>
  {
    match Decide(hostTime, guestTime)
    case NotFound => [UiError(CannotSync(hostFile))]
    case InSync => []
    case ToGuest => [Upload(hostFile, guestFile, false)]
    case ToHost => [Download(guestFile, hostFile, false)]
  }

  /**
   * The policy in terms of the two lookups: one error naming the host path
   * when both are missing, nothing when they agree, otherwise exactly one
   * transfer towards the side that is missing or older.  Never more than one
   * call, so never a transfer in each direction.
   */
  lemma TransferActionsTable(hostFile: string, guestFile: string, hostTime: Option<int>, guestTime: Option<int>)
    ensures var acts := TransferActions(hostFile, guestFile, hostTime, guestTime);
      && |acts| <= 1
      && (acts == [UiError(CannotSync(hostFile))] <==> hostTime.None? && guestTime.None?)
      && (acts == [] <==> hostTime.Some? && hostTime == guestTime)
      && (acts == [Upload(hostFile, guestFile, false)] <==>
            hostTime.Some? && (guestTime.None? || guestTime.value < hostTime.value))
      && (acts == [Download(guestFile, hostFile, false)] <==>
            guestTime.Some? && (hostTime.None? || hostTime.value < guestTime.value))
  {
  }

  /** `host_mtime`: nil for a path absent from the host snapshot; the mtime is read only when it is present. */
  function HostMtime(hostFs: map<string, int>, path: string): (t: Option<int>)
    ensures t.None? <==> path !in hostFs
    ensures t.Some? ==> t.value == hostFs[path]
  {
    if path !in hostFs then None else Some(hostFs[path])
  }

  /**
   * A synchroniser between a host root and a guest root.  `log` records, in
   * order, the calls made on the connection, the UI and the host filesystem.
   */
  class Base {
    const hostRoot: string
    const guestRoot: string
    var log: seq<Action>

    constructor (hostRoot: string, guestRoot: string)
      ensures this.hostRoot == hostRoot && this.guestRoot == guestRoot
      ensures log == []
    {
      this.hostRoot := hostRoot;
      this.guestRoot := guestRoot;
      log := [];
    }

    /** `host_path`: the relative path joined onto the host root. */
    function HostPath(relativePath: string): string
    {
      Join(hostRoot, relativePath)
    }

    /** `guest_path`: the relative path joined onto the guest root. */
    function GuestPath(relativePath: string): string
    {
      Join(guestRoot, relativePath)
    }

    /**
     * `compare_and_transfer`: `hostTime` and `guestTime` are what
     * `host_mtime(hostFile)` and `guest_mtime(guestFile)` returned.
     */
    method CompareAndTransfer(hostFile: string, guestFile: string, hostTime: Option<int>, guestTime: Option<int>)
      modifies this
      ensures log == old(log) + TransferActions(hostFile, guestFile, hostTime, guestTime)
    {
      if hostTime.None? && guestTime.None? {
        log := log + [UiError(CannotSync(hostFile))];
      } else if hostTime == guestTime {
        return;
      } else if guestTime.None? {
        log := log + [Upload(hostFile, guestFile, false)];
      } else if hostTime.None? {
        log := log + [Download(guestFile, hostFile, false)];
      } else if hostTime.value > guestTime.value {
        log := log + [Upload(hostFile, guestFile, false)];
      } else if hostTime.value < guestTime.value {
        log := log + [Download(guestFile, hostFile, false)];
      }
    }
  }
}
