# vagrant-mirror, modelled in Dafny

vagrant-mirror keeps a folder on a Vagrant host and a folder on its guest
machine in step. This project models the plugin's synchronisation logic and
proves properties of it:

- the compare-and-transfer policy shared by both synchronisers (`Sync::Base`);
- the change-batch processor (`Sync::Changes#execute`);
- the recursive tree reconciler (`Sync::All#execute`);
- the pending-stat queues (`Connection::StatQueue::Base` and the inline
  queues of `Connection::SFTP`);
- the SFTP wrapper's own decisions;
- the rsync command builder (`Rsync`);
- the configuration builder, validator and merge (`Config`);
- the older path and mtime helpers (`FileSynchroniser`);
- the event flattening done by the host listener's callback (`Listener::Host`).

Calls on the SFTP session, the Vagrant UI and the host filesystem are
modelled as entries appended to a log. Properties such as "exactly one
upload" or "no delete" are stated over that log. Both filesystems are
snapshots: a map from absolute path to mtime, or a tree of files and
directories carrying integer-second mtimes.

Files, one module each:

- `wrappers.dfy`: `Option` (Ruby's nil) and `Result` (a raised error).
- `ruby_paths.dfy`: `File.join` on two strings, and `String#chomp('/')`.
- `sync_base.dfy`: the decision table and `compare_and_transfer`.
- `sync_changes.dfy`: `Sync::Changes#execute`.
- `sync_all.dfy`: `Sync::All#execute` over directory trees.
- `statqueue.dfy`: the path-keyed stat queue.
- `sftp.dfy`: `Connection::SFTP`.
- `rsync.dfy`: `Rsync`.
- `config.dfy`: `Config`.
- `file_synchroniser.dfy`: `FileSynchroniser`.
- `listener_host.dfy`: the `Listener::Host` callback.

Each imperative operation is a method over a class whose fields the source
updates in place. Its `ensures` ties the new state to a specification
function. The properties the source promises are proved as lemmas about
those functions. Pure helpers are functions.

Where the repository's tests and the code disagree, the model follows the code:

- `compare_and_transfer` passes `false` as the mtime argument of `upload`
  and `download`, and `Sync::All` passes `true`. Several tests expect
  mtimes, or `mkdir` calls, instead.
- Ruby has no `to_i` on `false` or `true`. So in the SFTP wrapper such a
  transfer is started and then fails with `NoMethodError` before its stat
  is queued. `Sftp.Connection.Upload` and `Sftp.Connection.Download` model
  this outcome as an error result.

Two members have no row in the table below because they model no source function:

- `Sftp.Connection.Dropped` is an environment step: the guest closes the cached session.
- `FileSynchroniser.Synchroniser.HostMtime` delegates to `SyncBase.HostMtime`, which has a row.

## Model

| member | source | states |
|---|---|---|
| RubyPaths.JoinCharacterized | lib/vagrant-mirror/sync/base.rb:31-41 | `File.join(a, b)` ends with `b`; what precedes `b` is `a` up to trailing separators; the boundary separator comes from `b` or from the prefix, never both; a leading '/' of `b` replaces all trailing '/' of `a`; otherwise `a` is kept whole, and exactly one '/' is inserted when `a` does not already end in one |
| RubyPaths.Chomp | lib/vagrant-mirror/sync/all.rb:20-22 | `chomp('/')` removes exactly one trailing '/' and leaves any other string unchanged |
| RubyPaths.RootDir | lib/vagrant-mirror/sync/all.rb:20-22 | joining the empty path and chomping gives the root without its one trailing '/' |
| RubyPaths.DescendAgrees | lib/vagrant-mirror/sync/all.rb:46-52 | chomping the root joined with `path/name` gives the parent directory joined with `name` |
| SyncBase.Decide | lib/vagrant-mirror/sync/base.rb:74-92 | the four branches are exclusive and exhaustive: not found iff both mtimes are nil; in sync iff they are equal; towards the guest iff only the host has one or the host's is newer; towards the host in the mirror-image case |
| SyncBase.TransferActionsTable | lib/vagrant-mirror/sync/base.rb:67-93 | at most one call: one error naming the host path iff both are missing; nothing iff equal; `upload(host_file, guest_file, false)` iff the guest is missing or older; `download(guest_file, host_file, false)` iff the host is missing or older |
| SyncBase.HostMtime | lib/vagrant-mirror/sync/base.rb:47-52 | nil iff the path is absent from the host; its mtime otherwise (`FileSynchroniser#host_mtime` behaves the same way) |
| SyncBase.Base.CompareAndTransfer | lib/vagrant-mirror/sync/base.rb:67-93 | the log grows by exactly the policy's calls for the two mtimes |
| SyncChanges.ChangedActionsAppend | lib/vagrant-mirror/sync/changes.rb:29-33 | changed paths are handled in list order: the calls for `xs + ys` are those for `xs`, then those for `ys` |
| SyncChanges.ChangedActionsKinds | lib/vagrant-mirror/sync/changes.rb:29-33 | changed paths produce only transfers and "cannot sync" errors |
| SyncChanges.RemovalsKinds | lib/vagrant-mirror/sync/changes.rb:36-53 | a host-side removal only deletes on the guest or reports that nothing was there, and a guest-side removal the reverse; removals never transfer; any other source does nothing |
| SyncChanges.RemoveOneSides | lib/vagrant-mirror/sync/changes.rb:38-51 | one removal takes its target out of the opposite snapshot and leaves its own side alone |
| SyncChanges.RemovalsFinalSides | lib/vagrant-mirror/sync/changes.rb:36-53 | after the loop, the opposite snapshot has lost exactly the paths the removed files name, and the source's side is unchanged |
| SyncChanges.DeletedIffRemoved | lib/vagrant-mirror/sync/changes.rb:36-53 | a path is deleted iff it was present on the opposite side and is gone afterwards |
| SyncChanges.PresentPathsDeleted | lib/vagrant-mirror/sync/changes.rb:38-51 | every removed path still present on the opposite side is deleted there |
| SyncChanges.DeletesAtMostOnce | lib/vagrant-mirror/sync/changes.rb:36-53 | no path is deleted twice, however often it is listed |
| SyncChanges.ExecuteFinishesOnce | lib/vagrant-mirror/sync/changes.rb:56 | `finish_transfers` is called exactly once, as the last call, also when all lists are empty |
| SyncChanges.ExecuteOrder | lib/vagrant-mirror/sync/changes.rb:26-57 | the calls for `added`, then those for `modified`, then the removals (which never transfer), then the finish |
| SyncChanges.Execute | lib/vagrant-mirror/sync/changes.rb:26-57 | the log grows by the changed-path calls, the removals' calls and one finish, in that order |
| SyncChanges.CompareChanged | lib/vagrant-mirror/sync/changes.rb:29-33 | the first loop runs the policy on `host_path(f)` and `guest_path(f)` for each changed path, in order |
| SyncChanges.RemoveAll | lib/vagrant-mirror/sync/changes.rb:36-53 | the second loop makes exactly the removal calls, deleting on the side opposite the source |
| SyncAll.Execute | lib/vagrant-mirror/sync/all.rb:19-59 | the log grows by exactly `Plan`'s calls, and the raised flag reports `Dir.entries` on a host file |
| SyncAll.VisitAll | lib/vagrant-mirror/sync/all.rb:40-57 | the loop over the listing union performs each name's calls in union order |
| SyncAll.Visit | lib/vagrant-mirror/sync/all.rb:41-56 | one name: skipped if it is a dot entry, else any recursion, then the policy |
| SyncAll.Descend | lib/vagrant-mirror/sync/all.rb:50-53 | recursion happens iff the host entry is a directory, or is missing while the guest entry is a directory |
| SyncAll.EntryPlanSplit | lib/vagrant-mirror/sync/all.rb:50-56 | for a non-dot name, the policy on the two joined paths runs after any recursion into the entry |
| SyncAll.FastPaths | lib/vagrant-mirror/sync/all.rb:24-34 | a missing guest directory gives only `upload(host_dir, guest_dir, true)`; a missing host directory gives only `download(guest_dir, host_dir, true)`; nothing is listed in either case |
| SyncAll.RecursionNeverRaises | lib/vagrant-mirror/sync/all.rb:50-52 | a recursive `execute` is only made for a host directory or a missing host entry, so it never reaches `Dir.entries` on a host file and never aborts the walk |
| SyncAll.HostFileNotDescended | lib/vagrant-mirror/sync/all.rb:50-56 | a host file over a guest directory is not recursed into; only the policy runs |
| SyncAll.DedupFacts | lib/vagrant-mirror/sync/all.rb:38 | the union holds every listed name and none twice |
| SyncAll.UnionGuestFirst | lib/vagrant-mirror/sync/all.rb:38 | the union is the deduplicated guest listing, followed by host names that are not in the guest listing |
| SyncAll.DotsSkipped | lib/vagrant-mirror/sync/all.rb:41-43 | `.` and `..` contribute no call: the plan equals the plan with them removed |
| SyncAll.IdenticalInSync | lib/vagrant-mirror/sync/all.rb:36-57 | identical host and guest trees produce no call at all |
| SyncAll.RootPath | lib/vagrant-mirror/sync/all.rb:20-22 | `execute('/')` does what `execute('')` does, on the two roots without their trailing '/' |
| SyncAll.DescendResolves | lib/vagrant-mirror/sync/all.rb:46-52 | the recursive call resolves the same directory the loop joined for that entry |
| StatQueue.StoreThenFetch | lib/vagrant-mirror/connection/statqueue/base.rb:21-31 | after `queue(p, s)`, `queued(p)` is `s` and every other path reads as before (nil if never queued) |
| StatQueue.StoreOverwrites | lib/vagrant-mirror/connection/statqueue/base.rb:21-23 | a second `queue` for a path replaces the first |
| StatQueue.TakeRemovesOnlyThat | lib/vagrant-mirror/connection/statqueue/base.rb:36-43 | a pop returns the queued stat, or nil; it removes that entry only; a second pop finds nothing |
| StatQueue.StoreThenTake | lib/vagrant-mirror/connection/statqueue/base.rb:21-43 | queueing then applying a path returns that stat and restores the other entries |
| StatQueue.AppliedAtMostOnce | lib/vagrant-mirror/connection/statqueue/base.rb:21-43 | over any sequence of queues and applies, each path is set at most as often as it was queued |
| StatQueue.Base.Queue | lib/vagrant-mirror/connection/statqueue/base.rb:21-23 | the entry for the path is set or overwritten; nothing is applied |
| StatQueue.Base.Queued | lib/vagrant-mirror/connection/statqueue/base.rb:29-31 | returns the queued stat iff there is one, and changes nothing |
| StatQueue.Base.Apply | lib/vagrant-mirror/connection/statqueue/base.rb:36-43 | removes and returns the entry; `setstat` is called once iff there was one |
| Sftp.QueriesAgree | lib/vagrant-mirror/connection/sftp.rb:47-82 | for "no such file", `exists?`, `mtime` and `directory?` give false, nil and false; any other status raises the same error in all three; a directory exists |
| Sftp.EntryNamesAt | lib/vagrant-mirror/connection/sftp.rb:96-106 | one name per listed entry, in listing order |
| Sftp.ConnectedReuses | lib/vagrant-mirror/connection/sftp.rb:213-240 | an open session is reused; an absent or closed one is replaced by a new one; the result is always open |
| Sftp.Connection.Connect | lib/vagrant-mirror/connection/sftp.rb:213-240 | returns an open session and caches it; queues and calls are untouched |
| Sftp.Connection.Upload | lib/vagrant-mirror/connection/sftp.rb:24-29 | starts one put; queues the remote stat (mtime, atime) for the guest path and logs `>> host_path`, or fails with `NoMethodError` when the mtime is a boolean |
| Sftp.Connection.Download | lib/vagrant-mirror/connection/sftp.rb:36-41 | starts one get; queues a local stat with only the mtime for the host path and logs `<< guest_path`, or fails the same way |
| Sftp.Connection.RemoteStatQueue | lib/vagrant-mirror/connection/sftp.rb:198-209 | with a stat, overwrites the entry; without one, returns and removes it, or nil |
| Sftp.Connection.LocalStatQueue | lib/vagrant-mirror/connection/sftp.rb:177-188 | the same for the local queue |
| Sftp.Connection.Exists | lib/vagrant-mirror/connection/sftp.rb:47-55 | true on a stat, false on "no such file", the status error otherwise |
| Sftp.Connection.Mtime | lib/vagrant-mirror/connection/sftp.rb:61-69 | the mtime on a stat, nil on "no such file", the status error otherwise |
| Sftp.Connection.Directory | lib/vagrant-mirror/connection/sftp.rb:75-82 | whether the stat is a directory, false on "no such file", the status error otherwise |
| Sftp.Connection.Mkdir | lib/vagrant-mirror/connection/sftp.rb:87-90 | exactly one asynchronous `mkdir` request on the session |
| Sftp.Connection.DirEntries | lib/vagrant-mirror/connection/sftp.rb:96-106 | entry names in listing order; an empty list for a missing directory; the status error otherwise |
| Sftp.Connection.Delete | lib/vagrant-mirror/connection/sftp.rb:111-120 | exactly one removal: `rmdir` with an "XX" warning for a directory, `remove` with an "xx" warning otherwise |
| Sftp.Connection.FinishTransfers | lib/vagrant-mirror/connection/sftp.rb:123-125 | one run of the session loop |
| Sftp.Connection.OnClose | lib/vagrant-mirror/connection/sftp.rb:144-165 | an upload pops the remote entry and sets it at most once; a download pops the local entry; any other type logs one error and changes no queue |
| MirrorConfig.KeysErrors | lib/vagrant-mirror/config.rb:22-25 | scanning a folder hash's keys finds exactly its keys outside the accepted six, in order |
| MirrorConfig.KnownKeysNoErrors | lib/vagrant-mirror/config.rb:22-25 | accepted keys give no error |
| MirrorConfig.UnknownErrorsNameKeys | lib/vagrant-mirror/config.rb:23-25 | one error per unknown key, naming that key, in order |
| MirrorConfig.ValidationAppend | lib/vagrant-mirror/config.rb:18-27 | validating concatenated folder lists gives the first list's errors, then the second's |
| MirrorConfig.NewFolderFacts | lib/vagrant-mirror/config.rb:40-60 | name and guest path come from the arguments; unspecified options default to false and []; symlinks follow the excludes; a folder with non-empty names and only accepted keys is valid |
| MirrorConfig.NilPathsRejected | lib/vagrant-mirror/config.rb:18-27 | a folder whose share name and guest path are each nil or empty, and whose options use only accepted keys, gets exactly the host-path error and the guest-path error, whatever the options |
| MirrorConfig.AppendSymlinks | lib/vagrant-mirror/config.rb:50-52 | each symlink is appended to the excludes, in order |
| MirrorConfig.ScanKeys | lib/vagrant-mirror/config.rb:23-25 | the inner validation loop records one error per unknown key |
| MirrorConfig.ValidateFolder | lib/vagrant-mirror/config.rb:19-26 | one folder's errors: the name error, the guest-path error, then the unknown keys |
| MirrorConfig.Config.constructor | lib/vagrant-mirror/config.rb:11-13 | a fresh configuration has no folders |
| MirrorConfig.Config.AddFolder | lib/vagrant-mirror/config.rb:40-60 | appends exactly one folder and keeps the earlier ones |
| MirrorConfig.Config.VagrantRoot | lib/vagrant-mirror/config.rb:32-34 | the same as adding a folder named "v-root" |
| MirrorConfig.Config.Validate | lib/vagrant-mirror/config.rb:18-27 | the errors of all folders, folder by folder |
| MirrorConfig.Config.Merge | lib/vagrant-mirror/config.rb:65-69 | a new configuration whose folders are these, then the other's |
| Rsync.ExcludeArgsAt | lib/vagrant-mirror/rsync.rb:44-49 | one `--exclude '<p>'` per configured pattern, in configuration order |
| Rsync.BuildExcludeArgs | lib/vagrant-mirror/rsync.rb:44-49 | the constructor's loop builds exactly those arguments |
| Rsync.CommandShape | lib/vagrant-mirror/rsync.rb:72-83 | the command is `rsync -av`, then ` --del` iff delete is set, then the exclude arguments, the source and the destination, each after one space |
| Rsync.LeadingSepIgnored | lib/vagrant-mirror/rsync.rb:58-68 | a leading '/' changes nothing; source and destination end in '/' iff the path is non-empty and a host directory |
| Rsync.DirectoryExample | lib/vagrant-mirror/rsync.rb:61-68 | `dir`, a host directory, gives `/vagrant/dir/` and `/var/vagrant/dir/` |
| Rsync.FileExample | lib/vagrant-mirror/rsync.rb:61-68 | `file` gives `/vagrant/file` and `/var/vagrant/file` |
| Rsync.RootExample | lib/vagrant-mirror/rsync.rb:58-68 | `/` gives `/vagrant/` and `/var/vagrant/` |
| Rsync.ExcludeExample | lib/vagrant-mirror/rsync.rb:44-49 | excludes `/.git` and `cache` give their two quoted arguments, in order |
| Rsync.Rsync.constructor | lib/vagrant-mirror/rsync.rb:35-50 | takes delete, excludes and guest path from the folder and builds the exclude arguments |
| Rsync.Rsync.Run | lib/vagrant-mirror/rsync.rb:56-87 | exactly one `sudo` call, with the command for that path |
| FileSynchroniser.Synchroniser.GuestMtime | lib/vagrant-mirror/file_synchroniser.rb:45-52 | a time iff the reply to the stat command is numeric, nil otherwise |
| FileSynchroniser.GuestMtimeAsksOnlyStat | lib/vagrant-mirror/file_synchroniser.rb:46 | only the reply to `stat -c %Y <path>` decides the result |
| FileSynchroniser.AbsoluteUnderRoots | lib/vagrant-mirror/file_synchroniser.rb:25-28 | a relative path is reached from each root through exactly one '/' |
| FileSynchroniser.AbsoluteAgreesWithSync | lib/vagrant-mirror/file_synchroniser.rb:25-28 | the two paths are `Sync::Base`'s `host_path` and `guest_path` over the same roots |
| FileSynchroniser.AbsoluteExample | lib/vagrant-mirror/file_synchroniser.rb:25-28 | `C:\host` is not treated as ending in a separator, so one '/' is put before the relative path |
| ListenerHost.TaggedAt | lib/vagrant-mirror/listener/host.rb:23-33 | one event per path, tagged with its list's kind, the path unchanged, in order |
| ListenerHost.FlattenAt | lib/vagrant-mirror/listener/host.rb:20-35 | `\|modified\| + \|added\| + \|removed\|` events: modified first, then added, then removed |
| ListenerHost.FlattenCounts | lib/vagrant-mirror/listener/host.rb:23-33 | the number of events of each kind is the length of that kind's list |
| ListenerHost.Host.Callback | lib/vagrant-mirror/listener/host.rb:20-35 | earlier queue entries stay in place and the report's events are appended after them |

## Left out

- Wall-clock time: mtimes are whole seconds. Sub-second precision is not modelled, and `Time.new` is an `atime` parameter.
- Threads:
  - the mirror middleware (one thread and queue per folder);
  - the listener thread and `Listen.to`;
  - the deferred `File.utime` thread in the SFTP `on_close` and in the local stat queue.
  Only the callback body is modelled. The local `setstat` becomes a `LocalUtime` log entry.
- Net::SFTP internals are not modelled. This covers:
  - the options of `Net::SFTP.start`;
  - `on_finish` logging and `close`;
  - the request machinery behind `upload!`, `download!` and `stat!`.
  Their replies become parameters (`StatReply`, `Listing`). Session loss is an explicit `Dropped` step.
- `connect` (sftp.rb:15-17) only calls `connection`, which `Sftp.Connection.Connect` models.
- The remote `setstat` subclass (statqueue/remote.rb) and the local one (statqueue/local.rb) are not modelled. They appear as the `SetStat` log entry.
- The middleware (middleware/*.rb), the command (command.rb), the error classes (errors.rb) and plugin registration (vagrant-mirror.rb) are not part of this model.
- Sync::All: both filesystems are trees that stay fixed during one run.
- Sync::All: the guest's existence, directory status and listing are read from the guest tree. SFTP status errors during the walk are not modelled.
- SyncChanges.Execute, SyncChanges.ExecuteOrder, SyncChanges.ExecuteFinishesOnce and SyncAll.Execute hold for a connection whose transfers return. They do not hold for `Connection::SFTP` as written. That connection raises `NoMethodError` on the `false` or `true` mtime these synchronisers pass (see `Sftp.Connection.Upload` and `Sftp.Connection.Download`). With it, `execute` stops at the first transfer, and `finish_transfers` is never reached.
- SyncChanges.RemoveAll, SyncChanges.Removals and SyncChanges.DeletedIffRemoved: an SFTP status error from the guest mtime lookup (changes.rb:40) is not modelled. Such an error would abort the removal loop.
- SyncChanges.RemoveAll, SyncChanges.Removals and SyncChanges.DeletedIffRemoved: the host snapshot holds plain files only. A guest-side removal whose host path is a directory makes `File.delete` raise and abort `execute`. The model has no directories on that side, so it does not capture this failure.
- SyncChanges.RemoveOneSides, SyncChanges.RemovalsFinalSides, SyncChanges.DeletedIffRemoved and SyncChanges.DeletesAtMostOnce: a host-side removal takes the guest path as removed once `delete` is called. For a guest directory, `delete` sends one `rmdir` with no callback (sftp.rb:112-114). When that directory is not empty, `rmdir` fails unobserved and the directory stays. The guest snapshot has no directories, so the model does not capture this. In the source, such a directory is then still found by a later `guest_mtime` lookup in the same removal list, and is deleted (and logged "XX") again.
- SyncChanges.Execute, SyncChanges.CompareChanged and SyncChanges.RemoveAll: both filesystems are snapshots that stay fixed during one `execute`, apart from the model's own deletes. In the source, every `stat!` lookup runs the SFTP event loop, so queued `upload`, `remove` and `rmdir` requests can complete before a later lookup in the same `execute` and change what it sees.
- SyncAll.DescendResolves: entry names are taken to contain no '/', and the root to end in at most one '/' (the same holds for RubyPaths.DescendAgrees).
- Rsync.StripLeadingSep: Ruby's `^` also matches after a newline, so `sub!` could strip a '/' after the first line. The model strips only a leading '/'. `sub!` also changes the caller's string in place, which the model does not capture.
- MirrorConfig.NewFolder: `<<` appends the symlinks to the caller's own `:exclude` array when one was passed. The model returns a new list and does not capture that aliasing.
- MirrorConfig.Keys: the position of the accepted keys in the folder hash is not modelled. Only the order of unknown keys matters to `validate`.
- MirrorConfig.Options: an option given explicitly as nil is treated like an absent option.
- MirrorConfig.Config.Merge: the `super` merge of the Vagrant base configuration is not modelled. Only the folder list is.
- FileSynchroniser.Synchroniser.GuestMtime: a Float reply is treated like any other non-integer reply. `sync_everything!`, `sync_added` and `sync_deleted` (file_synchroniser.rb:57-68) have empty bodies and nothing to model.
- Windows path separators: only '/' separates path components, as in `File.join` on Unix.
