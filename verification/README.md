# OSIRIS: a verified model of its stateful core

This project models the parts of OSIRIS that keep state across steps, crashes and
concurrent actors, and proves what each of them keeps over every run.

| part | files | source |
|---|---|---|
| quarantine vault | `CrashDisk`, `HostCalls`, `VaultSpec`, `VaultSteps`, `VaultQuarantine`, `VaultRestore`, `VaultRuns` | the Linux executor of the agent |
| path walk and staging | `WalkSpec`, `PathWalk`, `Staging` | the filesystem BPF program |
| socket owners | `Sockets` | the network BPF program |
| exit once | `ExitOnce` | the process BPF program |
| audit log | `AuditChain` | the hash-chained audit log |
| policy supervision | `Supervision`, `Overlay`, `CommandGate` | the agent's sensors, overlay file and command gate |
| live stream | `Fanout` | the event broadcaster of the API |
| response audit | `ResponseAudit` | the response handler of the API |
| kernel text and numbers | `ProcInfo` | stat lines, device numbers, parent chains |
| shared | `Options` | values that may be missing |

## How the parts are modelled

**Vault.** `CrashDisk` is a small crash-aware filesystem with two volumes. Every metadata
operation adds a namespace to the volume's uncommitted history; a crash keeps some prefix
of it on each volume, and contents that were never synced become anything. `HostCalls`
offers the system calls, any of which may fail, and records every disk state in `seen`, so
"at every crash point" is "for every disk in `seen`". Whether syncing a file also commits
its name is a parameter (`fsyncNames`), since filesystems differ. The digest is any
function. `Quarantine` and `Restore` are proved for an arbitrary file `f`: the one being
moved, or any other.

**Walk.** Dentries and mounts are an arbitrary graph of numbers. The walk runs over a real
array of twice the path capacity with the source's masks; the reference `TaskPath` knows
nothing of buffers.

**Staging, sockets, exit, gate, stream.** Each is a step function over all actors. A step
that the system cannot take changes nothing, so the theorems hold for every sequence of
steps. The imperative programs are classes whose methods are proved to be those steps. An
accept is four steps and an exit three, so that other processors can act in between;
`UninterruptedAccept` and `UninterruptedExit` tie the steps to the programs in one piece.
Socket states and their changes are those of section 3.3.2 of RFC 9293, simultaneous open
(section 3.5) included; entries may be evicted at any time, and an address starts a new life
only when no accept on it is half done. An accept may resolve to any socket, whatever its
state and however often. The gate's handler works on a real overlay store and a real agent; a
panic may fall anywhere, also between two sensors of an apply or in the stop or start of one.
Receivers of the live stream may act between any two sends of a publish.

**Audit log.** The digest and JSON are functions given from outside. That JSON tells entries
apart and that there are no collisions are preconditions about the entries of the two logs
compared; `OnlyTheLastCanChange` has logs that meet them. A write may end anywhere: after
nothing, inside the entry, before its newline, or whole.

**Responses.** Whatever the handler awaits may panic, and the client may hang up while it
waits, which drops the request. A command counts as sent once the dispatcher is called.

**Policies.** A settled agent is described sensor by sensor, counting occurrences, so "runs
once" and "marked once" are part of it. A sensor is up, down, or lost: in neither list.
The overlay store takes `fsyncNames` as the vault does.

## What turned out not to hold

- After a successful restore onto another volume, a crash can lose the file where a file's
  sync does not commit its name, and can lose its mode and owner where it does: the
  destination directory is never synced before the vault's copy and record are removed. The
  bytes are safe exactly when the destination is on the vault's volume or a sync commits
  names (`Restore`, `CrossRestoreLoses`); mode and owner exactly when it is on the vault's
  volume (`Restore`, `CrossRestoreForgets`).
- A restore cut short by a crash can be tried again exactly when the blob is still there and
  the path is free (`VerdictAfterCutRestore`, `RetryAfterCrash`). Every restore can be cut so
  that the path is occupied (`RestoreCutShort`): on the vault's volume by a hard link to the
  blob, which the refused retry leaves with mode 0000, on another one by whatever the disk
  had there.
- The overlay's directory is never synced, so a crash can go back more than one policy: to any
  one saved since a sync last committed names, and to the one there at that moment
  (`PossibleExactly`, `SaveAll`). It stays within "old or new" exactly when the save's own sync
  commits names, which the empty policy never does, or nothing else could come back before
  (`OldOrNew`).
- An apply that panics while a sensor stops or starts leaves it neither running nor marked, and
  only what is marked is ever started again. An apply reaches its policy exactly if every
  sensor that should run is running or marked before (`ApplyPolicy`); a sensor is lost exactly
  if a toggle was cut in its middle and the sensor was not switched off since (`LostExactly`).
  With nothing executing and nothing torn the agent still misses those a fresh start would run,
  and differs in nothing else (`CompareWithFresh`, `StopPanics`).
- The overlay is saved outside the lock under which it is applied. With nothing executing,
  overlay and live policy differ exactly if a panic tore the last save from its apply and the
  torn policy is not the live one (`PersistedIsLive`, `PanicCanDisagree`). With two run
  permits they can differ without any panic (`TwoPermitsCanDisagree`).
- An accept exit takes whatever its descriptor names by then. If another thread has put a
  connected socket there, one life gets a CONNECT and an ACCEPT, and its entry a second owner
  (`SwappedDescriptor`). A life has one owner exactly if every accept by another task than
  the agent's that resolves to it finds a child still waiting for its accept (`CleanIffFit`);
  its records then have their proper order, and only then if none of those accepts lost its
  record (`OneOpeningOneClosing`). CONNECT before CLOSE, each once, holds always
  (`ConnectThenClose`).
- A socket that closes after its accept was announced and before it is in the map gets no CLOSE
  record, written or counted (`DueRecords`, `ClosedTooSoon`).
- One group can get two exit records. At rest it has exactly one outcome if and only if every
  try for its key after the first finds it inserted and not evicted since, and does not fail
  (`ExactlyOneAtRest`, `EvictionRepeats`).
- An entry other than the last cannot be changed unnoticed; the last one can
  (`ChangedEntryIsNoticed`, `OnlyTheLastCanChange`), although the documentation of the log
  promises any change.
- A write that ends before its newline leaves a readable log, but the next append joins two
  entries on one line and no later read succeeds (`AppendReadable`, `ReadableExactly`).
- An effect is left without a closing entry exactly when the handler is cut off while it waits
  for it: what it awaits panics, or the client hangs up (`Handle`, `EffectLeftOpen`, `HangUp`).

## Model

| member | source | states |
|---|---|---|
| VaultQuarantine.WriteNew | crates/osiris-agent/src/linux_exec.rs:811-827 | creating, writing and syncing a vault file keeps every claim at each crash point, changes only that name, and with clean-up leaves no name behind on failure |
| VaultQuarantine.ReplaceRecord | crates/osiris-agent/src/linux_exec.rs:839-864 | at every crash point the record is the old or the new one, both readable; on success the new one is durable; the temp name is always gone |
| VaultQuarantine.UndoCopy | crates/osiris-agent/src/linux_exec.rs:628-638 | dropping the copy before its record never leaves a blob without a record |
| VaultQuarantine.UndoMove | crates/osiris-agent/src/linux_exec.rs:628-638 | moving back restores the path's entry, with its mode, before the record goes |
| VaultQuarantine.Undo | crates/osiris-agent/src/linux_exec.rs:628-638 | whichever way the file was moved, the path has again what it had, and neither blob nor record is left |
| VaultQuarantine.Finish | crates/osiris-agent/src/linux_exec.rs:640-663 | after hash, chmod and record rewrite the blob is the original with mode 0 and the durable record is final; any failure puts the file back |
| VaultQuarantine.PendingRecord | crates/osiris-agent/src/linux_exec.rs:570-600 | a durable pending record exists before anything moves; otherwise nothing has changed, but for a record whose own write broke off |
| VaultQuarantine.CopyAcross | crates/osiris-agent/src/linux_exec.rs:615-674 | across volumes the original is unlinked only after a synced copy with its final record; on error it is untouched |
| VaultQuarantine.UnlinkOriginal | crates/osiris-agent/src/linux_exec.rs:662-675 | the original goes only while the synced blob and its record are durable; if it cannot go, the copy does |
| VaultQuarantine.Quarantine | crates/osiris-agent/src/linux_exec.rs:517-682 | each answer says what was found: success and preview the file with that inode, outside the vault, the preview exactly for a dry run; not found an absent path; changed another inode or a path in the vault; a dry run changes nothing; at every crash point the file is at its path as it was or in the vault whole with its record, every blob has a record, and no other file's bytes are lost; an error leaves the path's inode, bytes and mode, no blob, and no record but one whose own write broke off; success leaves exactly the blob and its record |
| VaultQuarantine.Admit | crates/osiris-agent/src/linux_exec.rs:527-568 | the checks on the open file: which answer, or none if the move can begin |
| VaultRestore.OpenVaulted | crates/osiris-agent/src/linux_exec.rs:428-436 | the blob's hash is read and its mode is 0 again, under every name its inode has; no bytes and no other file change |
| VaultRestore.Dress | crates/osiris-agent/src/linux_exec.rs:793-802 | owner first, mode second: the recorded mode survives with its set-id bits |
| VaultRestore.PlaceCopy | crates/osiris-agent/src/linux_exec.rs:744-775 | the copy at the destination is synced whole before it counts, and removed again on failure |
| VaultRestore.Restore | crates/osiris-agent/src/linux_exec.rs:684-782 | each answer says what was found: bytes are given back only by a real run, to a free path outside the vault, from a record that is pending or has their digest; another digest is answered as changed, an unreadable record or a path in the vault as unverifiable; blob and its links are locked again in every such case; success gives back bytes, mode and owner and empties the vault; failure changes no file's bytes; at every crash point the file is safe as far as the destination's volume allows |
| VaultRestore.VerdictMeans | crates/osiris-agent/src/linux_exec.rs:684-743 | what each answer of the checks says about record, blob and destination |
| VaultSpec.CrashKeepsIntact | crates/osiris-agent/src/linux_exec.rs:570-682 | a crash out of a safe disk leaves the file intact, and safe again |
| VaultSpec.CrashKeeps | crates/osiris-agent/src/linux_exec.rs:570-682 | a crash keeps a file's bytes reachable and every blob recorded |
| VaultRuns.VerdictAfterCrash | crates/osiris-agent/src/linux_exec.rs:684-743 | after a crash anywhere in a quarantine, restore would succeed exactly when the path is free, and otherwise the file is still there as it was |
| VaultRuns.RecoverAfterCrash | crates/osiris-agent/src/linux_exec.rs:684-782 | restarting and restoring gives back content, mode and owner if the path is free, and otherwise fails and leaves the file there |
| VaultRuns.Run | crates/osiris-agent/src/linux_exec.rs:517-782 | over any run of quarantines, restores, faults and crashes, each starting from the disk the one before left, no file's bytes are lost at any point, cross-volume restores without committed names excepted |
| VaultRuns.VerdictAfterCutRestore | crates/osiris-agent/src/linux_exec.rs:684-782 | after a crash anywhere in a restore, another one would succeed exactly when the blob is still there and the path is free; an occupied path is answered as such and holds one of three things; with the blob gone on the vault's volume the file is home as it was |
| VaultRuns.RetryAfterCrash | crates/osiris-agent/src/linux_exec.rs:684-782 | restarting and restoring again succeeds exactly then and gives back content, mode and owner; otherwise what lies at the path keeps inode and bytes, with mode 0000 if it is a link to the blob |
| VaultRuns.RestoreCutShort | crates/osiris-agent/src/linux_exec.rs:720-775 | every restore passes a point where a crash makes a retry answer that the destination exists |
| VaultRuns.CrossRestoreLoses | crates/osiris-agent/src/linux_exec.rs:744-782 | a successful restore onto another volume without committed names can be followed by a crash that leaves the file neither at its path nor under its id; without another copy its bytes are lost |
| VaultRuns.CrossRestoreForgets | crates/osiris-agent/src/linux_exec.rs:744-782 | where names are committed, a crash can leave it with the agent's owner, mode 0600 and no record |
| WalkSpec.TaskPathRenders | bpf/fs.bpf.c:318-433 | the path seen from the root is the rendering of the names below it, across mounts |
| WalkSpec.StoppedRunIsLongest | bpf/fs.bpf.c:365-385 | a run cut by the first name that does not fit is the longest leaf-side run that fits |
| WalkSpec.MatchIsLocal | bpf/fs.bpf.c:326-364 | whether a walk is watched depends on the dentries and mounts of its first 32 positions, not on the root or any name |
| WalkSpec.MatchesMeans | bpf/fs.bpf.c:250-265 | a walk matches exactly if a way of at most 32 positions in the graph leads up to a dentry whose device and inode number are on the list, or, where the flag says so, its inode number under device 0; a dentry without an inode never |
| WalkSpec.ReportsShows | bpf/fs.bpf.c:318-433 | what is reported, on the way up alone: whole exactly if the root is met within 32 positions, no name exceeds 255 bytes and all take at most 1024; else the longest tail that is so |
| PathWalk.Masked | bpf/fs.bpf.c:373-379 | a mask never changes an offset below the size |
| PathWalk.Scratch.WriteName | bpf/fs.bpf.c:365-385 | a name is written in front of the names so far, inside the lower half; the upper half stays zero; an empty name at the end writes nothing |
| PathWalk.Scratch.Step | bpf/fs.bpf.c:318-394 | one step matches, completes, extends or stops the path as the graph says |
| PathWalk.Scratch.IsWatched | bpf/fs.bpf.c:250-265 | one lookup with the device, and one without where the flag allows it |
| PathWalk.Scratch.Climb | bpf/fs.bpf.c:396-413 | the bounded loop visits exactly the first 32 positions and keeps the longest run that fits |
| PathWalk.Scratch.Walk | bpf/fs.bpf.c:396-433 | matched, stickily, exactly if a watched inode lies on the way up within 32 positions; not truncated exactly when the root is met with every name fitting; the bytes are then the task's path, and else the longest leaf-side run without its leading slash; zero past the length |
| PathWalk.WalkOne | bpf/fs.bpf.c:511-532 | a record holds exactly the path of its operand, and a zero second path |
| PathWalk.WalkRename | bpf/fs.bpf.c:572-597 | both paths are exact and a match on either side counts |
| PathWalk.WalkAll | bpf/fs.bpf.c:396-433 | over any sequence of walks through one scratch area every record depends on its own operands alone |
| StagingSpec.PendingIsFirst | bpf/fs.bpf.c:490-532 | what is pending for a thread is the first successful insert since its last boundary, with inodes added by later opens |
| StagingSpec.OnlyInodeAdded | bpf/fs.bpf.c:606-634 | later opens for writing of a regular file add the inode to a CREATE without one, the first that has it, and change nothing else |
| StagingSpec.EventsAreFirstHooks | bpf/fs.bpf.c:655-718 | an exit adds one record exactly when the call returned no error, the ring had room, the copy succeeded and a hook of the thread, not the agent's, on a watched path inserted since its last boundary; kind, paths and inode are the first such hook's, with the inode a later open told; no other thread matters |
| StagingSpec.FirstSinceEnter | bpf/fs.bpf.c:655-718 | if the call was seen from its enter, that hook is the first since the enter |
| StagingSpec.OnlyExitsEmit | bpf/fs.bpf.c:490-727 | no other step adds a record |
| StagingSpec.OneFate | bpf/fs.bpf.c:490-727 | every staged entry is pending or has exactly one fate, and nothing else has one |
| StagingSpec.FateIsFirstBoundary | bpf/fs.bpf.c:655-727 | the thread's first boundary after the staging decides for good: failed if the call returned an error, emitted or dropped by ring and copy if not, cleared by an enter or a death |
| StagingSpec.Accounts | bpf/fs.bpf.c:502-508 | records number the emitted entries, and the drop counter numbers refused inserts plus dropped entries |
| Staging.Tracer.Commit | bpf/fs.bpf.c:502-508 | an insert never replaces, and any failure but "already there" is counted |
| Staging.Tracer.Stage | bpf/fs.bpf.c:511-532 | the hook is one step of the machine |
| Staging.Tracer.FileOpen | bpf/fs.bpf.c:607-634 | the open hook is one step of the machine |
| Staging.Tracer.Clear | bpf/fs.bpf.c:655-662 | enter and task exit forget what the thread has staged |
| Staging.Tracer.OnExit | bpf/fs.bpf.c:664-718 | the exit is one step of the machine and always deletes the entry |
| SocketSpec.RunKeepsInv | bpf/net.bpf.c:208-347 | in every interleaving, whatever accepts resolve to, each entry is an owner captured for the life at its address, and no life has more records than its state and its accepts allow |
| SocketSpec.EntriesAreAlive | bpf/net.bpf.c:225-346 | with no accept half done an entry exists only for a socket not in CLOSE |
| SocketSpec.OwnersAreCaptured | bpf/net.bpf.c:225-320 | the owners on record for a life are exactly those its own connect and the accepts that resolve to it captured |
| SocketSpec.RecordsNameTheirOwner | bpf/net.bpf.c:186-346 | every record carries an owner and direction captured by the connect or an accept of its own life |
| SocketSpec.TheOnlyOwner | bpf/net.bpf.c:186-346 | and if every accept on that life found a waiting child, there is no other owner |
| SocketSpec.ConnectThenClose | bpf/net.bpf.c:208-259 | in every life at most one CONNECT and one CLOSE, in that order, whatever accepts resolve to it |
| SocketSpec.CleanIffFit | bpf/net.bpf.c:261-320 | every accept on a life finds a waiting child exactly when the life has at most one owner, of its own direction, and none if it is the agent's |
| SocketSpec.OneOpeningOneClosing | bpf/net.bpf.c:208-345 | if every accept on a life found a waiting child it has at most one opening record, of its own kind, and one CLOSE, in that order; only then, if none of those accepts lost its record |
| SocketSpec.OverForGood | bpf/net.bpf.c:252-257 | after its end nothing more is recorded about a life, whatever reuses the address, exactly if no accept resolves to it and announces it |
| SocketSpec.FailedConnectIsSilent | bpf/net.bpf.c:252-257 | a connect from SYN-SENT to CLOSE yields no record, then or later, exactly if no accept announces that life |
| SocketSpec.AgentIsSilent | bpf/net.bpf.c:225-315 | the agent's own sockets have no owner on record, and so no record, exactly while no other task's accept resolves to them |
| SocketSpec.SwappedDescriptor | bpf/net.bpf.c:261-346 | a run in which an accept resolves to a connected socket: CONNECT and ACCEPT in one life, and the owner replaced |
| SocketSpec.TrackedUnlessTaken | bpf/net.bpf.c:225-346 | a captured socket is tracked until it closes, except while an accept on it is announced and not stored, unless the entry of its own life is evicted or an accept by the agent resolves to it |
| SocketSpec.DueRecords | bpf/net.bpf.c:238-257 | under the same condition every establishment from SYN-SENT and every other close is recorded or counted as dropped, with an owner of that life; the entry is missing only while an accept has announced the life and not stored it |
| SocketSpec.ClosedTooSoon | bpf/net.bpf.c:309-346 | a run with a close in that moment: an ACCEPT, and no CLOSE written or counted |
| SocketSpec.UninterruptedAccept | bpf/net.bpf.c:309-346 | the four steps of an accept without interruption are the program |
| Sockets.Monitor.HandleState | bpf/net.bpf.c:208-259 | both address families and only TCP; what becomes of entry, record and counter on every change, and the step of the machine |
| Sockets.Monitor.OnAcceptExit | bpf/net.bpf.c:269-347 | nothing unless the descriptor is in the table and names a TCP socket of either family that points back; then announce, track, and untrack if closed, or only untrack for the agent |
| ExitSpec.RunKeepsInv | bpf/process.bpf.c:201-246 | `live` counts the threads that have not left; only threads past zero act |
| ExitSpec.ReportSays | bpf/process.bpf.c:248-282 | a report writes one line: a record with the code of the last group exit ordered, or else the one its thread left with, or a drop; no other step writes one |
| ExitSpec.OutcomesArePassed | bpf/process.bpf.c:238-282 | in every run the outcomes of a group, with those about to come, number the tries for its key that passed |
| ExitSpec.ExitedIsHeld | bpf/process.bpf.c:72-83 | the key is there exactly if it was inserted and not evicted since |
| ExitSpec.OnePassUnlessRepeated | bpf/process.bpf.c:238-246 | at most one try passes exactly if none after the first fails to insert or finds the key gone |
| ExitSpec.AtMostOne | bpf/process.bpf.c:238-246 | a group has at most one outcome if no try after its first passes |
| ExitSpec.ExactlyOneAtRest | bpf/process.bpf.c:219-282 | once all its threads are done a group has at least one record or counted drop, and exactly one if and only if no try after the first passes |
| ExitSpec.OnlyAfterAllLeft | bpf/process.bpf.c:219-236 | no outcome before every thread has left, and none for the agent |
| ExitSpec.EvictionRepeats | bpf/process.bpf.c:72-83 | for instance, an eviction between two claims yields two records |
| ExitSpec.UninterruptedExit | bpf/process.bpf.c:201-282 | the three steps without interruption are the program |
| ExitOnce.ExitTracer.HandleExit | bpf/process.bpf.c:201-282 | nothing for the agent, a group with threads left or a key already there; else claim the key and report the group's code, or the thread's if none was ordered, or count a drop |
| AuditSpec.FieldSplit | crates/osiris-audit/src/file_log.rs:102-105 | a length-prefixed field can be told from what follows |
| AuditSpec.WhySplit | crates/osiris-audit/src/file_log.rs:140-149 | an absent and an empty reason differ |
| AuditSpec.EncodingInjective | crates/osiris-audit/src/file_log.rs:125-156 | equal hashed bytes mean equal hashed fields, if JSON tells the two entries apart |
| AuditSpec.PrefixVerifies | crates/osiris-audit/src/file_log.rs:225-268 | every prefix of a log that verifies verifies |
| AuditSpec.HeadDeterminesLog | crates/osiris-audit/src/file_log.rs:237-268 | two logs that verify and end in the same hash are equal, if JSON and digest tell their entries apart |
| AuditSpec.ChangedEntryIsNoticed | crates/osiris-audit/src/file_log.rs:225-268 | replacing an entry is noticed unless it is the last and the new one is well formed |
| AuditSpec.OnlyTheLastCanChange | crates/osiris-audit/src/file_log.rs:225-268 | a codec and a log of two entries that meet these conditions: a new time in the first is noticed, in the last it is not |
| AuditSpec.AppendsVerify | crates/osiris-audit/src/file_log.rs:160-198 | any sequence of appends verifies exactly if the log did before |
| AuditSpec.AppendsKeep | crates/osiris-audit/src/file_log.rs:160-198 | appends keep earlier entries and add what was given, in order |
| AuditSpec.AppendReadable | crates/osiris-audit/src/file_log.rs:160-198 | an append keeps a log readable exactly if it wrote nothing, or a whole entry behind a newline, and then adds that entry |
| AuditSpec.ReadableExactly | crates/osiris-audit/src/file_log.rs:160-223 | over any sequence of appends the log stays readable exactly if no write broke off inside an entry and none followed a missing newline |
| FileLog.FileAuditLog.ReadAll | crates/osiris-audit/src/file_log.rs:200-223 | blank lines are skipped; an error names the first line that does not parse |
| FileLog.CheckLink | crates/osiris-audit/src/file_log.rs:237-268 | one link is accepted exactly when it holds, and the error says what was expected and found |
| FileLog.ComputeHash | crates/osiris-audit/src/file_log.rs:125-156 | the digest is taken over every hashed field in turn, those of variable length with their length |
| FileLog.VerifyEntries | crates/osiris-audit/src/file_log.rs:237-268 | accepted exactly when the chain holds; an error is about the first broken link, with what was expected and found |
| FileLog.FileAuditLog.VerifyChain | crates/osiris-audit/src/file_log.rs:237-268 | the same for the file |
| FileLog.FileAuditLog.Append | crates/osiris-audit/src/file_log.rs:160-198 | the file after any kind of write; success is one linked entry, which reads back exactly if the last line had its newline; no earlier line changes but an unfinished last one |
| PolicySpec.SettledMeans | crates/osiris-agent/src/agent.rs:234-285 | a settled agent runs exactly what is built, starts and is on, and marks exactly what policy forbids |
| PolicySpec.SettledIsUnique | crates/osiris-agent/src/agent.rs:234-285 | two agents settled for one policy run the same and carry the same marks |
| PolicySpec.LostExactly | crates/osiris-agent/src/agent.rs:439-486 | over any toggles a sensor is lost exactly if one was cut after it left the one list and before it was in the other, and it was never switched off since |
| PolicySpec.SameButLost | crates/osiris-agent/src/agent.rs:234-285 | against a fresh start an agent misses the sensors it has lost, and nothing else |
| Supervision.Agent.Start | crates/osiris-agent/src/agent.rs:234-285 | a fresh start follows the overlay |
| Supervision.Agent.MarkDisabled | crates/osiris-agent/src/agent.rs:489-498 | exactly one mark or none; other entries stay |
| Supervision.Agent.SetSensorEnabled | crates/osiris-agent/src/agent.rs:439-486 | from any mode of the sensor, lost included, to the next, also when its stop or start panics; nothing else changed; the answer is started, stopped, failed or unchanged exactly as it happened |
| Supervision.Agent.ApplyPolicy | crates/osiris-agent/src/agent.rs:502-524 | from wherever applies and panics left the agent; the new policy is followed exactly if every startable sensor it wants is running or marked before; the mode of every sensor |
| Supervision.Agent.ApplyUntil | crates/osiris-agent/src/agent.rs:502-524 | an apply that panics before it begins, between two sensors or inside one's toggle: the mode of every sensor |
| Supervision.ApplyAll | crates/osiris-agent/src/agent.rs:502-524 | any sequence of applies ends with the marks and knobs of a fresh start from the last policy, and with its sensors exactly if each one lost before was switched off on the way |
| OverlaySpec.CrashOutcomes | crates/osiris-agent/src/policy.rs:19-70 | a start after a crash loads exactly one of the possible policies |
| OverlaySpec.CrashKeepsSound | crates/osiris-agent/src/policy.rs:19-70 | after a crash the overlay is again whole or absent |
| OverlaySpec.PossibleExactly | crates/osiris-agent/src/policy.rs:44-70 | after any attempts, failed ones included, a crash can bring back exactly the policies saved since the last sync that committed names, and the one there at that moment |
| Overlay.Store.Save | crates/osiris-agent/src/policy.rs:44-70 | on success the new policy loads back, on failure the old one stays, and exactly what the attempt leaves possible can follow a crash; at every point inside only that or the new one; when it fails |
| Overlay.Store.RemoveOverlay | crates/osiris-agent/src/policy.rs:44-52 | the empty policy removes the file and syncs nothing: everything possible before stays possible |
| OverlaySpec.OldOrNew | crates/osiris-agent/src/policy.rs:44-70 | after any attempts, a crash after the next save is confined to the old and the new policy exactly if its sync commits names or nothing else could come back before |
| Overlay.SaveTwice | crates/osiris-agent/src/policy.rs:44-70 | two saves on a committed disk leave three possible policies, or two where the second sync commits names |
| Overlay.SaveAll | crates/osiris-agent/src/policy.rs:44-70 | the same of the store itself over any run of saves and faults |
| GateSpec.PermitsConserved | crates/osiris-agent/src/control.rs:41-78 | permits are conserved whatever their number; with one, at most one command executes and nine are admitted |
| GateSpec.BusyIffFull | crates/osiris-agent/src/control.rs:55-60 | busy exactly when nine admitted commands are unfinished |
| GateSpec.ExecutesUntilEnd | crates/osiris-agent/src/control.rs:61-77 | over every run a command executes until its own task ends, and an answer once given stays |
| GateSpec.AnswersTell | crates/osiris-agent/src/control.rs:64-77 | an answer tells what the first step that had one to give did to that command: its task ended, panicked or took too long |
| GateSpec.TimeoutFreesNothing | crates/osiris-agent/src/control.rs:64-77 | over every run a timed-out command stays alone in execution and among the nine until its own task ends; no other begins, and arrivals are judged with it counted |
| GateSpec.PersistedIsLive | crates/osiris-agent/src/policy_exec.rs:101-129 | with nothing executing overlay and live policy differ exactly if a panic tore the last save from its apply and the torn policy is not the live one; at any time they agree, or it was torn, or an executing command saved it |
| GateSpec.IdleIsWhole | crates/osiris-agent/src/policy_exec.rs:101-129 | with nothing executing and nothing torn, no apply is left broken off and overlay and live policy are equal |
| GateSpec.WantedUnlessLost | crates/osiris-agent/src/agent.rs:439-524 | over every run, unless an apply is broken off, each sensor stands as the live policy wants it, or it is lost and should run |
| GateSpec.PanicCanDisagree | crates/osiris-agent/src/policy_exec.rs:125-127 | such a panic leaves them apart |
| GateSpec.TwoPermitsCanDisagree | crates/osiris-agent/src/policy_exec.rs:125-127 | with two run permits two commands leave one policy on disk and the other live, for good |
| CommandGate.Handler.Arrive | crates/osiris-agent/src/control.rs:55-60 | arrival is one step of the gate |
| CommandGate.Handler.Cancel | crates/osiris-agent/src/control.rs:61-63 | a caller gone while waiting gives its slot back |
| CommandGate.Handler.Begin | crates/osiris-agent/src/control.rs:61-63 | taking the run permit is one step of the gate |
| CommandGate.Handler.TimeOut | crates/osiris-agent/src/control.rs:64-77 | the answer is one step of the gate and frees nothing |
| CommandGate.Handler.Persist | crates/osiris-agent/src/policy_exec.rs:125-126 | the save is one step of the gate, on the real overlay: what it holds is the gate's overlay, or nothing changed; a crash inside brings back only what was possible or the new policy |
| CommandGate.Handler.Switch | crates/osiris-agent/src/policy_exec.rs:127-129 | the apply is one step of the gate, on the real agent, which then follows the command's policy exactly if it had lost none of its sensors |
| CommandGate.Handler.Finish | crates/osiris-agent/src/control.rs:68-77 | both permits come back when the task ends |
| CommandGate.Handler.PanicOutside | crates/osiris-agent/src/control.rs:68-77 | and also when it panics before the save or after the apply |
| CommandGate.Handler.PanicInside | crates/osiris-agent/src/control.rs:68-77 | and in between: not begun, between two sensors or in the stop or start of one; the mode of every sensor |
| CommandGate.Handler.CompareWithFresh | crates/osiris-agent/src/agent.rs:228-285 | with nothing executing and nothing torn, after any commands the agent has the marks and knobs of a fresh start from the overlay on disk, and its sensors exactly if no toggle cut in its middle lost one not switched off since |
| CommandGate.Handler.Reboot | crates/osiris-agent/src/agent.rs:228-285 | a crash at any moment of any run reboots into an agent that follows a policy possible at that moment: one the disk could give back at the beginning or one some command asked for |
| CommandGate.StopPanics | crates/osiris-agent/src/agent.rs:444-465 | at any idle moment: a stop panics, a second command completes, and the gate is idle with nothing torn while a sensor does not run that a fresh start runs |
| CommandGate.ApplyPolicy | crates/osiris-agent/src/policy_exec.rs:101-129 | a dry run and a failed save change nothing; success leaves overlay and knobs on the new policy, and the agent following it exactly if it had lost none of its sensors; crash points as for the save |
| FanoutSpec.NonInterference | crates/osiris-api/src/stream.rs:123-141 | what a connection holds is decided by its own steps |
| FanoutSpec.Accounted | crates/osiris-api/src/stream.rs:123-141 | for a connection alone, matched is received plus queued plus dropped, in order, within capacity |
| FanoutSpec.LiveConnections | crates/osiris-api/src/stream.rs:64-141 | for every connection among any others: the offers it was entitled to, by the hosts given last and the filter of its own subscription, are exactly those received, queued or counted as dropped, in order and within capacity |
| FanoutSpec.OnlyEntitled | crates/osiris-api/src/stream.rs:123-141 | each event a connection has was offered to it while it was scoped to its host, and its filter let it through |
| FanoutSpec.OfferDecides | crates/osiris-api/src/stream.rs:123-141 | an offer is queued if it is for the connection, its receiver is there and there is room; counted as dropped if only room or receiver are missing; else nothing happens |
| FanoutSpec.ConnectedIsJoined | crates/osiris-api/src/stream.rs:64-110 | a connection is there exactly if its id has subscribed and not unsubscribed since |
| FanoutSpec.BatchOffersAll | crates/osiris-api/src/stream.rs:123-141 | a publish offers each connection the whole batch in order, whatever the receivers do meanwhile |
| Fanout.LiveEventBroadcaster.SubscribeScoped | crates/osiris-api/src/stream.rs:64-82 | a subscription is one step of the stream |
| Fanout.LiveEventBroadcaster.SetHosts | crates/osiris-api/src/stream.rs:84-91 | a change of hosts is one step of the stream, without effect on an unscoped connection |
| Fanout.LiveEventBroadcaster.Unsubscribe | crates/osiris-api/src/stream.rs:97-110 | one step of the stream: only the connection named goes |
| Fanout.LiveEventBroadcaster.Publish | crates/osiris-api/src/stream.rs:123-141 | the two loops are exactly the steps of the batch, with what receivers do between any two sends |
| ResponseAudit.Handler.Prepare | crates/osiris-api/src/response.rs:79-158 | a request passes exactly when it is acceptable, and no check leaves a trace |
| ResponseAudit.Handler.LocalDryRun | crates/osiris-api/src/response.rs:359-442 | one preview and one entry with its verdict, or none if the handler is cut off |
| ResponseAudit.Handler.LocalReal | crates/osiris-api/src/response.rs:210-355 | entry, effect, entry with its verdict, or a failed entry and no effect; no closing entry if the handler is cut off |
| ResponseAudit.Handler.Resolve | crates/osiris-api/src/response.rs:577-625 | only an unresolved ordinary target leaves an entry; tenancy refusals leave none |
| ResponseAudit.Handler.RunDry | crates/osiris-api/src/response.rs:661-711 | the agent addressed is asked, and the server where there is none to ask; no effect and exactly one entry, the last thing done; none if the handler is cut off |
| ResponseAudit.Handler.RunReal | crates/osiris-api/src/response.rs:713-741 | entry, command, entry with the command's verdict, or a failed entry and no command; no closing entry if the handler is cut off |
| ResponseAudit.Handler.Handle | crates/osiris-api/src/response.rs:72-355 | every effect follows a successful entry for its action and target and is followed by exactly one more, if and only if the handler is not cut off while it waits for the effect; the whole trace of every kind of request |
| ResponseSpec.SentToTheRightHost | crates/osiris-api/src/response.rs:577-650 | what is sent goes to the host resolved, a restore to the host named and then only if the tenant owns it, dry exactly for a dry run |
| ResponseSpec.SentOnce | crates/osiris-api/src/response.rs:652-741 | a request that can be addressed is sent exactly once, a real one after its entry and not without it |
| ResponseSpec.EntriesSay | crates/osiris-api/src/response.rs:210-355 | every entry is about the action and target asked for, or marks an internal error; the opening one succeeds, an unresolved one fails, and the closing one says how it went |
| ResponseSpec.EffectLeftOpen | crates/osiris-api/src/response.rs:210-239 | whatever cuts the handler off then, the entry and the effect are all there is |
| ResponseAudit.HangUp | crates/osiris-api/src/response.rs:627-741 | a client that hangs up while an agent quarantines its file: the opening entry, the command, and nothing after |
| StatSpec.StatRoundTrip | crates/osiris-agent/src/linux_exec.rs:28-40 | state, parent and start time come back from every stat line, whatever the command name holds |
| StatSpec.PackedDevice | crates/osiris-agent/src/linux_exec.rs:63-67 | the id of a packed device is its major and minor side by side |
| StatSpec.DevicesDiffer | crates/osiris-agent/src/linux_exec.rs:63-67 | different devices never share an id |
| ProcInfo.AncestorsFrom | crates/osiris-agent/src/linux_exec.rs:117-130 | the parent chain without repetition, cut only by a missing parent, the root, a cycle or 64 hops |

## Left out

- VaultQuarantine.Quarantine: assumes no other program touches the path or the vault meanwhile, that clean-up calls succeed and that ids are new; checks on file type, link count and timestamps, and so the branches for a file swapped meanwhile (lines 599-613 and 664-668), are not modelled.
- VaultRestore.Restore: same assumptions; parent directories and symbolic links are not modelled.
- Sockets.Monitor.HandleState: addresses and ports copied into a record are not modelled.
- Sockets.Monitor.OnAcceptExit: the pointer chase from the task to the socket is one lookup.
- ExitOnce.ExitTracer.HandleExit: the record's time, parent and user fields are not modelled.
- ResponseAudit.Handler.Handle: HTTP statuses and bodies of the answers are returned but not specified.
- Collision resistance, JSON and the clock are given from outside.
- Heartbeat wake-ups, telemetry filtering and the notes an apply returns.
- Signature and replay checks of commands, and the fairness of the gate's queue.
- Terminating processes, `copy_until`, `start_ns`, `normalize_exe_link`: they would add easy members.
- Web sockets, tenants, incidents, evidence, authentication and the console.
- DNS and exec records of the BPF programs, and the record layouts.
