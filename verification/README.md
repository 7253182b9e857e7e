# Verification of the teslausb control protocol

`teslausb` presents partitions of an SD card to a car as a USB drive, and in a loop takes the drive away
for a moment, snapshots the dash-cam partition, gives the drive back, archives new clips from the snapshot,
syncs music and light shows onto the other partitions, and cleans up. This project models that loop, the
kernel objects, configfs tree, mounts and ledger it works on, and the small protocols beside it, and proves
what holds over every run, with failures at any request and with the process killed at any request.

Check it with `dafny verify dfyconfig.toml` (Dafny 4.11).

## How the model is built

- **The outside world is a stream of answers** (`Outside.dfy`). Every external command, file write and SQL
  statement is a request; the n-th request gets the n-th answer: carried out, refused, or the process dies
  before it takes effect. A theorem over every stream is a theorem over every mix of failures and crashes.
  A request the kernel cannot honour is refused whatever the stream says. A teardown request that was
  refused although the kernel could have honoured it is a *fault*, and faults are counted: the bounds below
  are in terms of faults and of how often the process ended, or died inside the method in question.
- **Kernel rules.** A mount pins the snapshot, the snapshot pins its origin and its zram device; in configfs
  a directory goes only after its children, a function only when unlinked, nothing structural while bound.
  Writing an empty `UDC` when nothing is bound is assumed to succeed, as `internal/gadget/gadget.go:288-289`
  says.
- **Each component twice.** A class with the source's fields, whose methods do what the source does
  statement by statement (`Snapshot.dfy`, `Gadget.dfy`, `Ledger.dfy`, `Machine.dfy`, the classes in
  `MediaSync.dfy`, `Share.dfy`, `Keyfile.dfy`), is proved equal, method by method, to a function on values
  (`*Spec.dfy`, and the functions of the same file); the laws are lemmas about those functions.
- **The loop.** `MachineSpec.Step` is one turn of `StateMachine.Run`, with a restart at `StateBooting` when
  the process does not survive it; `MachineSpec.Run` is any number of turns. What one turn keeps is proved in
  `KernelLaws.dfy`, `GadgetLaws.dfy` and `TransferLaws.dfy` (over `Frames.dfy`, which says what each part of a
  turn leaves alone); the theorems over every run are in `MachineLaws.dfy`. `Discipline.dfy` states the order
  in which things may happen as an automaton over the log, written without the loop; what begins an fsck, a
  session or a sync is logged before its first request, so that one cut short by a crash is in the log too.
  `Turns.dfy` says of each turn, in terms of the answers it gets, what it does and when; `Luns.dfy` and `Drive.dfy`
  say what a boot shows the car.
  `Progress.dfy` and `Recovery.dfy` prove what the loop is for: in a world that cooperates a cycle delivers
  every path its scan lists, from whatever an earlier crash left behind - but for two things it cannot make
  good. A mount left on the snapshot's mountpoint stops all archiving (`Standstill.dfy`), and a path that was
  marked and not delivered is lost (`Losses.dfy`). `Story.dfy` is one life of the machine request by request,
  from which `Standstill.dfy` and `Handover.dfy` make their counterexamples.

Where the code and its comments differ, the code is followed:

- `cmd/teslausb/main.go:203-207` speaks of clearing media mounts at boot; only `/mnt/snap` is unmounted, so
  the car is handed a partition that is still mounted if and only if one was mounted before the boot
  (`BootHandsOver`; `HandedOverMounted` is a run in which that happens).
- `internal/state/archive.go:8-9` speaks of files that have been archived; `runArchive` marks a file before it
  is copied (`cmd/teslausb/main.go:405-410`), so a row does not mean that (see the first point below), and a
  completed session over n files records n - 1.
- `cmd/teslausb/main.go:203-207` also speaks of reconciling leftover zram devices; no later boot, turn or
  restart frees one (`MachineLaws.LeaksAreForGood`).

Properties that turned out false are given with a counterexample and the exact condition:

- A path in the ledger need not have been delivered. One refused copy loses any new path, with every backend and
  every other request carried out (`SessionLoses`); it is not sent again, restarts included, for as long as no
  lookup of it fails (`LostForGood`), and is sent once more when one does (`FailedLookupRetries`). A session loses
  nothing, whatever it meets, if and only if every path of its scan is marked or delivered already, or the backend
  does not mark (`LosesNothingIff`); and where everything is carried out, every path of the scan is delivered in
  the end if and only if none of them was marked and undelivered before (`SmoothSession`, `OneCycle`,
  `RecoversAndArchives`).
- Create, mount, release restores the kernel if and only if at most one mount is stacked on the snapshot at
  the release (`ReleaseRestoresIff`, `LifeOfSnapshotIsUndoneIff`, `TwiceMountedIsNotUndone`).
- `active` follows the binding through an `Activate` if and only if no other controller was bound before
  (`ActiveAgreesIff`).
- Each path is sent at most once if and only if the scan does not repeat paths (`AtMostOnceIffDistinct`); the
  scan does not (`ScanIsDistinct`).
- The wake keeper is safe under every interleaving if and only if at most one goroutine calls it
  (`SafeIffOneCaller`, with `OneCallerIsSafe` and `TwoCallersAreNotSafe`).
- A profile reads back if and only if neither the SSID nor the password holds a newline
  (`ProfileReadsBackIff`).
- Provisioning that reports success has NetworkManager on the new profile if and only if the call did not find
  that profile on disk without it being loaded (`SuccessMeansLoadedIff`); one refused reload leads there, and no
  later call repairs it (`FailedReloadIsNotRetried`).
- Success leaves the profile with mode 0600 if and only if the call did not find that profile on disk with another
  mode (`SuccessMeansSecretIff`); a refused chmod of a loose file leads there (`RefusedChmodIsNotRetried`).
- A failed `Connect` leaves no credentials file behind, whatever it meets, if and only if the backend is not
  CIFS (`FailedConnectLeavesNoFileIff`). A connection gives the share back if and only if its umount is carried
  out, which a shutdown prevents without any failure (`DisconnectLeavesIff`). A file or a share mount left is
  never removed (`LeftFilesStay`, `LeftMountsStay`, `LeftoversAreForGood`).
- The next cycle archives, in a world that cooperates, if and only if no mount is left on the snapshot's
  mountpoint (`NextCycleArchivesIff`). A mount that outlasts the release of its own cycle ends all archiving
  until the process ends (`StuckUntilRestart`, `BlockedForever`); three refusals in one cycle get there
  (`StuckIsReachable`), and although everything that follows is carried out, the next clip is never sent
  (`StandstillLasts`).

## Model

| member | source | states |
|---|---|---|
| MachineLaws.ResourcesAreConserved | cmd/teslausb/main.go:108-199 | over every run: at most one mount on the snapshot mountpoint, zram devices at most faults plus ends of the process while it made, held or released a snapshot plus the live one, and while waiting no snapshot object and - unless a teardown was refused since the last boot began - no dm node and no mount |
| MachineLaws.RunsAreDisciplined | cmd/teslausb/main.go:108-199 | the log of every run, in which an fsck, a session and a sync appear before their first request, is accepted by the automaton of `Discipline.Next`: exclusive access, in each life a boot before any wait, fsck, session or sync, reactivation, bracketing |
| MachineLaws.EveryRunInWords | cmd/teslausb/main.go:154-190 | for any two moments of any run, crashes included: fsck and media sync begin only while unbound; at every wait and at the beginning of every session this life has booted and the gadget is bound, unless an activation failed and none has succeeded since; every deactivation made up for before; brackets balanced between two waits |
| MachineLaws.BoundWhileActivationsWork | cmd/teslausb/main.go:168-174 | if no activation has failed since the boot of this life, the gadget is bound at every wait and at the beginning of every session |
| MachineLaws.EffectsAreLogged | cmd/teslausb/main.go:343-526 | a turn that changes the media has logged that a sync begins with the car cut off, and does to them what a sync of all enabled targets does; a turn that changes the ledger has logged that a session begins, leaves the binding alone, and does to the ledger what the session of that moment with the scan of that moment does; also when the process dies in it |
| MachineLaws.MediaAreMountedWhenSynced | cmd/teslausb/main.go:502-534 | over every run a backend is only asked to sync a folder that is switched on, and only while the folder's own partition is mounted |
| MachineLaws.PartitionsHaveOneOwner | cmd/teslausb/main.go:154-186 | unbound from deactivation to reactivation; mounted media partitions at most refused unmounts plus crashes inside runMediaSync |
| MachineLaws.MemoryAgreesWithConfigfs | cmd/teslausb/main.go:202-267 | outside of booting the Gadget object agrees with configfs lun by lun, its luns are those of some of the partitions in their order, `active` is whether it is bound, and the controller is the one findUDC names |
| MachineLaws.LunsArePartitions | cmd/teslausb/main.go:216-230 | over every run, outside of booting, each lun in configfs is backed by the device of a partition and shows the label of that same partition |
| MachineLaws.ConnectionsAreGivenBack | cmd/teslausb/main.go:343-355 | the share is mounted at most as often as disconnects were refused and the process died inside runArchive or runMediaSync; credentials files number at most those a live process left behind plus such crashes |
| MachineLaws.LedgerHolds | cmd/teslausb/main.go:380-419 | over every run, restarts included: copy attempts per path at most 1 plus failed marks plus failed lookups of that path; lagging paths and open sessions at most failed sessions, or failed updates, plus crashes inside runArchive; rows name existing sessions; no session closed twice |
| MachineLaws.BootHeals | cmd/teslausb/main.go:202-253 | from any reachable state a boot that succeeds leaves the gadget bound and in agreement, no snapshot, and without faults no dm node and no mount; zram devices are exactly those of before |
| MachineLaws.BootHandsOver | cmd/teslausb/main.go:202-253 | from any reachable state a boot that succeeds hands the car its partitions with exactly those still mounted that were mounted before, so with none if and only if none was |
| Handover.HandedOverMounted | cmd/teslausb/main.go:502-540 | a lawful run without a refused request, in which the process is killed once during a media sync, and afterwards waits bound with that partition mounted |
| MachineLaws.LeaksAreForGood | cmd/teslausb/main.go:203-209 | a zram device nobody holds is never given back by any turn, boot or restart |
| MachineLaws.StuckUntilRestart | cmd/teslausb/main.go:154-160 | with a mount that outlasted its cycle's release no later cycle gets a snapshot or touches the ledger until the process ends |
| MachineLaws.StepKeeps | cmd/teslausb/main.go:118-197 | the conjunction of all invariants is kept by every turn, crash or shutdown within it included |
| KernelLaws.StepKeeps | cmd/teslausb/main.go:118-197 | every turn keeps the kernel invariant: a held snapshot is the kernel's and releasable, the device count, one mount at most, cleanliness since the last boot |
| GadgetLaws.StepKeeps | cmd/teslausb/main.go:118-197 | every turn keeps the log accepted, configfs well-formed, and the Gadget object in agreement |
| TransferLaws.StepKeeps | cmd/teslausb/main.go:118-197 | every turn keeps the counts of share mounts, credentials files, media mounts and the ledger |
| TransferLaws.WithConnectionKeeps | cmd/teslausb/main.go:343-355 | on every path through a connect, the share is given back up to faults and the process's death |
| TransferLaws.LeftoversAreForGood | internal/archive/cifs.go:53-99 | a share mount or a credentials file left behind survives every turn, crash and restart |
| TransferLaws.ScanIsDistinct | cmd/teslausb/main.go:557-587 | the four clip directories give a scan without repetitions |
| Discipline.ExclusiveAccess | cmd/teslausb/main.go:309-312 | in an accepted log every fsck and every sync begins while the car is cut off |
| Discipline.DeactivationIsMadeUpFor | cmd/teslausb/main.go:168-190 | in an accepted log an activation was tried between a deactivation and any later session or wait, across restarts too |
| Discipline.BoundUnlessActivationFailed | cmd/teslausb/main.go:168-174 | in an accepted log, before every wait and session this life booted, and the gadget is bound unless an activation failed and none has succeeded since |
| Discipline.BracketsClose | cmd/teslausb/main.go:320-355 | within one life, between two waits every connect, snapshot mount and wake start has had exactly one counterpart |
| Discipline.InnermostFirst | cmd/teslausb/main.go:324-355 | the unmount comes right after the wake stop, the wake stop with no connection open, the disconnect of a media sync after the reactivation |
| Progress.OneCycle | cmd/teslausb/main.go:118-197 | in a world that cooperates and with no mount on the snapshot's mountpoint, eight turns after a wait: exactly this sequence of events; every file listed by the scan of the session logged in the ledger, and all of them delivered if and only if none was marked and undelivered before; no path newly lost; each partition mounted once and rid of a stale mount; every folder that is switched on synced, in order, with its partition mounted; leftover dm nodes swept; kernel, share and credentials files otherwise as they were |
| Progress.SmoothSession | cmd/teslausb/main.go:380-419 | in a world that cooperates, from any ledger, a session marks every path of its scan, and each ends up delivered if and only if it was not marked and undelivered before; no path is newly lost, none that was lost is found |
| Progress.SmoothSyncAll | cmd/teslausb/main.go:502-540 | in a world that cooperates a sync asks for exactly the targets of its partitions, group after group, each with its partition mounted, and all succeed |
| Progress.ToSyncIs | cmd/teslausb/main.go:445-473 | the targets of a sync are music, light show and boombox as far as they are switched on, in that order, with their partitions and subdirectory |
| Progress.BlockedCycle | internal/snapshot/snapshot.go:101-110 | with a mount there, four turns of a cooperating world do nothing but take the drive away and give it back |
| Recovery.BootsInTwo | cmd/teslausb/main.go:202-253 | from any leftovers two turns present the whole drive - a lun with nofua for every partition, in a tree determined to its last attribute - and wait with nothing but leaked zram devices and media mounts left over |
| Drive.CarSeesThreePartitions | cmd/teslausb/main.go:211-239 | after those turns configfs holds lun 0, 1 and 2, with /dev/mmcblk0p5, p6 and p7 and the labels TeslaUSB CAM, MUSIC and LIGHTSHOW, removable, writable, nofua on |
| Drive.CarSeesTheGadget | internal/gadget/gadget.go:65-119 | and the vendor, product, strings, configuration, function and link of the source, bound to the controller found |
| Recovery.RecoversAndArchives | cmd/teslausb/main.go:108-199 | from any reachable state just restarted, ten turns of a cooperating world with exactly these events deliver everything the scan of their session lists if and only if no earlier life had marked and not delivered a path of it, leaving leaked zram devices and what lay under a topmost media mount |
| Recovery.Cycles | cmd/teslausb/main.go:108-199 | any number of such cycles in a row: each logs the same events, and delivers what its own scan lists if and only if none of it was lost before the first; no path is newly lost; kernel and share stay as they were, stale media mounts go one per cycle |
| Recovery.NextCycleArchivesIff | cmd/teslausb/main.go:154-160 | from any reachable wait in a cooperating world the next cycle takes a snapshot, and a session begins in the next eight turns and archives what it scans, if and only if no mount is left on the snapshot's mountpoint; otherwise ledger and kernel stay as they are |
| Recovery.BlockedForever | cmd/teslausb/main.go:154-160 | with a mount left there, cycle after cycle begins no session although every request is carried out |
| Standstill.StuckIsReachable | internal/snapshot/snapshot.go:126-160 | a lawful setup whose tenth turn waits with such a mount, without a restart, and with every later request carried out |
| Standstill.StandstillLasts | cmd/teslausb/main.go:154-160 | in that run no session ever begins again, the ledger stays as it was, and a clip that every later scan would list is never sent |
| Machine.StateMachine.Run | cmd/teslausb/main.go:108-199 | the object after n turns is the state machine run n turns, restarts included |
| Turns.TurnsFollow | cmd/teslausb/main.go:118-197 | a turn the process survives takes an arrow of the state diagram, any other leads to a restart at booting |
| Turns.WaitEndsIff | cmd/teslausb/main.go:129-137 | a wait ends if and only if WiFi is there, and does nothing but log |
| Turns.PreArchiveTurn | cmd/teslausb/main.go:139-152 | one wait for idleness, whose outcome makes no difference |
| Turns.SnapshotTurn | cmd/teslausb/main.go:290-306 | nothing happens if the drive cannot be taken away; otherwise there is a snapshot and the drive stays away, or there is none and an activation is tried |
| Turns.FsckTurn | cmd/teslausb/main.go:309-312 | one fsck, whose outcome makes no difference |
| Turns.ShutdownTurn | cmd/teslausb/main.go:109-116 | with a gadget a shutdown unbinds it in one request and logs that, or leaves configfs as it is when that request fails; without one it makes no request; everything else stays |
| Turns.ShutdownUnbindsIff | cmd/teslausb/main.go:255-261 | a bound drive is gone after a shutdown if and only if that request is carried out |
| Turns.TransferBeginsIff | cmd/teslausb/main.go:357-381 | the session begins if and only if the free space is not known to be below the reserve (and the process survives the look); otherwise nothing happens at all |
| Turns.ArchivingBeginsIff | cmd/teslausb/main.go:315-381 | an archiving turn begins a session if and only if its context, the mount, the archive's answer, each step of the connection and the free space are answered as they must; otherwise the ledger is not touched |
| Turns.MediaBeginsIff | cmd/teslausb/main.go:445-500 | a media turn begins a sync if and only if a folder is switched on, the archive answers and connects, and the drive is taken away; with no folder switched on it makes no request |
| Turns.UnwindUnmountsIff | cmd/teslausb/main.go:324-334 | at the end of an archiving turn the snapshot is unmounted if and only if it is seen mounted and one of two umounts is carried out, after the wake was stopped |
| Machine.StateMachine.Arm | cmd/teslausb/main.go:118-197 | the switch takes the transition of its state |
| Machine.StateMachine.Boot | cmd/teslausb/main.go:202-253 | unmount, cleanup, new gadget, configure, one lun per partition that exists, nofua on all, activate |
| Machine.StateMachine.Present | cmd/teslausb/main.go:211-245 | the gadget half of boot, failures of luns and nofua only logged |
| Machine.StateMachine.CreateSnapshot | cmd/teslausb/main.go:290-306 | deactivate, create, and reactivate when creation fails |
| Machine.StateMachine.RunFsck | cmd/teslausb/main.go:309-312 | one fsck run, whatever it reports |
| Machine.StateMachine.ReactivateGadget | cmd/teslausb/main.go:263-268 | an activation attempt where there is a gadget |
| Machine.StateMachine.RunArchive | cmd/teslausb/main.go:315-440 | mount, wake, connect, transfer, and the deferred steps in reverse on every exit |
| Machine.StateMachine.Transfer | cmd/teslausb/main.go:357-420 | the free-space check and the session |
| Machine.StateMachine.Session | cmd/teslausb/main.go:380-419 | create, scan, filter, archive, exactly one terminal update |
| Machine.StateMachine.RunMediaSync | cmd/teslausb/main.go:445-543 | group, connect, deactivate, sync each partition, reactivate, disconnect |
| Machine.StateMachine.CleanupSnapshot | cmd/teslausb/main.go:546-554 | release what is held and forget it |
| Machine.StateMachine.Shutdown | cmd/teslausb/main.go:109-116 | deactivate where there is a gadget, and end |
| SnapshotSpec.CleanupSweeps | internal/snapshot/snapshot.go:104-110 | the dm nodes go unless a mount pins them; zram devices and mounts stay |
| SnapshotSpec.BuildMeaning | internal/snapshot/snapshot.go:64-98 | the creation steps add exactly one fresh zram device, origin and snapshot, or fail having added at most the first two |
| SnapshotSpec.CreateWorksIff | internal/snapshot/snapshot.go:40-99 | a creation works if and only if the cleanup leaves neither node and is survived, all five requests are carried out and the device is new |
| SnapshotSpec.MountWorksIff | internal/snapshot/snapshot.go:113-122 | a mount works if and only if its mkdir and its mount are carried out and there is a snapshot |
| SnapshotSpec.ReleaseTries | internal/snapshot/snapshot.go:126-160 | a release that is survived has made every one of its requests |
| SnapshotSpec.CreateAllOrNothing | internal/snapshot/snapshot.go:40-99 | success adds one device, origin and snapshot and nothing else; failure at any step, undone without faults, leaves what a fault-free cleanup of the old state leaves |
| SnapshotSpec.RollbackMeaning | internal/snapshot/snapshot.go:57-62 | the rollback gives back exactly what the failed steps added |
| SnapshotSpec.ReleaseRestoresIff | internal/snapshot/snapshot.go:126-160 | without faults everything goes, if and only if at most one mount was stacked, whatever earlier steps reported |
| SnapshotSpec.LifeOfSnapshotIsUndoneIff | internal/snapshot/snapshot.go:40-160 | create, any number of mounts and unmounts with any outcome, release: back to the old state swept, if and only if at most one mount was left |
| SnapshotSpec.TwiceMountedIsNotUndone | internal/snapshot/snapshot.go:126-160 | a run in which two mounts pin everything |
| SnapshotSpec.StaleMountBlocksCreate | internal/snapshot/snapshot.go:101-110 | a mount left behind makes every creation fail and keeps its snapshot and origin |
| SnapshotSpec.CreateCounts | internal/snapshot/snapshot.go:40-99 | a creation adds one zram device per success, fault or death |
| SnapshotSpec.ReleaseCounts | internal/snapshot/snapshot.go:126-160 | a release gives the device back but for a fault or death |
| Snapshot.Cleanup | internal/snapshot/snapshot.go:104-110 | snapshot before origin, errors ignored |
| Snapshot.Create | internal/snapshot/snapshot.go:40-99 | cleanup, the creation steps, and release on failure; null exactly on failure |
| Snapshot.Snapshot.Build | internal/snapshot/snapshot.go:64-98 | the creation steps, stopping at the first error |
| Snapshot.Snapshot.Mount | internal/snapshot/snapshot.go:113-122 | the mountpoint is remembered even when the mount fails |
| Snapshot.Snapshot.Release | internal/snapshot/snapshot.go:126-160 | every step is tried whatever the earlier ones reported |
| Snapshot.Unmount | internal/fsutil/fsutil.go:83-97 | fsutil.Unmount of the snapshot mountpoint |
| Fsutil.UnmountMeaning | internal/fsutil/fsutil.go:80-97 | at most one mount comes off; success without faults means one did or none was there |
| Fsutil.UnmountWorksIff | internal/fsutil/fsutil.go:80-97 | a mount comes off if and only if it is seen and one of the two umounts is carried out |
| Fsutil.MountNeverStacks | internal/fsutil/fsutil.go:55-78 | Mount deepens a non-empty stack only when a request was refused |
| Fsutil.MountWorksIff | internal/fsutil/fsutil.go:55-78 | a mount works if and only if its command is issued and carried out; where a stale mount is seen and cannot be taken off it is not issued |
| GadgetSpec.TeardownRemovesAll | internal/gadget/gadget.go:241-286 | from any tree a crash can leave, a teardown without faults removes everything, and any teardown leaves such a tree |
| GadgetSpec.PopulateBuilds | internal/gadget/gadget.go:65-119 | on an empty configfs a successful Configure builds the gadget attribute for attribute |
| GadgetSpec.PopulateKeeps | internal/gadget/gadget.go:65-119 | over any leftovers it only adds, and leaves a well-formed tree |
| GadgetSpec.AddLunMeaning | internal/gadget/gadget.go:123-154 | wherever it fails only lun.len is touched; on success the new entry is what configfs holds |
| GadgetSpec.SetNofuaMeaning | internal/gadget/gadget.go:157-174 | the flag changes in memory exactly when it changed in configfs |
| GadgetSpec.EditsAgree | internal/gadget/gadget.go:123-174 | after any sequence of lun edits failing anywhere, LUNs[i] is what lun.i holds for every i |
| GadgetSpec.FindUdcPicks | internal/gadget/gadget.go:313-329 | the first controller that is not a dummy, or the first of all if every one is |
| GadgetSpec.ContainsDummyIff | internal/gadget/gadget.go:323-327 | a name is a dummy's if and only if dummy occurs in it |
| GadgetSpec.EnsureLinkIff | internal/gadget/gadget.go:178-192 | the link is made if and only if it can be looked at and is missing; one that cannot be looked at is taken to be there |
| GadgetSpec.AttachWorksIff | internal/gadget/gadget.go:193-214 | binding an unbound gadget works if and only if there is a controller and the write is carried out on a linked gadget; one already bound where it should be is left alone, and one bound elsewhere is moved if and only if it can be read, cleared and written |
| GadgetSpec.ActivateMeaning | internal/gadget/gadget.go:178-214 | success means bound to the named controller; failure leaves the binding or clears another one |
| GadgetSpec.DeactivateMeaning | internal/gadget/gadget.go:217-223 | success means unbound and inactive; failure changes nothing |
| GadgetSpec.ActiveAgreesIff | internal/gadget/gadget.go:178-214 | `active` follows the binding for every outcome if and only if no other controller was bound |
| GadgetSpec.PresentMeaning | cmd/teslausb/main.go:211-245 | a successful presentation is bound and agrees with configfs, from any leftovers |
| GadgetSpec.BootForgetsTheCrash | internal/gadget/gadget.go:52-63 | after a teardown without faults a boot over leftovers is the boot on an empty configfs, request by request |
| GadgetSpec.BootDeterminesTheTree | cmd/teslausb/main.go:211-245 | a boot all of whose steps succeed determines the tree to the last attribute, whatever was there before |
| Luns.AddAllPresents | cmd/teslausb/main.go:225-231 | the luns added are those of some of the partitions in their order, and when every step succeeds of precisely those whose stat was carried out |
| Luns.PresentOfParts | cmd/teslausb/main.go:211-245 | whatever a boot meets, the luns of its gadget are those of some of the partitions, in their order |
| Luns.BootPresentsWhatItFound | cmd/teslausb/main.go:211-245 | a boot all of whose steps succeed presents precisely the partitions found, each with its own device and label, with nofua on |
| Gadget.Gadget.Configure | internal/gadget/gadget.go:60-119 | teardown, then the tree, stopping at the first error |
| Gadget.Gadget.AddLUN | internal/gadget/gadget.go:123-154 | the five writes, and the append only after all of them |
| Gadget.Gadget.SetNofua | internal/gadget/gadget.go:157-174 | out of range is an error; the field follows the write |
| Gadget.Gadget.Activate | internal/gadget/gadget.go:178-214 | link, find, compare, clear, bind |
| Gadget.Gadget.Deactivate | internal/gadget/gadget.go:217-223 | the write, then the field |
| Gadget.Gadget.TeardownExisting | internal/gadget/gadget.go:241-248 | nothing when absent, else unbind and remove |
| Gadget.Gadget.RemoveConfigfsTree | internal/gadget/gadget.go:254-286 | links, luns, then directories deepest first |
| Gadget.Gadget.FindUdc | internal/gadget/gadget.go:313-329 | the first controller that is not a dummy, else the first |
| LedgerSpec.SessionKeeps | cmd/teslausb/main.go:380-419 | every session keeps at-most-once, the lag bound, the open-session bound and the tables; a session survived has had exactly one terminal update |
| LedgerSpec.SessionRecords | cmd/teslausb/main.go:403-419 | exactly what a session leaves: if it failed at index i, f[0..i-1] delivered and f[0..i] marked; if it completed over n files the row says n - 1 |
| LedgerSpec.RowsNameTheirSession | cmd/teslausb/main.go:405-410 | every row a session writes names the session it created |
| LedgerSpec.SendWorksIff | internal/archive/cifs.go:101-121 | per backend, a file is sent if and only if the process survives the mark, which may fail, and the directory, the copy and the removal are carried out as far as the backend has them; the copy is attempted only when what comes before it worked |
| LedgerSpec.ArchiveKeeps | internal/archive/cifs.go:101-121 | the loop of all four backends keeps the tables and the at-most-once count |
| LedgerSpec.ArchiveLags | internal/archive/cifs.go:101-121 | a loop that fails leaves at most one more path marked and undelivered |
| LedgerSpec.ArchiveDelivers | internal/archive/cifs.go:101-121 | everything before the reported index was delivered |
| LedgerSpec.ArchiveMarks | internal/archive/cifs.go:103-106 | with a working ledger the paths newly marked are precisely those up to and including the reported index |
| LedgerSpec.ListMeaning | internal/state/archive.go:36-44 | the list keeps order and distinctness and leaves the tables alone; every listed path may be sent |
| LedgerSpec.ListExact | internal/state/archive.go:36-44 | with working lookups the list is exactly the paths without a row |
| LedgerSpec.CreateKeeps | internal/state/archive.go:47-59 | a new id greater than all before, running, not yet closed |
| LedgerSpec.FinishKeeps | internal/state/archive.go:63-93 | a terminal update closes its session, or counts as failed, or dies with the process |
| LedgerRuns.SessionsKeep | cmd/teslausb/main.go:380-419 | all laws over any number of sessions with crashes |
| LedgerRuns.TransferAtMostOnce | internal/archive/cifs.go:101-121 | for every backend and path, copy attempts over all sessions at most 1 plus failed marks plus failed lookups of it |
| LedgerRuns.SessionShrinks | cmd/teslausb/main.go:393-417 | a session with something new strictly shrinks the unarchived list even if every copy fails |
| LedgerRuns.Converges | cmd/teslausb/main.go:393-417 | after as many sessions as there were new files nothing is left to do, and it stays so |
| LedgerRuns.AtMostOnceIffDistinct | cmd/teslausb/main.go:557-587 | the at-most-once count survives every first session if and only if the scan has no repetition |
| Losses.SessionLoses | cmd/teslausb/main.go:405-414 | any path a scan lists and the ledger does not have is lost by some session in which one copy is refused and no ledger request fails, with any backend |
| Losses.LosesNothingIff | cmd/teslausb/main.go:393-414 | a session leaves no more paths marked and undelivered, whatever it meets, if and only if the backend does not mark or every path of the scan is marked or delivered already |
| Losses.LostForGood | internal/state/archive.go:36-44 | over any run, restarts included, a path marked and undelivered stays so and is not sent, for as long as no lookup of it fails |
| Losses.FailedLookupRetries | internal/state/archive.go:36-44 | a failed lookup sends such a path once more, with no mark failed |
| Ledger.DB.ListUnarchived | internal/state/archive.go:36-44 | the loop of lookups, appending what is not archived |
| Ledger.DB.ArchiveFilesToShare | internal/archive/nfs.go:70-90 | CIFS and NFS: callback, mkdir, copy per file, return at the first error |
| Ledger.DB.ArchiveFilesByRsync | internal/archive/rsync.go:45-68 | callback and copy per file |
| Ledger.DB.ArchiveFilesByRclone | internal/archive/rclone.go:43-64 | callback, copy, remove the source per file |
| Scan.ScanFilesForArchive | cmd/teslausb/main.go:557-587 | disabled, absent and unreadable directories are skipped, the others listed in order |
| Scan.ScanLists | cmd/teslausb/main.go:570-585 | a path is listed if and only if it is an entry of an enabled, readable directory under that directory's path |
| Scan.ScanIsInOrder | cmd/teslausb/main.go:570-585 | the entries of each directory follow those of the directories before it, in its own order, and there are no others |
| TransferLaws.WhatIsScanned | cmd/teslausb/main.go:557-568 | flag by flag of the configuration, what the four clip directories contribute to the scan |
| Scan.ScanIsDistinct | cmd/teslausb/main.go:557-587 | directories with different paths never give the same path twice |
| Scan.SplitsUniquely | cmd/teslausb/main.go:582-584 | a path determines its directory and its name |
| MediaSync.Group | cmd/teslausb/main.go:462-473 | the order lists each partition with an enabled target once, where it first occurs; each group is its targets in list order |
| MediaSync.GroupingIsStable | cmd/teslausb/main.go:462-473 | within a partition the groups hold the same targets in the same order |
| MediaSync.GroupingPermutes | cmd/teslausb/main.go:462-473 | the groups together are a permutation of the enabled targets |
| MediaSync.EachMountedOnce | cmd/teslausb/main.go:502-518 | each partition is mounted at most once per sync |
| MediaSync.FoldersChoose | cmd/teslausb/main.go:520-534 | of a group precisely those targets are synced whose subdirectory could be made or is not needed, whatever became of the others, and those are done whose sync was carried out |
| MediaSync.SyncAllAsks | cmd/teslausb/main.go:502-540 | whatever it meets, a sync asks for some of the enabled targets, in the order of the groups, each only with its own partition mounted |
| MediaSync.SyncOneMeaning | cmd/teslausb/main.go:502-540 | a mount is tried if and only if the device is there and the mountpoint could be made; a partition is left mounted only for a fault or death, and a stale mount is gone afterwards otherwise |
| MediaSync.SyncAllCounts | cmd/teslausb/main.go:502-540 | partitions left mounted by a sync are paid for by faults and death |
| MediaSync.Partitions.Mount | internal/fsutil/fsutil.go:59-78 | a stale mount is unmounted first, or the mount is given up |
| MediaSync.Partitions.SyncPartitions | cmd/teslausb/main.go:502-540 | the loop over the partitions and their folders |
| ShareSpec.ConnectMeaning | internal/archive/cifs.go:53-82 | the share is mounted once on success and not at all on failure; credentials files are only added |
| ShareSpec.ConnectWorksIff | internal/archive/cifs.go:53-82 | a connect works if and only if each of its requests - four for CIFS, two for NFS, none otherwise - is carried out and the file it makes is new |
| ShareSpec.FailedConnectLeavesNoFileIff | internal/archive/cifs.go:53-82 | a failed connect leaves no credentials file, whatever it meets, if and only if the backend is not CIFS |
| ShareSpec.LeftFilesStay | internal/archive/cifs.go:85-99 | a file that was there before a connect survives it and the disconnect that follows |
| ShareSpec.LeftMountsStay | internal/archive/cifs.go:53-99 | a connect stacks on a mount that was there, and the disconnect that follows takes off only its own |
| ShareSpec.DisconnectLeavesIff | internal/archive/cifs.go:85-94 | a connection leaves its mount if and only if its umount is not carried out, as under a cancelled context |
| ShareSpec.ConnectFiles | internal/archive/cifs.go:53-82 | a connect that works makes one new file with CIFS and none otherwise; one that fails accounts for what it leaves |
| ShareSpec.DisconnectFiles | internal/archive/cifs.go:85-99 | a disconnect removes the file of its connect but for a refused removal or death |
| ShareSpec.DisconnectUndoesConnect | internal/archive/cifs.go:53-99 | without faults mounts and credentials files are back to what they were |
| ShareSpec.DisconnectMeaning | internal/archive/nfs.go:61-67 | a mount that stays is paid for by a fault or death |
| Archiver.Archiver.Connect | internal/archive/cifs.go:53-82 | the steps of CIFS and NFS; nothing for the others |
| Archiver.Archiver.Disconnect | internal/archive/cifs.go:85-99 | the credentials file is removed and forgotten whether or not the umount worked |
| IdleDetector.WaitForIdle | internal/fswatch/fswatch.go:57-110 | returns nil at exactly the first tick for which some earlier tick began an unbroken quiet run of at least the timeout |
| IdleDetector.QuietBytes | internal/fswatch/fswatch.go:85-107 | the bytes over a quiet run are at most (threshold - 1) per tick |
| IdleDetector.IdleMeansFewBytes | internal/fswatch/fswatch.go:57-110 | an idle verdict comes with such a run and such a bound |
| Watchdog.RunWatchdogLoop | internal/wifi/wifi.go:136-200 | the counter is the length of the trailing failing run, and reboots are the sum over maximal runs of max(0, length - max(1, maxFailures) + 1) |
| Watchdog.OneMoreTick | internal/wifi/wifi.go:161-200 | one more tick adds a reboot exactly when the run it extends has reached the limit |
| WakeKeeper.OneCallerIsSafe | internal/tesla/ble.go:35-94 | under every interleaving of one caller with its loops: at most one live loop, channels closed once, Stop never waits in vain, no live loop after it |
| WakeKeeper.StopCanReturn | internal/tesla/ble.go:52-64 | a waiting Stop returns once the loop it waits for is scheduled |
| WakeKeeper.StartsInFive | internal/tesla/ble.go:35-50 | on a keeper that is not running a Start makes exactly one context, one channel and one loop, and gives the lock back |
| WakeKeeper.EnteredStops | internal/tesla/ble.go:52-57 | a Stop of the one caller is on its way to that from its first statement on |
| WakeKeeper.StopLeavesNoLoop | internal/tesla/ble.go:52-64 | once a Stop of the one caller has returned, whatever ran in between, no loop is live until a Start comes |
| WakeKeeper.TwoCallersAreNotSafe | internal/tesla/ble.go:35-94 | an interleaving of two callers in which a Stop waits for a channel nobody will close and another is closed twice |
| WakeKeeper.SafeIffOneCaller | internal/tesla/ble.go:35-94 | every interleaving of n callers with their loops is safe if and only if n is at most one |
| Keyfile.RenderHomeKeyfile | internal/wifi/provision.go:29-48 | the builder writes exactly the lines of the profile |
| Keyfile.ProfileReadsBackIff | internal/wifi/provision.go:22-48 | the profile reads back as the credentials if and only if they hold no newline |
| Keyfile.ProfileConnects | internal/wifi/provision.go:22-48 | the profile is a WiFi connection named by the SSID that connects by itself with a WPA passphrase and takes its addresses from the network |
| Keyfile.EnsureWorksIff | internal/wifi/provision.go:58-89 | provisioning succeeds if and only if there is nothing to provision, or the profile is readable and up to date, or mkdir, write, chmod and reload are all carried out; what each of these leaves |
| Keyfile.ProfileIsInjective | internal/wifi/provision.go:64-70 | equal profiles mean equal newline-free credentials |
| Keyfile.Connections.EnsureHomeConnection | internal/wifi/provision.go:58-89 | compare, write, chmod, reload, stopping at the first error |
| Keyfile.SkipsIffUnchanged | internal/wifi/provision.go:50-70 | on a profile this code wrote, whatever its mode, the skip happens exactly when the credentials are unchanged and leaves everything as it was; otherwise success reloads once and leaves a secret profile; either way it reads back |
| Keyfile.SuccessMeansLoadedIff | internal/wifi/provision.go:58-89 | success means NetworkManager has the profile, whatever the call meets, if and only if the profile was not already on disk without being loaded |
| Keyfile.FailedReloadIsNotRetried | internal/wifi/provision.go:67-88 | from any disk without the profile a refused reload leaves the profile written and not loaded, and every later call that can read it succeeds without reloading |
| Keyfile.SuccessMeansSecretIff | internal/wifi/provision.go:67-81 | success leaves a profile of mode 0600, whatever the call meets, if and only if the profile was not already on disk with another mode |
| Keyfile.RefusedChmodIsNotRetried | internal/wifi/provision.go:67-81 | from any disk with a loose file a refused chmod leaves the profile written and loose, and every later call that can read it succeeds and leaves it so |

## Left out

- The HTTP server, notifiers, health monitor, Tessie and webhook wake keepers: network plumbing and user interface.
- The configuration loader and its validation, LEDs, CPU governor, VM tuning, HDMI and sd_notify: single steps without state here.
- What rsync, rclone, mount, dmsetup, nmcli and SQLite do inside: a request succeeds or fails with the state change above.
- Block contents, the copy-on-write store and its size: the LUN is backed by the raw partition, so the code supports no claim about frozen contents.
- The shell and Python scripts of the image build: linear or table lookups.
- Wall-clock time: ticks carry nondecreasing time stamps (Go's monotonic clock) and sleeps are nothing.
- `Gadget.Destroy`, `Snapshot.IsValid`, `DB.RecentSessions` and `ArchiveLog`: the loop calls none of the first three, and the last changes no modelled state.
- The text scan of /proc/mounts, the search for the gadget's process and the parsing of its counters: their outcome is an answer.
- Calling two requests one: an `os.MkdirAll` of several missing configfs directories is one request per directory, the implicit default groups are not nodes.
- The iteration order of Go maps: `Configure` writes descriptors and strings in one fixed order.
- An unlink of a function from a bound gadget is taken to be refused; the code unbinds first.
- The error return of `LastInsertId`, and the error return of `scanFilesForArchive`, which the code never takes.
- The reference from archived_files to archive_sessions is not enforced by SQLite as opened here; that rows name existing sessions is proved instead.
- A shutdown requested in the middle of a turn shows as requests refused from then on, and as the end of the process where the code returns at once.
- Waiting for WiFi, for idleness and for the next cycle are one request each in the loop: any number of waits, in any order with shutdowns.
- MachineLaws.MemoryAgreesWithConfigfs: the listing of /sys/class/udc is taken not to change during a run.
- Progress.OneCycle: the world that cooperates also hands out fresh zram and file numbers, and reports enough free space.
- WakeKeeper.OneCallerIsSafe: nudges are turns without effect; the parent context may be cancelled at any moment.
