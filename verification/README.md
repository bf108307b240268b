# Virtua: models and proofs

Dafny models of the parts of Virtua whose correctness spans several functions or a whole
run: the local VM manager of the desktop client, the crash watcher of the API, the
client's token refresh, two line protocols over sockets, and the codecs and printers the
others rely on. `dafny verify dfyconfig.toml` checks everything.

## How it is organised

| modules | what they model |
|---|---|
| `LocalVms`, `VmManager` | the VM manager: records, processes, disks, and every command that changes them, as functions (`LocalVms`) and as a class that updates its fields as the source does (`VmManager`) |
| `VmOutcomes` | what each command achieves, from the inventory it has read |
| `VmSafety`, `VmRuns`, `VmSnapshots`, `VmExamples` | what every run of the manager keeps, and runs in which something is lost |
| `LaunchLadder`, `LaunchFeatures`, `QemuLadder` | the ladder of launch plans and the pruned search on it: for any verdicts, for a QEMU with given features, and with the command lines that can be built |
| `QemuArgs`, `QemuCommand` | the QEMU command line, as typed arguments, and as its words are pushed |
| `OptionStrings`, `QemuOptions`, `QemuWords`, `QemuReading`, `QemuContents` | the same command line as QEMU reads it back from its words: its names, and what it gives the guest |
| `CrashWatcher`, `CrashHistory`, `CrashDiagnoses` | the crash watcher: the class, its histories, and whom it diagnoses, told from the listings |
| `CrashRestarts`, `CrashLimits` | the limit on automatic restarts, and the same in minutes and days |
| `TokenRefresh` | the refresh protocol between concurrent requests, the token store and the server |
| `TokenRetries` | what becomes of a request that is rejected |
| `AgentReply`, `RunnerCall`, `Lines` | replies framed by line feeds, cut anywhere |
| `Base64`, `CpioNewc`, `ShellQuote`, `XmlEscape`, `TemplateConfig`, `Download`, `StorageScan` | codecs, printers, the resumable download, the pool walk |
| `Wrappers`, `Sequences`, `Words`, `Decimals`, `Replace` | shared notions |

Where the source changes variables step by step, a class or a method with loops does the
same and is proved equal to a function of the old state (`Step`, `Do`, `Run`); the
properties are lemmas about that function. A run is any sequence of events. Time, the
network, the process table, QEMU's answers and I/O failures are inputs of those events, so
the lemmas hold for all of them.

## What was found

Properties that do not hold as their comments suggest are stated with their exact condition.

- The restart limit of the crash watcher does not cover every window of `windowMinutes`:
  rows are stamped in whole seconds, so a window that starts within a second can hold one
  restart too many, and a retention shorter than the window forgets restarts.
  `CrashRestarts.LimitHoldsExactly` gives the windows it does cover. `db.ts` counts failed
  restarts too, and the model follows it. On the clock the covered windows are a second shorter
  than configured (`CrashLimits.LimitInMinutes`).
- The launch ladder stops at a plan whose command line cannot be built, although a later plan
  may start the VM. That happens exactly to an ARM64 VM with valid paths and a UEFI pair of
  which one firmware is unusable: QEMU's own is missing, or the pair has a comma or a line
  break in a path (`QemuLadder.SearchIsNaiveExactly`; both inputs are `MissingFirmwareGivesUp`
  and `InvalidUefiGivesUp`).
- A download whose temporary file is complete but could not be published is published only
  by a run that is answered 200 (`Download.CompleteFileIsPublishedExactly`): a server that
  honours ranges answers 416 for ever. The destination holds what it held or the whole body
  at every moment exactly when no copy breaks off after a failed rename
  (`Download.RunIsSafeExactly`, `BrokenCopyPublishesPart`).
- A template is imported as exported only if its name, disk name and architecture have no
  line break or outer white space and the architecture is not one of the two spellings that
  the import normalises (`TemplateConfig.ExportThenImport`).
- `cpio_newc` is read back only when both lengths fit 32 bits, and the name has no NUL and
  is not the trailer's (`CpioNewc.ArchiveRoundTrip`).
- A storage file deleted as an ISO, a template or a snapshot is not compared with the disks
  of the VMs: if the user makes one of those directories hold the disks, a disk in use goes.
  `VmRuns.StorageDeletionIsSafeExactly` says when, `VmExamples.DiskInUseDeleted` is a run.
- The id of a snapshot is the second it was taken in, and rollback and deletion take the first
  entry with that id. Of two snapshots of one VM taken in one second under different names, the
  second is out of reach: a rollback to it gives the disk of the first, though nothing
  interfered (`VmExamples.SameIdRollsBackToFirst`).
- The file name of a snapshot reads the clock again. Two snapshots of one VM and name that read
  the same second for the file share it even if their ids differ: the second overwrites the
  first, and a rollback to the first gives the disk of the second
  (`VmExamples.SameSecondLosesSnapshot`). `VmSnapshots.SnapshotStaysExactly` has the condition
  that covers both.
- The inventory refresh looks processes up by pid alone once it has matched their names, so
  a stopped VM whose pid went to another VM's QEMU reads as running, refresh after refresh
  (`VmRuns.MistakenExactly`; `VmExamples.StoppedVmReadsAsRunning` is a run). It is safe: no
  lemma about runs is affected.
- When the keychain fails to save one refresh token and later fails to clear it, the client
  loads a rotated token back and sends it (`TokenRefresh.KeychainFailuresResend`); without
  both failures it never does (`TokenRefresh.NeverSendsRotatedExactly`).
- `isInside` refuses a file directly below the directory in an entry whose name starts with
  two dots (`StorageScan.IsInsideExactly`).

## Model

| member | source | states |
|---|---|---|
| LocalVms.FirstFree | Desktop_client/src-tauri/src/lib.rs:823-827 | the lowest port of the range that is neither reserved nor busy, and none only if there is none |
| VmManager.Manager.RefreshVmStates | Desktop_client/src-tauri/src/lib.rs:1019-1099 | the two loops of the refresh, over the records and over the VMs to start again, give the specified state whatever happens in between |
| VmManager.RefreshRecord | Desktop_client/src-tauri/src/lib.rs:1032-1081 | one record of that pass, branch by branch, and whether the VM is to be started again |
| VmOutcomes.ReadOutcome | Desktop_client/src-tauri/src/lib.rs:1019-1099 | what a reading makes of every record: one without a pid stays, one whose process is gone is stopped, one that runs is recorded running and its agent asked, an installation that is over is forgotten; then the Debian installers found gone, and no others, are started again in turn |
| VmManager.Manager.ProcessesAlive | Desktop_client/src-tauri/src/platform.rs:551-574 | the pids found alive: those of a record whose id or name the process carries |
| VmManager.Manager.StartLocalVm | Desktop_client/src-tauri/src/lib.rs:3872-4123 | a start takes five fresh ports at most, records the pid and the plan's SPICE, or changes nothing but the surroundings |
| VmRuns.StartOutcome | Desktop_client/src-tauri/src/lib.rs:3895-4123 | a start that succeeds leaves its VM alive under the new pid, with SPICE as its plan has it and RDP only for Windows on the user network; one that fails leaves every record as it was |
| VmManager.Manager.RunStart | Desktop_client/src-tauri/src/lib.rs:4150-4162 | a VM found alive is left alone, any other is started |
| VmOutcomes.StartOutcome | Desktop_client/src-tauri/src/lib.rs:3872-4162 | a VM found alive is left alone; any other runs afterwards under the pid of the launch exactly when its disk, a port of each kind and a QEMU that stays up are there, else nothing has changed |
| VmManager.Manager.RunShutdown | Desktop_client/src-tauri/src/lib.rs:4163-4173 | a dead VM is recorded stopped; a live one is stopping once QMP accepted, else unchanged |
| VmOutcomes.ShutdownOutcome | Desktop_client/src-tauri/src/lib.rs:4163-4173 | the record of a dead VM is cleared, that of a live one is stopping exactly if QMP accepted, and no other changes |
| VmManager.Manager.RunStop | Desktop_client/src-tauri/src/lib.rs:4174-4191 | the record is cleared once the process is gone, and kept if it could not be killed |
| VmOutcomes.StopOutcome | Desktop_client/src-tauri/src/lib.rs:4174-4191 | the record is cleared and no QEMU of the VM is left exactly if the process has ended; else it is kept |
| VmManager.Manager.RunRestart | Desktop_client/src-tauri/src/lib.rs:4192-4212 | stop, then a start from a fresh reading of the inventory |
| VmOutcomes.RestartIsStopAndStart | Desktop_client/src-tauri/src/lib.rs:4192-4212 | a restart is a stop and, if that ended the process, a start |
| VmManager.Manager.CreateVm | Desktop_client/src-tauri/src/lib.rs:2624-2736 | a record is added, stopped and with its own disk, unless the name is taken |
| VmOutcomes.CreateOutcome | Desktop_client/src-tauri/src/lib.rs:2624-2736 | the record and its disk are there exactly if no record has that name, but for the case of its letters |
| VmManager.Manager.ImportVm | Desktop_client/src-tauri/src/lib.rs:2174-2231 | a template import adds a stopped record with its own disk |
| VmOutcomes.ImportOutcome | Desktop_client/src-tauri/src/lib.rs:2174-2231 | so they are after an import |
| VmManager.Manager.QuickCreateVm | Desktop_client/src-tauri/src/quickcreate.rs:616-631 | the new record, and only it, is marked as being installed |
| VmOutcomes.QuickCreateOutcome | Desktop_client/src-tauri/src/quickcreate.rs:616-631 | the VM is created, the inventory read, and the new record alone marked |
| VmManager.Manager.UpdateVm | Desktop_client/src-tauri/src/lib.rs:2748-2833 | a change is applied whole or not at all, and never to the disk, the pid or the ports |
| VmOutcomes.UpdateOutcome | Desktop_client/src-tauri/src/lib.rs:2748-2833 | what the change names is as it says and nothing else has changed, or, with a name taken or empty or a bus changed under a live VM, nothing at all |
| VmManager.Manager.DeleteVm | Desktop_client/src-tauri/src/lib.rs:2845-2900 | the record goes once its process is gone and its disk removed; it is kept if either fails |
| VmOutcomes.DeleteOutcome | Desktop_client/src-tauri/src/lib.rs:2845-2900 | no record has that number afterwards exactly if the process has ended and no wanted removal failed; the others stay, in order, and the file is gone exactly if it was wanted, there and inside; else record and file are kept |
| VmOutcomes.UnknownVm | Desktop_client/src-tauri/src/lib.rs:4141-4148 | a command for a VM that is not there only reads the inventory |
| VmManager.Manager.CreateSnapshot | Desktop_client/src-tauri/src/lib.rs:2413-2452 | only of a stopped VM with a disk: the file, named by a second reading of the clock, gets the content of the disk and is indexed under the first |
| VmOutcomes.TakeOutcome | Desktop_client/src-tauri/src/lib.rs:2413-2452 | the file and the entry are there, the other entries stay, and nothing else changes; nothing does for a VM with a process or without its disk |
| VmManager.Manager.RollbackSnapshot | Desktop_client/src-tauri/src/lib.rs:2489-2514 | only of a stopped VM and an indexed, present snapshot: the disk gets its content |
| VmOutcomes.RollbackOutcome | Desktop_client/src-tauri/src/lib.rs:2489-2514 | only the disk changes, and only for a VM without a process and a listed file inside |
| VmManager.Manager.DeleteSnapshot | Desktop_client/src-tauri/src/lib.rs:2464-2477 | the file goes if it is in the snapshot directory, then the index entry |
| VmOutcomes.DropOutcome | Desktop_client/src-tauri/src/lib.rs:2464-2477 | one entry with that id less, and its file gone if inside; both kept if the file could not be removed |
| VmManager.Manager.DeleteStorageFile | Desktop_client/src-tauri/src/lib.rs:2337-2391 | a disk of a VM is refused, when deleted as a disk |
| VmOutcomes.DeleteFileOutcome | Desktop_client/src-tauri/src/lib.rs:2337-2391 | the file is gone exactly if it was there, inside, removable and no disk deleted as one, and the snapshots of a gone snapshot file with it |
| VmSafety.DoSound | Desktop_client/src-tauri/src/lib.rs:4141-4219 | every command, interrupted anywhere by guest exits, foreign processes and PID reuse, keeps the invariant of the manager |
| VmSafety.ReadSound | Desktop_client/src-tauri/src/lib.rs:1019-1099 | so does the refresh that every command starts with, automatic restarts included |
| VmSafety.DeadIsOff | Desktop_client/src-tauri/src/lib.rs:1012-1017 | a record whose process is not found alive has no QEMU anywhere, under any pid |
| VmSafety.HaltSound | Desktop_client/src-tauri/src/lib.rs:2855-2877 | after QMP quit, the wait and the kill, no QEMU of the VM is left |
| VmSafety.NewPortsFit | Desktop_client/src-tauri/src/lib.rs:3898-3932 | the ports of a start are in their ranges and held by no other record |
| VmSafety.StampIsUnique | Desktop_client/src-tauri/src/lib.rs:2659-2660 | a file name ends with one number only, so disks of different VMs, and a disk and a snapshot, are never the same file |
| VmRuns.RunSound | Desktop_client/src-tauri/src/lib.rs:964-973 | the invariant holds after every run of commands, one at a time, from an empty inventory |
| VmRuns.OneQemu | Desktop_client/src-tauri/src/lib.rs:4141-4219 | in every run a VM has at most one live QEMU, and its record names it |
| VmRuns.DisksInUseAreNotTouched | Desktop_client/src-tauri/src/lib.rs:2413-2514 | in every run no snapshot, rollback, export or deletion of a disk touches a disk whose QEMU is alive |
| VmRuns.StorageDeletionIsSafeExactly | Desktop_client/src-tauri/src/lib.rs:2337-2369 | after any run, deleting a storage file touches a disk in use exactly when it is deleted as an ISO, a template or a snapshot, is there and inside that directory, and is the disk of a VM whose record names its live QEMU |
| VmExamples.DiskInUseDeleted | Desktop_client/src-tauri/src/lib.rs:2337-2369 | a run that creates and starts a VM and deletes its disk as an ISO |
| VmRuns.InventoryIsConsistent | Desktop_client/src-tauri/src/lib.rs:4081-4139 | in every run: no pid, stopped and no port are the same; all ports held differ, within and across kinds; ids and disks differ |
| VmRuns.LoopbackAddressesDiffer | Desktop_client/src-tauri/src/unified.rs:21-27 | on Windows, two VMs with an RDP forward never share the 127.0.0.x address that saved credentials are keyed by |
| VmRuns.MistakenExactly | Desktop_client/src-tauri/src/lib.rs:1021-1051 | after any run, the refresh keeps a dead VM as running exactly when its pid went to another VM's QEMU, or to a foreign process with the name of another record that has the same pid |
| VmExamples.StoppedVmReadsAsRunning | Desktop_client/src-tauri/src/lib.rs:1021-1051 | a run of two VMs that ends in such a state, which a further refresh does not change |
| VmRuns.UnwrittenIsUnchanged | Desktop_client/src-tauri/src/lib.rs:1095-1098 | a refresh that writes nothing has changed nothing, in any state a run reaches |
| VmRuns.RestartedOnce | Desktop_client/src-tauri/src/quickcreate.rs:658-677 | in every run the refresh restarts a VM at most once, and without the installer kernel |
| VmRuns.NeverReinstalled | Desktop_client/src-tauri/src/quickcreate.rs:658-677 | once an installation is over it stays over: every later start of the VM is asked for and has no installer kernel |
| VmSnapshots.SnapshotRoundTrip | Desktop_client/src-tauri/src/lib.rs:2413-2514 | whatever happens after a snapshot whose id was its own and that nothing interfered with, a rollback to it gives the VM the disk it had |
| VmSnapshots.SnapshotStaysExactly | Desktop_client/src-tauri/src/lib.rs:2413-2514 | over every run, whatever guests write, a snapshot is and stays what a rollback to its id fetches, with the disk of that moment, exactly when the first listed entry with its id, if any, names the same file, and no later command overwrites the file with another disk, drops or deletes it, or brings back an entry ahead of it |
| VmSnapshots.StepHoldsExactly | Desktop_client/src-tauri/src/lib.rs:2413-2514 | for one command, snapshots with the same id included, in any state the manager can be in |
| VmSnapshots.RolledBack | Desktop_client/src-tauri/src/lib.rs:2489-2514 | a rollback of a VM at rest gives its disk the file of the first entry with that id, and leaves it if there is none |
| VmExamples.SameIdRollsBackToFirst | Desktop_client/src-tauri/src/lib.rs:2427-2433 | a run with two snapshots of one VM in one second, after which a rollback to the second gives the disk of the first |
| VmExamples.SameSecondLosesSnapshot | Desktop_client/src-tauri/src/lib.rs:2427-2433 | a run with two snapshots of different ids and one file name, after which the first has the disk of the second |
| LaunchLadder.StartFirst | Desktop_client/src-tauri/src/lib.rs:3982-4123 | the search loop with its SPICE flag |
| LaunchLadder.PrunedIsNaiveExactly | Desktop_client/src-tauri/src/lib.rs:3982-4123 | the pruned search is the naive one exactly when neither a pruned plan nor an unbuildable one hides the first accepted plan |
| LaunchLadder.PruningIsHarmless | Desktop_client/src-tauri/src/lib.rs:3982-3987 | for any verdicts in which no plan is unbuildable and SPICE is refused for all plans alike, the first accepted plan is started, and none only if none is accepted |
| QemuLadder.BuildsExactly | Desktop_client/src-tauri/src/lib.rs:3425-3588 | a command line is built exactly when every path on it is free of commas and line breaks and, on ARM64, there is a firmware for the plan |
| QemuLadder.LadderBuildsExactly | Desktop_client/src-tauri/src/lib.rs:3425-3588 | every plan of the ladder can be built exactly when all paths are valid and, on ARM64, QEMU's own firmware is there |
| QemuLadder.SearchIsNaiveExactly | Desktop_client/src-tauri/src/lib.rs:3982-4123 | for every QEMU that refuses SPICE for all plans alike, the loop starts the first plan it accepts and fails only if there is none, if and only if not an ARM64 VM with just one usable firmware |
| QemuLadder.MissingFirmwareGivesUp | Desktop_client/src-tauri/src/lib.rs:4017-4023 | without QEMU's own firmware the loop gives up although a later plan is accepted |
| QemuLadder.InvalidUefiGivesUp | Desktop_client/src-tauri/src/lib.rs:4017-4023 | so it does for a UEFI pair with a bad path |
| LaunchLadder.EmulationIsTheLastResort | Desktop_client/src-tauri/src/lib.rs:3286-3381 | a slower accelerator is used only when QEMU accepts no plan with the preferred one |
| LaunchFeatures.StartsAsOffered | Desktop_client/src-tauri/src/lib.rs:3286-3381 | for every architecture, graphics model, accelerator and QEMU that accepts a plan exactly when it has its features: which plan the VM is started with, and that it is given up only if there is none |
| LaunchFeatures.AcceleratorIsKept | Desktop_client/src-tauri/src/lib.rs:3319-3338 | the preferred accelerator is kept whenever QEMU has it and standard graphics, whatever else it lacks |
| LaunchFeatures.WithoutSpice | Desktop_client/src-tauri/src/lib.rs:3319-3330 | a QEMU that lacks SPICE alone keeps the graphics asked for and the tablet |
| LaunchFeatures.WithoutAccelerator | Desktop_client/src-tauri/src/lib.rs:3339-3362 | one that lacks the preferred accelerator emulates, with tablet and firmware variables |
| LaunchFeatures.WithEverything | Desktop_client/src-tauri/src/lib.rs:3286-3310 | one that has everything gives everything |
| LaunchLadder.AudioNeedsSpice | Desktop_client/src-tauri/src/lib.rs:3286-3381 | no plan asks for SPICE audio without SPICE |
| LaunchLadder.RungOf | Desktop_client/src-tauri/src/lib.rs:3286-3381 | the accelerated plans come first, the fallback ones after |
| QemuArgs.ReferencesResolve | Desktop_client/src-tauri/src/lib.rs:3405-3608 | for every VM and plan, each id an argument refers to is declared by an earlier argument of the right kind, and no id is declared twice |
| QemuArgs.ResolvedMeans | Desktop_client/src-tauri/src/lib.rs:3405-3608 | what that says of each argument of the list |
| QemuArgs.NamesAreDistinct | Desktop_client/src-tauri/src/lib.rs:636-817 | different ids are different words, so a reference means one declaration only |
| QemuOptions.DrivesAreReadBack | Desktop_client/src-tauri/src/lib.rs:636-777 | splitting a drive option as QEMU does gives back its parts, the accepted path included |
| QemuOptions.DiskDriveReadBackExactly | Desktop_client/src-tauri/src/lib.rs:716-722 | the rule on commas is the right one: a disk's drive is read back exactly when its path passes it |
| QemuOptions.BootIndicesDiffer | Desktop_client/src-tauri/src/lib.rs:636-777 | no two devices share a boot index |
| QemuReading.BootIndicesAreReadOnce | Desktop_client/src-tauri/src/lib.rs:636-777 | nor do two options read back from the words |
| QemuOptions.KernelOnlyWhileInstalling | Desktop_client/src-tauri/src/lib.rs:3497-3504 | QEMU boots a kernel exactly while the record holds one with its initrd |
| QemuReading.KernelIsReadWhileInstalling | Desktop_client/src-tauri/src/lib.rs:3497-3504 | the same of the words |
| QemuOptions.AudioComesWithSpice | Desktop_client/src-tauri/src/lib.rs:3554-3583 | a SPICE audio device only comes with SPICE on, for every plan of the ladder |
| QemuReading.AudioIsReadWithSpice | Desktop_client/src-tauri/src/lib.rs:3554-3583 | `-audiodev` among the words comes with `-spice` |
| QemuReading.CommandLineResolves | Desktop_client/src-tauri/src/lib.rs:3405-3608 | reading the words of any command line two by two, split on commas and at `=`, every name an option refers to is the `id=` of an earlier option of the right kind, and no `id=` occurs twice |
| QemuReading.OptionsAreReadBack | Desktop_client/src-tauri/src/lib.rs:3405-3608 | QEMU splits every option of the command line into exactly the parts it was made of |
| QemuContents.MachineIsAsRecorded | Desktop_client/src-tauri/src/lib.rs:3405-3420 | the words hold the name, memory and processors of the record |
| QemuContents.AcceleratorIsThePlans | Desktop_client/src-tauri/src/platform.rs:355-388 | they hold the plan's accelerator with its board and processor |
| QemuContents.UefiIsThere | Desktop_client/src-tauri/src/lib.rs:3429-3455 | both halves of a UEFI pair, with SMM where it protects them, in every plan that keeps it |
| QemuContents.BiosIsThere | Desktop_client/src-tauri/src/lib.rs:3446-3455 | QEMU's own firmware for the other ARM64 guests |
| QemuContents.PointerIsThere | Desktop_client/src-tauri/src/lib.rs:3456-3471 | a keyboard and a pointer for every ARM64 guest, the tablet for the plans that have it |
| QemuContents.DiskIsThere | Desktop_client/src-tauri/src/lib.rs:636-691 | the disk of the record |
| QemuContents.DiskIsAttached | Desktop_client/src-tauri/src/lib.rs:636-691 | its device, by the record's bus, with a thread when tuned for it |
| QemuContents.DiscsAreThere | Desktop_client/src-tauri/src/lib.rs:729-777 | the installer, first in the boot order, and the driver disc |
| QemuContents.GraphicsAreThePlans | Desktop_client/src-tauri/src/lib.rs:583-593 | the plan's graphics |
| QemuContents.NetworkIsAttached | Desktop_client/src-tauri/src/lib.rs:779-817 | a card its drivers know on the back end of the record, with the RDP forward |
| QemuContents.ControlIsThere | Desktop_client/src-tauri/src/lib.rs:3540-3608 | console, QMP and guest agent on the loopback address and the ports drawn, in every plan |
| QemuContents.SpiceIsThere | Desktop_client/src-tauri/src/lib.rs:3554-3572 | SPICE with its password, as a secret or inline, as the plan has it |
| QemuContents.AudioIsThere | Desktop_client/src-tauri/src/lib.rs:3573-3583 | the sound card with its controller |
| QemuContents.TpmIsThere | Desktop_client/src-tauri/src/lib.rs:3529-3538 | the emulated TPM when there is a socket |
| QemuContents.AnswerFileIsThere | Desktop_client/src-tauri/src/lib.rs:3506-3527 | the answer file as a removable disk |
| QemuContents.SerialIsThere | Desktop_client/src-tauri/src/lib.rs:3585-3594 | the serial console in its log |
| QemuContents.InstallerIsThere | Desktop_client/src-tauri/src/lib.rs:3497-3504 | the installer's kernel, initrd and arguments |
| QemuContents.TuningIsThere | Desktop_client/src-tauri/src/lib.rs:693-714 | what a tuned plan adds |
| QemuContents.NothingUnasked | Desktop_client/src-tauri/src/lib.rs:3405-3608 | no SPICE or audio but the plan's, no network for an isolated guest, no TPM without its socket |
| QemuCommand.Command.AppendDisk | Desktop_client/src-tauri/src/lib.rs:636-691 | the words of the disk, for each bus |
| QemuCommand.Command.AppendCdroms | Desktop_client/src-tauri/src/lib.rs:729-777 | the words of the discs, or the refusal of a path |
| OptionStrings.OptionsRoundTripExactly | Desktop_client/src-tauri/src/lib.rs:636-722 | an option string is read back as its parts exactly when none of them holds a comma |
| OptionStrings.SplitJoin | Desktop_client/src-tauri/src/lib.rs:636-691 | QEMU's splitting inverts joining on comma-free parts |
| CrashWatcher.Watcher.Observe | apps/api/src/crashWatcher.ts:266-293 | the synchronous part of a tick gives the specified marks and reference, and diagnoses each guest once |
| CrashWatcher.Watcher.Sift | apps/api/src/crashWatcher.ts:273-281 | among the guests that stopped, those without a valid mark are pending, and the marks of all are used up |
| CrashWatcher.Watcher.BeginTick | apps/api/src/crashWatcher.ts:262-265 | a tick that is under way is not overlapped |
| CrashWatcher.Watcher.Prune | apps/api/src/crashWatcher.ts:61-66 | exactly the expired marks go |
| CrashWatcher.Watcher.Consume | apps/api/src/crashWatcher.ts:53-59 | a mark is used once, and counts if it has not expired |
| CrashWatcher.Watcher.MarkExpected | apps/api/src/crashWatcher.ts:48-50 | the mark of a guest is set, and no other |
| CrashWatcher.Merge | apps/api/src/crashWatcher.ts:283-291 | a family that was read is replaced, the other is kept |
| CrashWatcher.Collect | apps/api/src/crashWatcher.ts:93-114 | the states of both listings, and the families that answered |
| CrashWatcher.KeyRoundTrip | apps/api/src/crashWatcher.ts:37-39 | a key gives back its family and name, colons included |
| CrashHistory.ReferenceIsLastListing | apps/api/src/crashWatcher.ts:266-293 | after any history the reference of a family is its last successful listing |
| CrashHistory.DiagnosedExactly | apps/api/src/crashWatcher.ts:273-281 | a guest is diagnosed exactly when that listing had it running, the new one has it in no live state, and no unexpired mark is left |
| CrashDiagnoses.DiagnosedFromListings | apps/api/src/crashWatcher.ts:266-281 | the same on the listings and marks as they came, with the four live states by name |
| CrashDiagnoses.SaysExactly | apps/api/src/crashWatcher.ts:93-114 | the last entry of a name in a listing counts, and one without a state says unknown |
| CrashHistory.MarksArePreserved | apps/api/src/crashWatcher.ts:53-66 | pruning never changes what a later stop finds |
| CrashHistory.RunningBetweenDiagnoses | apps/api/src/crashWatcher.ts:283-293 | between two diagnoses of a guest it was seen running |
| CrashHistory.FamiliesAreIndependent | apps/api/src/crashWatcher.ts:93-114 | failed polls, ticks, and marks and listings of the other family leave the diagnoses of a family as they are |
| CrashRestarts.Handler.HandleUnexpectedStop | apps/api/src/crashWatcher.ts:168-214 | crash row, policy, count, and then a start or a row that gives up |
| CrashRestarts.Handler.StartReturned | apps/api/src/crashWatcher.ts:214-239 | the awaited start is recorded, failed or not |
| CrashRestarts.CountRecentRestarts | apps/api/src/db.ts:815-828 | restarts tried of that guest since the cutoff |
| CrashRestarts.Handler.Prune | apps/api/src/db.ts:838-843 | rows older than the retention go |
| CrashRestarts.LimitHolds | apps/api/src/crashWatcher.ts:196-239 | in every run a covered window, wherever it starts, holds at most `maxAttempts` starts of a guest, prunings and awaited starts included |
| CrashRestarts.LimitHoldsExactly | apps/api/src/db.ts:815-843 | which windows those are: exactly those whose ends, in whole seconds, are less apart than the window and at most the retention |
| CrashLimits.LimitInMinutes | apps/api/src/db.ts:815-828 | on the clock: a window of the configured minutes, but for its last second, holds at most `maxAttempts` starts in every run, and a run exceeds it in a window of those minutes |
| CrashLimits.LimitInDays | apps/api/src/db.ts:815-843 | the same in days where the table is pruned earlier |
| CrashLimits.CountedExactly | apps/api/src/db.ts:815-828 | the restarts counted are those of the guest tried in the last `windowMinutes` minutes |
| CrashLimits.StartsAreAwaited | apps/api/src/crashWatcher.ts:198-216 | what the limit counts as a start is what makes the handler await one |
| CrashLimits.StopOutcome | apps/api/src/crashWatcher.ts:168-214 | a stop that was not clean is recorded, and the guest started exactly if it is to be restarted and fewer than `maxAttempts` were counted |
| CrashLimits.StartOutcome | apps/api/src/crashWatcher.ts:214-239 | an awaited start is recorded with its attempt, failed or not |
| CrashLimits.PruneOutcome | apps/api/src/db.ts:838-843 | exactly the rows older than the retention go, and none without a retention |
| CrashRestarts.CountIsBounded | apps/api/src/crashWatcher.ts:196-213 | the count never exceeds `maxAttempts` |
| CrashRestarts.AttemptsAreNumbered | apps/api/src/crashWatcher.ts:198-239 | attempts are numbered 1 to `maxAttempts`, and a guest is given up after exactly `maxAttempts` |
| TokenRefresh.Client.RefreshAccessToken | Desktop_client/src/api/virtuaClient.ts:298-305 | a refresh in flight is joined, else one starts |
| TokenRefresh.Client.HandleResponse | Desktop_client/src/api/virtuaClient.ts:349-353 | a first 401 refreshes only if the rejected token is still the current one, and sends once more |
| TokenRefresh.Client.Begin | Desktop_client/src/api/virtuaClient.ts:330-347 | a request waits for a refresh or is sent with the current token |
| TokenRefresh.Client.ApplyTokens | Desktop_client/src/api/virtuaClient.ts:282-287 | both tokens and the expiry change together, before the store does |
| TokenRefresh.Client.TokenCleared | Desktop_client/src/api/virtuaClient.ts:320-325 | a refusal erases the stored tokens, then those in memory |
| TokenRefresh.NeverSendsRotated | Desktop_client/src/api/virtuaClient.ts:282-328 | in every interleaving no token that the server has rotated is sent, unless the keychain fails both to save and to clear |
| TokenRefresh.NeverSendsRotatedExactly | Desktop_client/src/api/virtuaClient.ts:282-328 | no run sends one exactly when not both failures can occur |
| TokenRefresh.KeychainFailuresResend | Desktop_client/src/api/virtuaClient.ts:307-328 | an interleaving with both failures that sends one |
| TokenRefresh.SessionSurvives | Desktop_client/src/api/virtuaClient.ts:291-328 | while the server accepts every token it has not rotated, no interleaving erases the session |
| TokenRefresh.SentAtMostTwice | Desktop_client/src/api/virtuaClient.ts:330-353 | each request is sent at most twice, and none waits for a refresh that is not in flight |
| TokenRefresh.RefreshStartsWhenNeeded | Desktop_client/src/api/virtuaClient.ts:330-353 | a refresh starts only if the access token is absent, expired or just rejected |
| TokenRetries.RefreshStartsExactly | Desktop_client/src/api/virtuaClient.ts:330-353 | the converse too: which events start a refresh |
| TokenRetries.CallOutcome | Desktop_client/src/api/virtuaClient.ts:330-347 | a request is sent with the current token exactly if that is fresh, and waits for a refresh if not |
| TokenRetries.ResponseOutcome | Desktop_client/src/api/virtuaClient.ts:349-353 | a first 401 with the current token waits for a refresh in flight; with another it is sent again or waits; any other answer ends the request |
| TokenRetries.ResumeOutcome | Desktop_client/src/api/virtuaClient.ts:330-353 | what a request does when the refresh is over |
| TokenRetries.RetriedWithNewToken | Desktop_client/src/api/virtuaClient.ts:282-353 | over runs: once the refresh for a rejected request ends well, the server has issued a token meanwhile, its refresh token is stored, and the request is sent a second time with it, unless it has expired by then |
| TokenRetries.EndsOnlyThroughFailedRefresh | Desktop_client/src/api/virtuaClient.ts:330-353 | over runs: a rejected request ends without a second sending only through a failed refresh |
| TokenRetries.RefreshFailsExactly | Desktop_client/src/api/virtuaClient.ts:291-328 | a refresh fails exactly for want of a token, without the server, or once refused |
| TokenRetries.LoadOutcome | Desktop_client/src/api/secureStore.ts:106-115 | which stored token is loaded |
| TokenRetries.SaveOutcome | Desktop_client/src/api/secureStore.ts:117-129 | where a new one is stored |
| TokenRetries.ClearOutcome | Desktop_client/src/api/secureStore.ts:131-138 | what is forgotten after a refusal |
| TokenRefresh.RotatesOnce | Desktop_client/src/api/virtuaClient.ts:291-353 | any number of requests rejected with one access token cause one rotation at most |
| AgentReply.ReadReply | Desktop_client/src-tauri/src/unified.rs:118-147 | the first accepted line of the bytes read before the deadline, or the error |
| AgentReply.Drain | Desktop_client/src-tauri/src/unified.rs:127-136 | whole lines are taken off the buffer until one is accepted |
| AgentReply.CutsDoNotMatter | Desktop_client/src-tauri/src/unified.rs:118-147 | the outcome depends on the bytes and on how the stream ended, not on the cuts |
| AgentReply.DeliveredInTime | Desktop_client/src-tauri/src/unified.rs:118-147 | a reply delivered before the deadline is returned, whatever follows |
| AgentReply.QgaCall | Desktop_client/src-tauri/src/unified.rs:85-116 | the sync reply is awaited, then the answer |
| AgentReply.CallMeans | Desktop_client/src-tauri/src/unified.rs:85-116 | the call gives the `desc` of the error, or the `return`, of the first reply after its guest-sync was answered |
| AgentReply.NoSyncNoAgent | Desktop_client/src-tauri/src/unified.rs:85-116 | without that answer there is no agent |
| AgentReply.NoReplyFails | Desktop_client/src-tauri/src/unified.rs:85-147 | without a reply: the failure of the socket, or the timeout |
| AgentReply.OwnReply | Desktop_client/src-tauri/src/unified.rs:85-116 | with an in-order agent and a fresh sync id the call returns its own answer, whatever was queued |
| AgentReply.ReusedSyncIdMisleads | Desktop_client/src-tauri/src/unified.rs:85-116 | with a sync id that a queued reply carries it does not |
| RunnerCall.Call.OnData | apps/api/src/runnerClient.ts:55-89 | a chunk is appended and its whole lines are read |
| RunnerCall.Call.OnLine | apps/api/src/runnerClient.ts:60-88 | one line: progress is forwarded while the call is open, the first final reply settles it, other lines are ignored |
| RunnerCall.Call.OnEnd | apps/api/src/runnerClient.ts:42-48 | timeout, error and close reject a call that has not settled |
| RunnerCall.LinesAreRead | apps/api/src/runnerClient.ts:55-89 | the first final reply settles the call, after exactly the progress before it |
| RunnerCall.CallSeesWholeText | apps/api/src/runnerClient.ts:55-105 | for every sequence of socket events the caller sees what the concatenated text says |
| RunnerCall.AnswerDecides | apps/api/src/runnerClient.ts:55-89 | for every sequence of events: the first message to the call that is not mere progress resolves it to its result if `ok` is truthy, and else rejects it with its error or "Runner error", after the progress before it |
| RunnerCall.EndingDecides | apps/api/src/runnerClient.ts:42-105 | without such a message: rejected with what ended the socket |
| Base64.EncodeBytes | Desktop_client/src-tauri/src/unified.rs:33-47 | the encoding loop gives the encoding of all groups |
| Base64.DecodeText | Desktop_client/src-tauri/src/unified.rs:49-71 | the decoding loop with its wrapping accumulator |
| Base64.RoundTrip | Desktop_client/src-tauri/src/unified.rs:33-71 | decoding inverts encoding for every byte sequence |
| Base64.HighBitsFallOff | Desktop_client/src-tauri/src/unified.rs:49-71 | the bits that the shift drops are never seen again |
| Base64.SkippedNeverMatters | Desktop_client/src-tauri/src/unified.rs:53-62 | CR, LF, space and `=` anywhere never change the bytes |
| Base64.DecodeFailsExactly | Desktop_client/src-tauri/src/unified.rs:49-71 | decoding fails exactly on a character outside the alphabet, and else gives three bytes for four letters |
| Base64.EncodedLength | Desktop_client/src-tauri/src/unified.rs:33-47 | four letters for every three bytes begun, as in section 4 of RFC 4648 |
| Base64.GroupIsBigEndian | Desktop_client/src-tauri/src/unified.rs:33-47 | the letters of a group, as a number, are its bytes followed by zero bits, as in section 4 of RFC 4648 |
| CpioNewc.WriteArchive | Desktop_client/src-tauri/src/quickcreate.rs:149-171 | the growing vector with its padding loop is the specified archive |
| CpioNewc.ArchiveRoundTrip | Desktop_client/src-tauri/src/quickcreate.rs:149-171 | a newc reader gets exactly one file with that name and data, and the trailer, if and only if the lengths fit and the name is free of NUL and not the trailer's |
| CpioNewc.ArchiveIsAligned | Desktop_client/src-tauri/src/quickcreate.rs:149-171 | headers and bodies start on multiples of four |
| CpioNewc.FieldsRoundTrip | Desktop_client/src-tauri/src/quickcreate.rs:149-171 | the eight-digit hexadecimal fields are read back |
| ShellQuote.QuoteIsTransparent | Desktop_client/src-tauri/src/platform.rs:635-637 | under the POSIX quoting rules a quoted value is exactly that value, inside any word |
| ShellQuote.QuotedArguments | Desktop_client/src-tauri/src/containers.rs:30-36 | the joined quoted arguments are split into exactly those arguments, empty ones included |
| ShellQuote.CommandLineIsTheArguments | Desktop_client/src-tauri/src/containers.rs:30-36 | the remote command is its fixed words followed by the arguments |
| XmlEscape.EscapeIsSubstitution | Desktop_client/src-tauri/src/quickcreate.rs:144-146 | the four replaces in a row are one simultaneous substitution |
| XmlEscape.RoundTrip | Desktop_client/src-tauri/src/quickcreate.rs:144-146 | decoding the entities gives back the value |
| TemplateConfig.ReadTemplateConfig | Desktop_client/src-tauri/src/lib.rs:1743-1758 | the loop over the lines, the last setting of a key winning |
| TemplateConfig.ExportThenImport | Desktop_client/src-tauri/src/lib.rs:2286-2293 | an import gives back what was exported, for any description and fallbacks, if and only if the name, the disk name and the architecture are clean and the architecture is a normalised one |
| TemplateConfig.SettingIsParsed | Desktop_client/src-tauri/src/lib.rs:1743-1758 | a printed setting is parsed back, in capitals and trimmed |
| TemplateConfig.ValuesAreClean | Desktop_client/src-tauri/src/lib.rs:1743-1758 | whatever the file holds, a parsed value has no outer white space and no line break |
| TemplateConfig.NumberRoundTrip | Desktop_client/src-tauri/src/lib.rs:2155-2162 | a printed number is parsed back exactly when it fits its type, and refused exactly when it does not |
| Download.Downloader.Run | Desktop_client/src-tauri/src/lib.rs:1596-1661 | one attempt, cut at any read, leaves the specified files and count |
| Download.AttemptOutcome | Desktop_client/src-tauri/src/lib.rs:1585-1661 | what an attempt leaves of the body in the temporary file and in its place |
| Download.RunIsSafeExactly | Desktop_client/src-tauri/src/lib.rs:1585-1661 | over any attempts the temporary file is a prefix of the body, and at every moment the destination holds what it held before or the whole body exactly when no copy breaks off |
| Download.StepIsSafeExactly | Desktop_client/src-tauri/src/lib.rs:1585-1661 | the same for one attempt |
| Download.BrokenCopyPublishesPart | Desktop_client/src-tauri/src/lib.rs:1585-1661 | a copy that breaks off after the rename failed publishes that part, for every body and length |
| Download.CompleteFileIsPublishedExactly | Desktop_client/src-tauri/src/lib.rs:1596-1625 | a run moves a complete temporary file into place exactly when some attempt is answered 200 and that one or a later one reads to the end and moves |
| Download.CompleteFileExactly | Desktop_client/src-tauri/src/lib.rs:1596-1625 | one attempt does exactly when it is answered 200, is not cut, and moves |
| Download.Cut200ThenResumed | Desktop_client/src-tauri/src/lib.rs:1596-1625 | a cut 200 followed by a resumption that publishes |
| Download.ResumeNeverShrinks | Desktop_client/src-tauri/src/lib.rs:1596-1625 | only a 200 starts over |
| StorageScan.WalkFiles | apps/api/src/storageScan.ts:38-51 | the recursive loop appends the walk to the results it is given |
| StorageScan.WalkIsExact | apps/api/src/storageScan.ts:31-51 | a walk collects exactly the files that no skipped directory and no more than eight levels hide |
| StorageScan.IsInsideExactly | apps/api/src/storageScan.ts:25-29 | inside means below or equal, but for a first name that starts with two dots |

## Assumptions

- VM manager: inventory writes succeed, a kill that is accepted ends its process, the app
  does not stop within a command and only one app process runs (the launcher's
  `--unified-launch` is another process, outside the lock), ids are never drawn twice, and
  the clock is set after 1970, so that the nanoseconds in an id are no snapshot's seconds.
- Processes: the process table is read exactly, and the two samples a refresh takes of it
  are one. `try_wait` does not fail while a launch is watched: `wait_for_qemu`
  (lib.rs:3626) would report a failed start and leave that QEMU running.
- Command line: a launch refuses a disk path with a comma (lib.rs:3889), draws the SPICE
  secret in hexadecimal (lib.rs:3912) and forwards RDP on a loopback address
  (unified.rs:21-27); `QemuReading.CommaFreeInputs` is that.
- Restart limit: settings stay as they are, the clock does not go back, database writes
  succeed, the API does not stop between a start and its row, and the user neither clears
  nor renames the rows.
- Token refresh: no login, logout or restored session during the run, and no reply of the
  server is lost. The server draws refresh tokens at random: they are numbered here.
  `RotatesOnce` assumes that access tokens differ; they are signed per second, so two
  rotations within one second could give the same.
- Downloads: the remote body is fixed, the server answers 206 from the offset asked for, 200
  with everything or a refusal, and a response that ends without an error was delivered whole.
- VM names and paths are texts; a path in the manager stands for the file it resolves to.

## Left out

- Sockets, timeouts, sleeps, QMP, JSON, UTF-8, gzip and tar: inputs and oracle functions.
- Windows replacing the inventory by a copy instead of a rename, and I/O errors half-way through a disk copy.
- Start-up notes, logs, TPM retries and CPU and memory figures of the VM manager: no property depends on them.
- The outcome of a launch is an input of `VmManager.Manager.StartLocalVm`; the ladder that decides it is modelled by itself in `LaunchLadder`.
- CPU, memory and media changes of `local_update_vm`, and the Unified mode's flags: they touch no state modelled here.
- Removal of UEFI variables and TPM state with a VM.
- Names made unique by quick create and import: a time stamp that is not checked again.
- `-cpu` and `-machine` values are kept as text: no name is declared or used in them.
- Upper-casing of template keys outside ASCII, and byte chunks that split a character in `callRunner`.
- Libvirt reasons and journal excerpts of a diagnosis: whether a stop was clean is an input.
- ISO directories, ACME, mail, quotas, Docker and Incus processes, consoles and the user interface.
- `host_name`, `parse_guest_apps` and the normalisers: simple, or without an invariant.
