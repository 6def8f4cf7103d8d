# Guest change-config task, modelled in Dafny

This project models the task that reconfigures a virtual machine ("guest") in the compute
service. The task is a stage-sequenced state machine. Each handler runs when the task framework
delivers a notification at the current stage. The handlers do the following, in order:

1. They grow the disks named in the `resize` parameter, one resize at a time. On every re-entry the
   list is re-scanned from its first entry.
2. If the `create` parameter is given, they launch the creation of new disks.
3. They apply the `vcpu_count` / `vmem_size` targets through the hypervisor driver.
4. They write the positive targets to the guest record.
5. They release part of the task's pending quota reservation.
6. They launch a status sync of the guest.
7. If the guest is ready and `auto_start` is set, they start it.

Every error takes one failure path: the guest's status becomes `change_flavor_fail`, and the task
fails with the reason.

The model is organised as follows:

- `fixed_width.dfy` (`FixedWidth`): Go's `int64` and `int8`, the `int64` wrap of a subtraction
  (`Wrap64`), and the `int8(...)` conversion (`ToInt8`). The conversion is what the stored vCPU
  count goes through: a target of 200 vCPUs is stored as -56, and a target of 256 is stored as 0.
- `quotas.dfy` (`Quotas`): the quota record, and the cancel record built from `addCpu`/`addMem`.
  The record keeps the vCPU and memory amounts the task sets, and stands for every other resource
  kind with one map by name, which the task never sets.
- `task_types.dfy` (`TaskTypes`): the task parameters, stages, pending usage, the calls the task
  makes to collaborators, and the collaborators' outcomes. It also defines `TaskView`, the state
  a handler reads and writes.
- `resize_scan.dfy` (`ResizeScan`): the scan of the resize list. `SelectResize` is the handler's
  loop, proved equal to the recursive specification `Scan`. The lemmas say which entry is chosen
  and that re-scanning makes progress.
- `change_config_spec.dfy` (`ChangeConfigSpec`): one transition function per handler, from the
  view before it runs to the view after. `Handle` maps each framework notification to its handler.
- `change_config_properties.dfy` (`ChangeConfigProperties`): the properties of those handlers.
- `guest_change_config_task.dfy` (`GuestChangeConfig`): the `Guest` and `GuestChangeConfigTask`
  classes. Their handler methods update the fields in place. Each method is proved to produce
  exactly the transition function of the old view.
- `scenarios.dfy` (`Scenarios`): client runs of the classes, checked against the method
  contracts alone.

External calls are parameters. A `Collaborators` value says whether each synchronous
collaborator succeeded:

- the driver;
- the guest-record update;
- the quota cancel, which returns the updated pending usage on success;
- the write-back of the pending usage;
- the launch of the status sync.

The launches of the disk resize, the disk creation and the guest start cannot fail, because the
source ignores their results. All four suboperation launches, the driver call and the quota cancel
are recorded in order in the task's `calls` log.

What the code does, and the model with it:

- The code calls the driver, writes the guest and cancels quota whenever `vcpu_count` or
  `vmem_size` is *present*, even with the value 0. It skips the compute step only when both keys
  are absent. Zero targets are passed to the driver as 0 and are not written to the guest.
- `addCpu`/`addMem` are the clamped growth from the guest's values before the update to the
  targets. This is what is released from the pending reservation.
- The project lock around the quota cancel is taken by the task itself, not by the quota client.
  The lock is not modelled.

## Model

| member | source | states |
|---|---|---|
| `FixedWidth.Wrap64` | pkg/compute/tasks/guest_change_config_task.go:149-155 | The int64 difference `target - int64(current)` equals the exact difference whenever that fits in int64, and is congruent to it modulo 2^64 otherwise. |
| `FixedWidth.ToInt8` | pkg/compute/tasks/guest_change_config_task.go:161-163 | `int8(vcpuCount)` keeps a value in -128..127 and is congruent to the target modulo 256 otherwise. |
| `Quotas.CancelUsage` | pkg/compute/tasks/guest_change_config_task.go:182-188 | The cancel record releases `addCpu` vCPUs and `addMem` memory when they are not negative, and 0 of a dimension whose amount is not positive. It never releases a negative amount, and releases zero of every other resource. |
| `ChangeConfigSpec.AddDelta` | pkg/compute/tasks/guest_change_config_task.go:147-159 | `addCpu`/`addMem` are never negative and never exceed the int64 range. They are 0 for a target that is not positive. When the int64 difference from the current value does not overflow, they equal `max(0, target - current)`. When it overflows, Go's wrap makes it negative and they are 0. |
| `ResizeScan.ScanFrom` | pkg/compute/tasks/guest_change_config_task.go:41-95 | The scan stops at an index no smaller than where it started. Every entry it passes names an existing disk already at or above its target. A resize is chosen only for an entry whose disk is strictly below its target, with that entry's id and size. A failure is reported only for an entry that does not decode or names a missing disk. |
| `ResizeScan.SelectResize` | pkg/compute/tasks/guest_change_config_task.go:41-96 | The handler's loop, walking the list from index 0 and leaving at the first resize or error, returns exactly the outcome of the specification scan. |
| `ResizeScan.ScanSkipsSatisfied` | pkg/compute/tasks/guest_change_config_task.go:85-96 | A run of entries already at their targets is passed over without effect on the scan's outcome. |
| `ResizeScan.AllSatisfiedIff` | pkg/compute/tasks/guest_change_config_task.go:41-98 | The handler moves on to disk creation, with no resize and no error, if and only if every entry names an existing disk at or above its target. |
| `ResizeScan.ResizeNextIsFirstShortfall` | pkg/compute/tasks/guest_change_config_task.go:41-95 | The resized entry is the first one in list order whose disk is strictly below its target. No earlier entry needs growth, and an entry whose target does not exceed its disk's size is never chosen. |
| `ResizeScan.RescanProgress` | pkg/compute/tasks/guest_change_config_task.go:34-96 | Suppose the chosen disk has reached its target and no disk has shrunk. Then the re-scan from index 0 stops strictly later in the list than the previous scan. |
| `ResizeScan.ResizeRoundsBounded` | pkg/compute/tasks/guest_change_config_task.go:34-96 | Consider successive re-entries, each completing the resize the previous scan chose. Their number is at most the length of the resize list. |
| `ChangeConfigProperties.SyncStatusStepSuspends` | pkg/compute/tasks/guest_change_config_task.go:206-212 | Launching the status sync adds exactly `StartSyncStatus` and changes nothing but the stage and the status. Without a launch error the task waits at the sync stage and the status is unchanged. A launch error fails the task with that error and marks the guest. |
| `ChangeConfigProperties.ReleaseReservationSuspends` | pkg/compute/tasks/guest_change_config_task.go:174-212 | Reading the pending usage, cancelling, storing it and launching the sync: these steps launch no resize and at most the status sync. The sync is launched if and only if the pending usage is read, cancelled and stored. The first failed check, in source order, fails the task with its error and marks the guest. With no failed check the task waits for the sync with the updated pending usage stored. |
| `ChangeConfigProperties.ChangeComputeConfigSuspends` | pkg/compute/tasks/guest_change_config_task.go:141-212 | The driver call, the guest update and the reservation release launch no resize, and at most the status sync. The first failed check among the driver, the update and the release fails the task with its error and marks the guest. Otherwise the task waits for the sync. |
| `ChangeConfigProperties.ComputeStepSuspends` | pkg/compute/tasks/guest_change_config_task.go:118-213 | The compute handler launches at most one suboperation, and that one is the status sync. It launches exactly one when it leaves the task waiting, and no disk resize. With no target, only the sync launch is checked. Otherwise the first failed check fails the task with its error and marks the guest: target decoding, driver, update, pending usage, cancel, write-back, then sync launch. With no failed check the task waits for the sync. |
| `ChangeConfigProperties.DoCreateDisksSuspends` | pkg/compute/tasks/guest_change_config_task.go:101-111 | Disk-creation handling launches at most one suboperation, exactly one when the task then waits, and no disk resize. |
| `ChangeConfigProperties.ResizeHandlerLaunchesAtMostOneResize` | pkg/compute/tasks/guest_change_config_task.go:34-99 | One run of the resize handler keeps the earlier calls. When the scan chose a disk and the pending usage is readable, it adds exactly one resize for that disk with the current pending usage, and changes nothing else. Otherwise it launches no resize at all. When every entry names an existing disk at or above its target, it proceeds to disk creation. |
| `ChangeConfigProperties.ResizeHandlerSuspends` | pkg/compute/tasks/guest_change_config_task.go:34-99 | Run at the resize stage, the resize handler launches at most one suboperation, exactly one when the task is left waiting. Every failure marks the guest. |
| `ChangeConfigProperties.ResizeHandlerFailures` | pkg/compute/tasks/guest_change_config_task.go:34-99 | Each way the resize handler fails ends in the failure path with that error: a missing `resize` parameter, the scan's failure at an entry, and unreadable pending usage when a resize is due. A resize launched with readable pending usage leaves stage and status unchanged. When every entry names an existing disk at or above its target and there is no `create`, the compute step fails at its first failed check. |
| `ChangeConfigProperties.InitSuspends` | pkg/compute/tasks/guest_change_config_task.go:23-32 | The first handler launches at most one suboperation, exactly one when it leaves the task waiting. It never completes the task and never changes the disks. |
| `ChangeConfigProperties.SyncStatusCompleteSuspends` | pkg/compute/tasks/guest_change_config_task.go:215-227 | After the sync the handler launches no suboperation other than the guest start. It launches one if and only if it leaves the task waiting, and at most one. The disks are unchanged. |
| `ChangeConfigProperties.HandlerSuspendsOnce` | pkg/compute/tasks/guest_change_config_task.go:23-240 | Every handler, run at the stage where its notification is delivered, does the following. It keeps the earlier calls. It launches at most one suboperation, exactly one when the task waits and none when the task completes. It never changes the disks. It completes only with the result `{id: guest id}`. It fails only after setting the guest's status to the failure marker. |
| `ChangeConfigProperties.InitRouting` | pkg/compute/tasks/guest_change_config_task.go:23-32 | The routing conjuncts restate the handler's two branches. The added content is that without `resize` the earlier calls are kept and no resize is launched. |
| `ChangeConfigProperties.CreateDisksRouting` | pkg/compute/tasks/guest_change_config_task.go:101-111 | The routing conjuncts restate the handler's two branches. The added content is that without `create` the creation stage is never set by the compute step. |
| `ChangeConfigProperties.NoTargetsOnlySyncsStatus` | pkg/compute/tasks/guest_change_config_task.go:118-213 | With neither `vcpu_count` nor `vmem_size`, there is no driver call, no guest write and no quota cancel. The only call added is the status-sync launch, and the stage becomes the sync stage unless the launch fails. |
| `ChangeConfigProperties.ComputeGuestWrites` | pkg/compute/tasks/guest_change_config_task.go:141-173 | The driver is called first, with absent targets as 0. The vCPU count (as `int8`) and the memory size are written only for positive targets, and only after the driver call and the update succeed. The status changes only to the failure marker, and the disks are untouched. |
| `ChangeConfigProperties.DriverErrorKeepsSizes` | pkg/compute/tasks/guest_change_config_task.go:141-146 | A driver error fails the task with that error and marks the guest. It leaves the guest's vCPU count, memory size and the pending usage unchanged, and makes no further call. |
| `ChangeConfigProperties.CancelReleasesClampedGrowth` | pkg/compute/tasks/guest_change_config_task.go:147-204 | After the driver call, the quota cancel goes to the guest's project and carries the pending usage read from the task. It releases exactly the clamped growth measured against the values before the update, 0 when that difference overflows int64, and zero of everything else. The new sizes are applied whatever the cancel does. The updated pending usage is kept only when the cancel and its write-back succeed. A failed cancel or write-back fails the task with its error, marks the guest, and leaves the pending usage unchanged. |
| `ChangeConfigProperties.SyncStatusStartsGuestIff` | pkg/compute/tasks/guest_change_config_task.go:215-227 | After the sync, the guest start is launched, at the guest-start stage, if and only if the status is ready and `auto_start` is set. Otherwise the task completes with `{id: guest id}` and nothing else changes. |
| `GuestChangeConfig.GuestChangeConfigTask.OnInit` | pkg/compute/tasks/guest_change_config_task.go:23-32 | The method's new task and guest state is the `OnInit` transition of the old state. |
| `GuestChangeConfig.GuestChangeConfigTask.OnDisksResizeComplete` | pkg/compute/tasks/guest_change_config_task.go:34-99 | The new state is the resize-handler transition, with the list scanned by `SelectResize`. |
| `GuestChangeConfig.GuestChangeConfigTask.DoCreateDisksTask` | pkg/compute/tasks/guest_change_config_task.go:101-111 | The new state is the disk-creation transition. |
| `GuestChangeConfig.GuestChangeConfigTask.OnCreateDisksCompleteFailed` | pkg/compute/tasks/guest_change_config_task.go:113-116 | A failed disk creation fails the task with its error and marks the guest. |
| `GuestChangeConfig.GuestChangeConfigTask.OnCreateDisksComplete` | pkg/compute/tasks/guest_change_config_task.go:118-213 | The new state is the compute-step transition. The local `addCpu`/`addMem`, assigned and then clamped, equal `AddDelta` of the pre-update guest values. |
| `GuestChangeConfig.GuestChangeConfigTask.ReleaseReservation` | pkg/compute/tasks/guest_change_config_task.go:174-204 | The new state is the reservation-release transition. |
| `GuestChangeConfig.GuestChangeConfigTask.StartSyncStatusStep` | pkg/compute/tasks/guest_change_config_task.go:206-212 | The stage is set to the sync stage before the sync is launched. A launch error fails the task. |
| `GuestChangeConfig.GuestChangeConfigTask.OnSyncStatusComplete` | pkg/compute/tasks/guest_change_config_task.go:215-227 | The new state is the post-sync transition, reading the guest's current status. |
| `GuestChangeConfig.GuestChangeConfigTask.OnGuestStartComplete` | pkg/compute/tasks/guest_change_config_task.go:229-234 | The task completes with `{id: guest id}`, and nothing else changes. |
| `GuestChangeConfig.GuestChangeConfigTask.MarkStageFailed` | pkg/compute/tasks/guest_change_config_task.go:236-240 | The guest's status becomes `change_flavor_fail` and the stage becomes failed with the reason. Nothing else changes. |

## Left out

- Action logging (`AddActionLog`) is not modelled. It is an audit side channel that does not affect stage or guest state.
- The reason passed to the guest's status change is kept only in the failed stage. The status-change log that records it is not part of this model.
- JSON decoding of the parameters is not modelled. Each parameter is an already-typed value. A `vcpu_count`/`vmem_size` that is not an integer, and a resize element that does not decode, carry the decoder's error text. That text is not reproduced.
- `auto_start` is a plain boolean. Its lenient boolean lookup, which falls back to false, is not modelled.
- Type assertions on the parameters panic in the source and are not modelled: `resize` not an array (line 40), a resize element that is not an array (line 48), `create` not a dictionary. A resize element that is not an array is folded into `MalformedEntry`, which fails the task instead of panicking.
- The nil-result case of the `resize` lookup would dereference a nil error. It is treated as the same failure as a missing `resize`, with a fixed reason text.
- A disk that cannot be fetched is a disk id missing from the `disks` map, with a fixed reason text. The database error text is not modelled.
- A failed guest-record update leaves the guest's vCPU count and memory size unchanged. Whether the in-memory record was already changed before the write failed is a property of the persistence layer, which is not part of this model.
- The project lock around the quota cancel is not modelled. Its serialisation of concurrent cancels on one project is a concurrency property with no sequential behaviour here.
- The quota manager's cancel and the decoding and storing of the pending usage are opaque calls. They succeed with a value or fail.
- The task framework's registration, persistence and asynchronous resume are not modelled. Handlers are invoked directly, and `Handle` names which handler a notification runs.
- The hypervisor driver and the bodies of the disk-resize, disk-creation, status-sync and guest-start suboperations are not modelled. In the scenarios, their effects on disk sizes and the guest's status are written by the client.
