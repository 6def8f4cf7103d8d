/** What each handler of the guest change-config task does, as a function from the state
    before it runs to the state after. The class in module GuestChangeConfig implements each
    handler imperatively and is proved to agree with the function of the same name here. */
module ChangeConfigSpec {
  import opened FixedWidth
  import opened Quotas
  import opened TaskTypes
  import opened ResizeScan

  /** The failure path every error takes: the guest's status becomes the change-flavor
      failure marker and the task fails with the reason. */
  function MarkStageFailed(v: TaskView, reason: string): TaskView {
    v.(status := VmChangeFlavorFail, stage := Failed(reason))
  }

  /** The value a numeric parameter contributes to the driver call: its value, or 0 when absent. */
  function TargetOf(p: Param<Int64>): Int64 {
    if p.Present? then p.value else 0
  }

  /** Whether the compute step has anything to apply: at least one of "vcpu_count" and
      "vmem_size" is given. */
  predicate ComputeRequested(p: TaskParams) {
    !p.vcpuCount.Absent? || !p.vmemSize.Absent?
  }

  /** The part of one dimension that the compute step releases from the reservation: the growth
      from the guest's value before the update to the target, taken as an int64 difference and
      clamped at 0, and 0 when the target is not positive. A difference beyond the int64 range
      wraps to a negative value and is clamped to 0 as well. */
  function AddDelta(target: Int64, current: Int64): (r: int)
    ensures 0 <= r <= Int64Max
    ensures target <= 0 ==> r == 0
    ensures 0 < target && target - current <= Int64Max ==>
      r == (if target > current then target - current else 0)
    ensures target - current > Int64Max ==> r == 0
  {
    if target > 0 then
      var d := Wrap64(target - current);
      if d < 0 then 0 else d
    else
      0
  }

  /** Sets the stage to wait for the status sync and launches it; a launch error fails the task. */
  function SyncStatusStep(v: TaskView, c: Collaborators): TaskView {
    var w := v.(stage := AwaitSyncStatus, calls := v.calls + [StartSyncStatus]);
    if c.syncStatusError.Some? then MarkStageFailed(w, c.syncStatusError.value) else w
  }

  /** The compute step, entered when the disks are created or when there is nothing to create:
      with neither target given it only launches the status sync; a target that is not an
      integer fails the task; otherwise the change is applied with absent targets passed as 0. */
  function OnCreateDisksComplete(v: TaskView, p: TaskParams, projectId: string, c: Collaborators): TaskView {
    if !ComputeRequested(p) then SyncStatusStep(v, c)
    else if p.vcpuCount.Malformed? then MarkStageFailed(v, p.vcpuCount.error)
    else if p.vmemSize.Malformed? then MarkStageFailed(v, p.vmemSize.error)
    else ChangeComputeConfig(v, TargetOf(p.vcpuCount), TargetOf(p.vmemSize), projectId, c)
  }

  /** Calls the driver; once it and the guest update succeed, writes the positive targets to the
      guest and releases the clamped growth, measured against the guest's values before the write. */
  function ChangeComputeConfig(v: TaskView, cpu: Int64, mem: Int64, projectId: string, c: Collaborators): TaskView {
    var v1 := v.(calls := v.calls + [RequestChangeVmConfig(cpu, mem)]);
    if c.driverError.Some? then MarkStageFailed(v1, c.driverError.value)
    else if c.guestUpdateError.Some? then MarkStageFailed(v1, c.guestUpdateError.value)
    else
      var cancel := CancelUsage(AddDelta(cpu, v.vcpuCount), AddDelta(mem, v.vmemSize));
      var v2 := v1.(vcpuCount := if cpu > 0 then ToInt8(cpu) else v.vcpuCount,
                    vmemSize := if mem > 0 then mem else v.vmemSize);
      ReleaseReservation(v2, cancel, projectId, c)
  }

  /** Reads the pending usage, asks the quota manager to cancel `cancel` from it, stores the
      updated pending usage, and launches the status sync; any error fails the task. */
  function ReleaseReservation(v: TaskView, cancel: Quota, projectId: string, c: Collaborators): TaskView {
    match v.pending
    case Unreadable(err) => MarkStageFailed(v, err)
    case Stored(q) =>
      var v1 := v.(calls := v.calls + [CancelPendingUsage(projectId, q, cancel)]);
      match c.cancel
      case CancelError(err) => MarkStageFailed(v1, err)
      case Cancelled(updated) =>
        if c.savePendingError.Some? then MarkStageFailed(v1, c.savePendingError.value)
        else SyncStatusStep(v1.(pending := Stored(updated)), c)
  }

  /** Launches the disk creation when "create" is given; otherwise runs the compute step at once. */
  function DoCreateDisksTask(v: TaskView, p: TaskParams, projectId: string, c: Collaborators): TaskView {
    match p.create
    case None => OnCreateDisksComplete(v, p, projectId, c)
    case Some(spec) => v.(stage := AwaitCreateDisks, calls := v.calls + [StartCreateDisks(spec)])
  }

  /** The disk-resize handler: re-scans the whole list and launches at most one resize. */
  function OnDisksResizeComplete(v: TaskView, p: TaskParams, projectId: string, c: Collaborators): TaskView {
    match p.resize
    case None => MarkStageFailed(v, MissingResizeParam)
    case Some(entries) =>
      match Scan(entries, v.disks)
      case ScanFailed(_, reason) => MarkStageFailed(v, reason)
      case AllSatisfied => DoCreateDisksTask(v, p, projectId, c)
      case ResizeNext(_, id, size) =>
        match v.pending
        case Unreadable(err) => MarkStageFailed(v, err)
        case Stored(q) => v.(calls := v.calls + [StartDiskResize(id, size, q)])
  }

  function OnInit(v: TaskView, p: TaskParams, projectId: string, c: Collaborators): TaskView {
    if p.resize.Some? then OnDisksResizeComplete(v.(stage := AwaitDisksResize), p, projectId, c)
    else DoCreateDisksTask(v, p, projectId, c)
  }

  function OnCreateDisksCompleteFailed(v: TaskView, error: string): TaskView {
    MarkStageFailed(v, error)
  }

  /** Starts the guest when it is ready and "auto_start" is set; otherwise completes with the
      guest's id. */
  function OnSyncStatusComplete(v: TaskView, p: TaskParams, guestId: string): TaskView {
    if v.status == VmReady && p.autoStart then
      v.(stage := AwaitGuestStart, calls := v.calls + [StartGuestStart])
    else
      v.(stage := Complete(map["id" := guestId]))
  }

  function OnGuestStartComplete(v: TaskView, guestId: string): TaskView {
    v.(stage := Complete(map["id" := guestId]))
  }

  /** A notification the task framework delivers, and the stage at which it delivers it. */
  datatype Event =
    | Start
    | DisksResized
    | CreateDisksDone
    | CreateDisksFailed(error: string)
    | SyncStatusDone
    | GuestStartDone

  function DeliveredAt(e: Event): Stage {
    match e
    case Start => Initial
    case DisksResized => AwaitDisksResize
    case CreateDisksDone => AwaitCreateDisks
    case CreateDisksFailed(_) => AwaitCreateDisks
    case SyncStatusDone => AwaitSyncStatus
    case GuestStartDone => AwaitGuestStart
  }

  /** The handler the framework runs for a notification. */
  function Handle(v: TaskView, p: TaskParams, guestId: string, projectId: string, c: Collaborators, e: Event): TaskView {
    match e
    case Start => OnInit(v, p, projectId, c)
    case DisksResized => OnDisksResizeComplete(v, p, projectId, c)
    case CreateDisksDone => OnCreateDisksComplete(v, p, projectId, c)
    case CreateDisksFailed(err) => OnCreateDisksCompleteFailed(v, err)
    case SyncStatusDone => OnSyncStatusComplete(v, p, guestId)
    case GuestStartDone => OnGuestStartComplete(v, guestId)
  }
}
