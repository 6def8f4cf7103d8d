/** The values the guest change-config task works on: its parameters, its persisted stage,
    the pending-usage record it carries, the calls it makes to collaborators, and the
    outcomes those collaborators report. */
module TaskTypes {
  import opened FixedWidth
  import opened Quotas

  datatype Option<T> = None | Some(value: T)

  /** A numeric task parameter: missing, present with an integer, or present but not an integer. */
  datatype Param<T> = Absent | Present(value: T) | Malformed(error: string)

  /** One element of the "resize" parameter: a disk id with its target size, or an element that
      does not decode as such a pair (the error names what went wrong). */
  datatype ResizeEntry = Resize(diskId: string, size: Int64) | MalformedEntry(error: string)

  /** The "create" parameter: the description of the disks to add, passed on unchanged. */
  type CreateSpec = map<string, string>

  /** The task parameters: "resize", "create", "vcpu_count", "vmem_size" and "auto_start". */
  datatype TaskParams = TaskParams(
    resize: Option<seq<ResizeEntry>>,
    create: Option<CreateSpec>,
    vcpuCount: Param<Int64>,
    vmemSize: Param<Int64>,
    autoStart: bool)

  /** The persisted stage. The four Await stages are the stage names
      "on_disks_resize_complete", "on_create_disks_complete", "on_sync_status_complete" and
      "on_guest_start_complete"; Complete and Failed are the two terminal states. */
  datatype Stage =
    | Initial
    | AwaitDisksResize
    | AwaitCreateDisks
    | AwaitSyncStatus
    | AwaitGuestStart
    | Complete(result: map<string, string>)
    | Failed(reason: string)

  /** A stage at which the task is suspended, waiting for one suboperation to report back. */
  predicate Waiting(s: Stage) {
    s.AwaitDisksResize? || s.AwaitCreateDisks? || s.AwaitSyncStatus? || s.AwaitGuestStart?
  }

  /** The pending usage stored with the task, or the error its decoding reports. */
  datatype PendingUsage = Stored(quota: Quota) | Unreadable(error: string)

  /** A call the task makes to a collaborator, recorded in the order it is made. */
  datatype Call =
    | StartDiskResize(diskId: string, size: Int64, pending: Quota)
    | StartCreateDisks(spec: CreateSpec)
    | RequestChangeVmConfig(vcpuCount: Int64, vmemSize: Int64)
    | CancelPendingUsage(projectId: string, pending: Quota, cancel: Quota)
    | StartSyncStatus
    | StartGuestStart

  /** The calls that launch an asynchronous suboperation the task then waits for;
      the driver call and the quota cancel are synchronous. */
  predicate IsSuboperation(c: Call) {
    c.StartDiskResize? || c.StartCreateDisks? || c.StartSyncStatus? || c.StartGuestStart?
  }

  /** What the quota manager's cancel returns: the updated pending usage, or an error. */
  datatype CancelOutcome = Cancelled(updated: Quota) | CancelError(error: string)

  /** The outcomes of the synchronous collaborators of the compute step: the hypervisor
      driver, the guest-record update, the quota cancel, the write-back of the pending usage,
      and the launch of the status sync. */
  datatype Collaborators = Collaborators(
    driverError: Option<string>,
    guestUpdateError: Option<string>,
    cancel: CancelOutcome,
    savePendingError: Option<string>,
    syncStatusError: Option<string>)

  /** Everything a handler reads or writes: the task's stage and pending usage, the guest's
      vCPU count, memory size and status, the sizes of the disks by id, and the calls made. */
  datatype TaskView = TaskView(
    stage: Stage,
    vcpuCount: Int8,
    vmemSize: Int64,
    status: string,
    pending: PendingUsage,
    disks: map<string, int>,
    calls: seq<Call>)

  /** Guest status values. */
  const VmReady: string := "ready"
  const VmChangeFlavorFail: string := "change_flavor_fail"

  /** The reason reported when the "resize" parameter cannot be read. */
  const MissingResizeParam: string := "resize: key not found"

  /** The reason reported when a disk named in the "resize" parameter does not exist. */
  function DiskNotFound(diskId: string): string {
    "disk not found: " + diskId
  }
}
