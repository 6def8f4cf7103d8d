/** Properties of the guest change-config handlers, stated over the transition functions of
    module ChangeConfigSpec. */
module ChangeConfigProperties {
  import opened FixedWidth
  import opened Quotas
  import opened TaskTypes
  import opened ResizeScan
  import opened ChangeConfigSpec

  /** The number of suboperations launched by a run of calls. */
  function Launches(calls: seq<Call>): nat {
    if calls == [] then 0
    else (if IsSuboperation(calls[0]) then 1 else 0) + Launches(calls[1..])
  }

  /** No disk resize is launched by a run of calls. */
  predicate NoResize(calls: seq<Call>) {
    forall k :: 0 <= k < |calls| ==> !calls[k].StartDiskResize?
  }

  /** The calls a handler added, given the view before it ran and the view after. */
  function Added(v: TaskView, w: TaskView): seq<Call>
    requires v.calls <= w.calls
  {
    w.calls[|v.calls|..]
  }

  lemma {:induction false} LaunchesAppend(a: seq<Call>, b: seq<Call>)
    ensures Launches(a + b) == Launches(a) + Launches(b)
  {
    if a == [] {
      assert a + b == b;
    } else {
      assert (a + b)[1..] == a[1..] + b;
      LaunchesAppend(a[1..], b);
    }
  }

  /** Counting the calls added over two consecutive stretches of a run. */
  lemma LaunchesChain(a: seq<Call>, b: seq<Call>, c: seq<Call>)
    requires a <= b <= c
    ensures Launches(c[|a|..]) == Launches(b[|a|..]) + Launches(c[|b|..])
    ensures NoResize(c[|a|..]) <==> NoResize(b[|a|..]) && NoResize(c[|b|..])
  {
    assert c[|a|..] == b[|a|..] + c[|b|..];
    LaunchesAppend(b[|a|..], c[|b|..]);
  }

  /** What the task framework relies on after each handler: the calls made before are kept;
      at most one suboperation was launched, exactly one when the task now waits and none when it
      has completed; and a failed task has marked its guest as failed. */
  predicate SuspendsOnce(v: TaskView, w: TaskView) {
    && v.calls <= w.calls
    && Launches(Added(v, w)) <= 1
    && (Waiting(w.stage) ==> Launches(Added(v, w)) == 1)
    && (w.stage.Complete? ==> Launches(Added(v, w)) == 0)
    && (w.stage.Failed? ==> w.status == VmChangeFlavorFail)
  }

  /** Every suboperation launched by a run of calls is `op`. */
  predicate OnlyLaunches(calls: seq<Call>, op: Call) {
    forall k :: 0 <= k < |calls| && IsSuboperation(calls[k]) ==> calls[k] == op
  }

  /** The error of the first of two checks made in order, if either fails. */
  function Else(first: Option<string>, next: Option<string>): Option<string> {
    if first.Some? then first else next
  }

  /** The error of a numeric parameter that is not an integer. */
  function ParamError(p: Param<Int64>): Option<string> {
    if p.Malformed? then Some(p.error) else None
  }

  /** The error of reading the pending usage. */
  function PendingError(u: PendingUsage): Option<string> {
    if u.Unreadable? then Some(u.error) else None
  }

  /** The error of the quota manager's cancel. */
  function CancelFailure(o: CancelOutcome): Option<string> {
    if o.CancelError? then Some(o.error) else None
  }

  /** The first failed check of the reservation release, in the order they are made: reading
      the pending usage, the cancel, its write-back, and the launch of the status sync. */
  function ReleaseError(v: TaskView, c: Collaborators): Option<string> {
    Else(PendingError(v.pending), Else(CancelFailure(c.cancel), Else(c.savePendingError, c.syncStatusError)))
  }

  /** The first failed check of the driver call, the guest update and the release. */
  function ApplyError(v: TaskView, c: Collaborators): Option<string> {
    Else(c.driverError, Else(c.guestUpdateError, ReleaseError(v, c)))
  }

  /** The first failed check of the compute step: with no target given only the sync launch;
      otherwise the two targets' decoding, then the driver, the update and the release. */
  function ComputeError(v: TaskView, p: TaskParams, c: Collaborators): Option<string> {
    if !ComputeRequested(p) then c.syncStatusError
    else Else(ParamError(p.vcpuCount), Else(ParamError(p.vmemSize), ApplyError(v, c)))
  }

  /** The failure path and the success path of a step that ends by launching the status sync:
      a failed check fails the task with its error and marks the guest; with no failed check
      the task waits for the sync and the guest's status is unchanged. */
  predicate EndsAtFirstError(v: TaskView, w: TaskView, err: Option<string>) {
    && (err.Some? ==> w.stage == Failed(err.value) && w.status == VmChangeFlavorFail)
    && (err.None? ==> w.stage == AwaitSyncStatus && w.status == v.status)
  }

  /** Launching the status sync adds exactly that suboperation and changes nothing but the
      stage and, when the launch fails, the guest's status. */
  lemma SyncStatusStepSuspends(v: TaskView, c: Collaborators)
    ensures var w := SyncStatusStep(v, c);
      && SuspendsOnce(v, w)
      && Added(v, w) == [StartSyncStatus]
      && NoResize(Added(v, w))
      && w.(stage := v.stage, status := v.status, calls := v.calls) == v
      && EndsAtFirstError(v, w, c.syncStatusError)
  {
    var w := SyncStatusStep(v, c);
    assert Added(v, w) == [StartSyncStatus];
  }

  /** The reservation release launches a suboperation (the status sync) exactly when the pending
      usage is read, cancelled and stored; the first failed check fails the task with its error,
      and otherwise the task waits for the sync with the updated pending usage stored. */
  lemma ReleaseReservationSuspends(v: TaskView, cancel: Quota, projectId: string, c: Collaborators)
    ensures var w := ReleaseReservation(v, cancel, projectId, c);
      && SuspendsOnce(v, w)
      && NoResize(Added(v, w))
      && OnlyLaunches(Added(v, w), StartSyncStatus)
      && (Launches(Added(v, w)) == 1 <==>
            v.pending.Stored? && c.cancel.Cancelled? && c.savePendingError.None?)
      && EndsAtFirstError(v, w, ReleaseError(v, c))
      && (ReleaseError(v, c).None? ==> w.pending == Stored(c.cancel.updated))
  {
    var w := ReleaseReservation(v, cancel, projectId, c);
    if v.pending.Unreadable? {
      assert Added(v, w) == [];
    } else {
      var v1 := v.(calls := v.calls + [CancelPendingUsage(projectId, v.pending.quota, cancel)]);
      if c.cancel.CancelError? || c.savePendingError.Some? {
        assert Added(v, w) == [CancelPendingUsage(projectId, v.pending.quota, cancel)];
      } else {
        var v2 := v1.(pending := Stored(c.cancel.updated));
        SyncStatusStepSuspends(v2, c);
        assert Added(v, w) == [CancelPendingUsage(projectId, v.pending.quota, cancel), StartSyncStatus];
        LaunchesChain(v.calls, v2.calls, w.calls);
      }
    }
  }

  /** The driver call, the guest update and the reservation release launch at most the status
      sync; the first failed check among them fails the task with its error. */
  lemma ChangeComputeConfigSuspends(v: TaskView, cpu: Int64, mem: Int64, projectId: string, c: Collaborators)
    ensures var w := ChangeComputeConfig(v, cpu, mem, projectId, c);
      && SuspendsOnce(v, w)
      && NoResize(Added(v, w))
      && OnlyLaunches(Added(v, w), StartSyncStatus)
      && EndsAtFirstError(v, w, ApplyError(v, c))
  {
    var w := ChangeComputeConfig(v, cpu, mem, projectId, c);
    if c.driverError.Some? || c.guestUpdateError.Some? {
      assert Added(v, w) == [RequestChangeVmConfig(cpu, mem)];
    } else {
      var cancel := CancelUsage(AddDelta(cpu, v.vcpuCount), AddDelta(mem, v.vmemSize));
      var v2 := v.(calls := v.calls + [RequestChangeVmConfig(cpu, mem)],
                   vcpuCount := if cpu > 0 then ToInt8(cpu) else v.vcpuCount,
                   vmemSize := if mem > 0 then mem else v.vmemSize);
      ReleaseReservationSuspends(v2, cancel, projectId, c);
      assert ReleaseError(v2, c) == ReleaseError(v, c);
      assert Added(v, v2) == [RequestChangeVmConfig(cpu, mem)];
      assert Added(v, w) == Added(v, v2) + Added(v2, w);
      LaunchesChain(v.calls, v2.calls, w.calls);
    }
  }

  /** The compute step launches at most one suboperation, the status sync, and exactly one
      when it leaves the task waiting; it launches no resize. It fails exactly when one of its
      checks fails, with the error of the first, and otherwise waits for the sync. */
  lemma ComputeStepSuspends(v: TaskView, p: TaskParams, projectId: string, c: Collaborators)
    ensures var w := OnCreateDisksComplete(v, p, projectId, c);
      && SuspendsOnce(v, w)
      && NoResize(Added(v, w))
      && OnlyLaunches(Added(v, w), StartSyncStatus)
      && EndsAtFirstError(v, w, ComputeError(v, p, c))
  {
    var w := OnCreateDisksComplete(v, p, projectId, c);
    if !ComputeRequested(p) {
      SyncStatusStepSuspends(v, c);
    } else if p.vcpuCount.Malformed? || p.vmemSize.Malformed? {
      assert Added(v, w) == [];
    } else {
      ChangeComputeConfigSuspends(v, TargetOf(p.vcpuCount), TargetOf(p.vmemSize), projectId, c);
    }
  }

  lemma DoCreateDisksSuspends(v: TaskView, p: TaskParams, projectId: string, c: Collaborators)
    ensures SuspendsOnce(v, DoCreateDisksTask(v, p, projectId, c))
    ensures NoResize(Added(v, DoCreateDisksTask(v, p, projectId, c)))
  {
    if p.create.None? {
      ComputeStepSuspends(v, p, projectId, c);
    } else {
      assert Added(v, DoCreateDisksTask(v, p, projectId, c)) == [StartCreateDisks(p.create.value)];
    }
  }

  /** One run of the disk-resize handler launches at most one resize, and only for the entry the
      scan chose; when no entry needs growth it moves on to disk creation without any resize. */
  lemma ResizeHandlerLaunchesAtMostOneResize(v: TaskView, p: TaskParams, projectId: string, c: Collaborators)
    requires p.resize.Some?
    ensures var w := OnDisksResizeComplete(v, p, projectId, c);
      var r := Scan(p.resize.value, v.disks);
      && v.calls <= w.calls
      && (r.ResizeNext? && v.pending.Stored? ==>
            w == v.(calls := v.calls + [StartDiskResize(r.diskId, r.size, v.pending.quota)]))
      && (!(r.ResizeNext? && v.pending.Stored?) ==> NoResize(Added(v, w)))
      && (r.AllSatisfied? ==> w == DoCreateDisksTask(v, p, projectId, c))
  {
    var w := OnDisksResizeComplete(v, p, projectId, c);
    var r := Scan(p.resize.value, v.disks);
    if r.AllSatisfied? {
      DoCreateDisksSuspends(v, p, projectId, c);
    } else if !r.ResizeNext? || v.pending.Unreadable? {
      assert Added(v, w) == [];
    }
  }

  lemma ResizeHandlerSuspends(v: TaskView, p: TaskParams, projectId: string, c: Collaborators)
    requires v.stage == AwaitDisksResize
    ensures SuspendsOnce(v, OnDisksResizeComplete(v, p, projectId, c))
  {
    var w := OnDisksResizeComplete(v, p, projectId, c);
    if p.resize.None? {
      assert Added(v, w) == [];
    } else {
      var r := Scan(p.resize.value, v.disks);
      if r.AllSatisfied? {
        DoCreateDisksSuspends(v, p, projectId, c);
      } else if r.ResizeNext? && v.pending.Stored? {
        assert Added(v, w) == [StartDiskResize(r.diskId, r.size, v.pending.quota)];
      } else {
        assert Added(v, w) == [];
      }
    }
  }

  lemma InitSuspends(v: TaskView, p: TaskParams, projectId: string, c: Collaborators)
    requires v.stage == Initial
    ensures var w := OnInit(v, p, projectId, c);
      SuspendsOnce(v, w) && w.disks == v.disks && !w.stage.Complete?
  {
    var w := OnInit(v, p, projectId, c);
    if p.resize.Some? {
      var v0 := v.(stage := AwaitDisksResize);
      assert w == OnDisksResizeComplete(v0, p, projectId, c);
      ResizeHandlerSuspends(v0, p, projectId, c);
      ResizeHandlerFailures(v0, p, projectId, c);
      assert Added(v, w) == Added(v0, w);
    } else {
      assert w == DoCreateDisksTask(v, p, projectId, c);
      DoCreateDisksSuspends(v, p, projectId, c);
    }
  }

  lemma SyncStatusCompleteSuspends(v: TaskView, p: TaskParams, guestId: string)
    ensures var w := OnSyncStatusComplete(v, p, guestId);
      && SuspendsOnce(v, w) && w.disks == v.disks
      && OnlyLaunches(Added(v, w), StartGuestStart)
      && (Launches(Added(v, w)) == 1 <==> Waiting(w.stage))
  {
    var w := OnSyncStatusComplete(v, p, guestId);
    if v.status == VmReady && p.autoStart {
      assert Added(v, w) == [StartGuestStart];
    } else {
      assert Added(v, w) == [];
    }
  }

  /** Every handler, run at the stage where the framework delivers its notification, launches at
      most one suboperation (exactly one when it leaves the task waiting), never changes the
      disks, completes only with the guest's id as result, and fails only after marking the guest. */
  lemma HandlerSuspendsOnce(v: TaskView, p: TaskParams, guestId: string, projectId: string, c: Collaborators, e: Event)
    requires v.stage == DeliveredAt(e)
    ensures var w := Handle(v, p, guestId, projectId, c, e);
      && SuspendsOnce(v, w)
      && w.disks == v.disks
      && (w.stage.Complete? ==> w.stage.result == map["id" := guestId])
  {
    match e
    case Start =>
      InitSuspends(v, p, projectId, c);
    case DisksResized =>
      ResizeHandlerSuspends(v, p, projectId, c);
    case CreateDisksDone =>
      ComputeStepSuspends(v, p, projectId, c);
    case CreateDisksFailed(err) =>
      assert Added(v, OnCreateDisksCompleteFailed(v, err)) == [];
    case SyncStatusDone =>
      SyncStatusCompleteSuspends(v, p, guestId);
    case GuestStartDone =>
      assert Added(v, OnGuestStartComplete(v, guestId)) == [];
  }

  /** With a "resize" parameter the resize handler runs at once, at the resize stage; without
      one, control goes straight to disk creation and no resize is launched. */
  lemma InitRouting(v: TaskView, p: TaskParams, projectId: string, c: Collaborators)
    ensures var w := OnInit(v, p, projectId, c);
      && (p.resize.Some? ==> w == OnDisksResizeComplete(v.(stage := AwaitDisksResize), p, projectId, c))
      && (p.resize.None? ==> w == DoCreateDisksTask(v, p, projectId, c) && v.calls <= w.calls && NoResize(Added(v, w)))
  {
    if p.resize.None? {
      DoCreateDisksSuspends(v, p, projectId, c);
    }
  }

  /** Without a "create" parameter the compute step runs synchronously and no creation stage is
      set; with one, the stage is set before the creation is launched, and nothing else changes. */
  lemma CreateDisksRouting(v: TaskView, p: TaskParams, projectId: string, c: Collaborators)
    ensures var w := DoCreateDisksTask(v, p, projectId, c);
      && (p.create.None? ==> w == OnCreateDisksComplete(v, p, projectId, c) && !w.stage.AwaitCreateDisks?)
      && (p.create.Some? ==>
            w == v.(stage := AwaitCreateDisks, calls := v.calls + [StartCreateDisks(p.create.value)]))
  {
  }

  /** Without "vcpu_count" and "vmem_size" there is no driver call, no guest update and no quota
      cancel, and the status sync is still launched. */
  lemma NoTargetsOnlySyncsStatus(v: TaskView, p: TaskParams, projectId: string, c: Collaborators)
    requires !ComputeRequested(p)
    ensures var w := OnCreateDisksComplete(v, p, projectId, c);
      && w.calls == v.calls + [StartSyncStatus]
      && w.vcpuCount == v.vcpuCount && w.vmemSize == v.vmemSize && w.pending == v.pending
      && (c.syncStatusError.None? ==> w == v.(stage := AwaitSyncStatus, calls := w.calls))
      && (c.syncStatusError.Some? ==> w.stage == Failed(c.syncStatusError.value) && w.status == VmChangeFlavorFail)
  {
  }

  /** The compute step applies the driver call first; the guest's vCPU count and memory size are
      written only when the driver and the update succeed, and only for positive targets (the vCPU
      count through Go's int8 conversion); the guest's status changes only to the failure marker. */
  lemma ComputeGuestWrites(v: TaskView, p: TaskParams, projectId: string, c: Collaborators)
    ensures var w := OnCreateDisksComplete(v, p, projectId, c);
      var cpu, mem := TargetOf(p.vcpuCount), TargetOf(p.vmemSize);
      var driven := ComputeRequested(p) && !p.vcpuCount.Malformed? && !p.vmemSize.Malformed?;
      var applied := driven && c.driverError.None? && c.guestUpdateError.None?;
      && (driven ==> |w.calls| > |v.calls| && w.calls[|v.calls|] == RequestChangeVmConfig(cpu, mem))
      && w.vcpuCount == (if applied && cpu > 0 then ToInt8(cpu) else v.vcpuCount)
      && w.vmemSize == (if applied && mem > 0 then mem else v.vmemSize)
      && (w.status == v.status || w.status == VmChangeFlavorFail)
      && w.disks == v.disks
  {
  }

  /** A driver error fails the task and leaves the guest's sizes and the pending usage as they were. */
  lemma DriverErrorKeepsSizes(v: TaskView, p: TaskParams, projectId: string, c: Collaborators)
    requires ComputeRequested(p) && !p.vcpuCount.Malformed? && !p.vmemSize.Malformed?
    requires c.driverError.Some?
    ensures var w := OnCreateDisksComplete(v, p, projectId, c);
      && w.calls == v.calls + [RequestChangeVmConfig(TargetOf(p.vcpuCount), TargetOf(p.vmemSize))]
      && w.vcpuCount == v.vcpuCount && w.vmemSize == v.vmemSize && w.pending == v.pending
      && w.status == VmChangeFlavorFail && w.stage == Failed(c.driverError.value)
  {
  }

  /** After a successful driver call and update, the quota cancel releases exactly the clamped
      growth of each dimension measured against the guest's values before the update, and nothing
      else (a growth beyond the int64 range wraps negative and releases nothing); the updated
      pending usage is kept only when the cancel and its write-back succeed, and a failed cancel
      or write-back fails the task with the new sizes applied and the pending usage unchanged. */
  lemma CancelReleasesClampedGrowth(v: TaskView, p: TaskParams, projectId: string, c: Collaborators)
    requires ComputeRequested(p) && !p.vcpuCount.Malformed? && !p.vmemSize.Malformed?
    requires c.driverError.None? && c.guestUpdateError.None? && v.pending.Stored?
    ensures var w := OnCreateDisksComplete(v, p, projectId, c);
      var cpu, mem := TargetOf(p.vcpuCount), TargetOf(p.vmemSize);
      && |w.calls| >= |v.calls| + 2
      && w.calls[|v.calls|] == RequestChangeVmConfig(cpu, mem)
      && w.calls[|v.calls| + 1].CancelPendingUsage?
      && var call := w.calls[|v.calls| + 1];
      && call.projectId == projectId && call.pending == v.pending.quota
      && call.cancel.(cpu := 0, memory := 0) == Zero
      && call.cancel.cpu >= 0 && call.cancel.memory >= 0
      && (cpu <= 0 ==> call.cancel.cpu == 0)
      && (mem <= 0 ==> call.cancel.memory == 0)
      && (0 < cpu && cpu - v.vcpuCount <= Int64Max ==>
            call.cancel.cpu == (if cpu > v.vcpuCount then cpu - v.vcpuCount else 0))
      && (0 < mem && mem - v.vmemSize <= Int64Max ==>
            call.cancel.memory == (if mem > v.vmemSize then mem - v.vmemSize else 0))
      && (cpu - v.vcpuCount > Int64Max ==> call.cancel.cpu == 0)
      && (mem - v.vmemSize > Int64Max ==> call.cancel.memory == 0)
      && w.vcpuCount == (if cpu > 0 then ToInt8(cpu) else v.vcpuCount)
      && w.vmemSize == (if mem > 0 then mem else v.vmemSize)
      && (c.cancel.Cancelled? && c.savePendingError.None? ==> w.pending == Stored(c.cancel.updated))
      && (c.cancel.Cancelled? && c.savePendingError.Some? ==>
            w.pending == v.pending && w.stage == Failed(c.savePendingError.value)
            && w.status == VmChangeFlavorFail && |w.calls| == |v.calls| + 2)
      && (c.cancel.CancelError? ==>
            w.pending == v.pending && w.stage == Failed(c.cancel.error)
            && w.status == VmChangeFlavorFail && |w.calls| == |v.calls| + 2)
  {
    var cancel := CancelUsage(AddDelta(TargetOf(p.vcpuCount), v.vcpuCount), AddDelta(TargetOf(p.vmemSize), v.vmemSize));
    assert OnCreateDisksComplete(v, p, projectId, c).calls[|v.calls| + 1] ==
      CancelPendingUsage(projectId, v.pending.quota, cancel);
  }

  /** Each way the resize handler can fail ends in the failure path with that error: a missing
      "resize" parameter, an entry the scan cannot accept, and, when a resize is due, unreadable
      pending usage; a resize launched with readable pending usage leaves stage and status alone. */
  lemma ResizeHandlerFailures(v: TaskView, p: TaskParams, projectId: string, c: Collaborators)
    ensures var w := OnDisksResizeComplete(v, p, projectId, c);
      && (p.resize.None? ==> w == MarkStageFailed(v, MissingResizeParam))
      && (p.resize.Some? && Scan(p.resize.value, v.disks).ScanFailed? ==>
            w == MarkStageFailed(v, Scan(p.resize.value, v.disks).reason))
      && (p.resize.Some? && Scan(p.resize.value, v.disks).ResizeNext? && v.pending.Unreadable? ==>
            w == MarkStageFailed(v, v.pending.error))
      && (p.resize.Some? && Scan(p.resize.value, v.disks).ResizeNext? && v.pending.Stored? ==>
            w.stage == v.stage && w.status == v.status)
      && (p.resize.Some? && Scan(p.resize.value, v.disks).AllSatisfied? && p.create.None? ==>
            EndsAtFirstError(v, w, ComputeError(v, p, c)))
  {
    if p.resize.Some? && Scan(p.resize.value, v.disks).AllSatisfied? && p.create.None? {
      ComputeStepSuspends(v, p, projectId, c);
    }
  }

  /** The guest is started exactly when its status is ready and "auto_start" is set; otherwise
      the task completes with the guest's id and nothing else changes. */
  lemma SyncStatusStartsGuestIff(v: TaskView, p: TaskParams, guestId: string)
    ensures var w := OnSyncStatusComplete(v, p, guestId);
      && ((w.calls == v.calls + [StartGuestStart] && w.stage == AwaitGuestStart) <==> (v.status == VmReady && p.autoStart))
      && (!(v.status == VmReady && p.autoStart) ==> w == v.(stage := Complete(map["id" := guestId])))
  {
  }
}
