/** The guest change-config task as the objects it updates in place: the guest record, and the
    task with its stage, pending usage and the calls it has made. Each handler is a method whose
    postcondition equates the new view of task and guest with the transition function of the
    same name in module ChangeConfigSpec applied to the old view. */
module GuestChangeConfig {
  import opened FixedWidth
  import opened Quotas
  import opened TaskTypes
  import ResizeScan
  import Spec = ChangeConfigSpec

  /** The fields of a guest that the task reads or writes. */
  class Guest {
    const id: string
    const projectId: string
    var vcpuCount: Int8
    var vmemSize: Int64
    var status: string

    constructor (id: string, projectId: string, vcpuCount: Int8, vmemSize: Int64, status: string)
      ensures this.id == id && this.projectId == projectId
      ensures this.vcpuCount == vcpuCount && this.vmemSize == vmemSize && this.status == status
    {
      this.id := id;
      this.projectId := projectId;
      this.vcpuCount := vcpuCount;
      this.vmemSize := vmemSize;
      this.status := status;
    }
  }

  class GuestChangeConfigTask {
    const params: TaskParams
    const guest: Guest
    var stage: Stage
    var pendingUsage: PendingUsage
    /** The sizes of the existing disks by id, as the disk manager returns them. */
    var disks: map<string, int>
    /** The calls made to collaborators, in order. */
    var calls: seq<Call>

    constructor (params: TaskParams, guest: Guest, pendingUsage: PendingUsage, disks: map<string, int>)
      ensures this.params == params && this.guest == guest
      ensures View() == TaskView(Initial, guest.vcpuCount, guest.vmemSize, guest.status, pendingUsage, disks, [])
    {
      this.params := params;
      this.guest := guest;
      this.stage := Initial;
      this.pendingUsage := pendingUsage;
      this.disks := disks;
      this.calls := [];
    }

    function View(): TaskView
      reads this, guest
    {
      TaskView(stage, guest.vcpuCount, guest.vmemSize, guest.status, pendingUsage, disks, calls)
    }

    method OnInit(c: Collaborators)
      modifies this, guest
      ensures View() == Spec.OnInit(old(View()), params, guest.projectId, c)
    {
      if params.resize.Some? {
        stage := AwaitDisksResize;
        OnDisksResizeComplete(c);
      } else {
        DoCreateDisksTask(c);
      }
    }

    method OnDisksResizeComplete(c: Collaborators)
      modifies this, guest
      ensures View() == Spec.OnDisksResizeComplete(old(View()), params, guest.projectId, c)
    {
      if params.resize.None? {
        MarkStageFailed(MissingResizeParam);
        return;
      }
      var next := ResizeScan.SelectResize(params.resize.value, disks);
      match next
      case ScanFailed(_, reason) =>
        MarkStageFailed(reason);
      case ResizeNext(_, id, size) =>
        if pendingUsage.Unreadable? {
          MarkStageFailed(pendingUsage.error);
        } else {
          calls := calls + [StartDiskResize(id, size, pendingUsage.quota)];
        }
      case AllSatisfied =>
        DoCreateDisksTask(c);
    }

    method DoCreateDisksTask(c: Collaborators)
      modifies this, guest
      ensures View() == Spec.DoCreateDisksTask(old(View()), params, guest.projectId, c)
    {
      if params.create.None? {
        OnCreateDisksComplete(c);
        return;
      }
      stage := AwaitCreateDisks;
      calls := calls + [StartCreateDisks(params.create.value)];
    }

    method OnCreateDisksCompleteFailed(error: string)
      modifies this, guest
      ensures View() == Spec.OnCreateDisksCompleteFailed(old(View()), error)
    {
      MarkStageFailed(error);
    }

    method OnCreateDisksComplete(c: Collaborators)
      modifies this, guest
      ensures View() == Spec.OnCreateDisksComplete(old(View()), params, guest.projectId, c)
    {
      ghost var before := View();
      var vcpuCount: Int64, vmemSize: Int64 := 0, 0;
      if !params.vcpuCount.Absent? || !params.vmemSize.Absent? {
        if params.vcpuCount.Malformed? {
          MarkStageFailed(params.vcpuCount.error);
          return;
        }
        if params.vcpuCount.Present? {
          vcpuCount := params.vcpuCount.value;
        }
        if params.vmemSize.Malformed? {
          MarkStageFailed(params.vmemSize.error);
          return;
        }
        if params.vmemSize.Present? {
          vmemSize := params.vmemSize.value;
        }
        assert Spec.OnCreateDisksComplete(before, params, guest.projectId, c)
          == Spec.ChangeComputeConfig(before, vcpuCount, vmemSize, guest.projectId, c);
        calls := calls + [RequestChangeVmConfig(vcpuCount, vmemSize)];
        if c.driverError.Some? {
          MarkStageFailed(c.driverError.value);
          return;
        }
        var addCpu, addMem := 0, 0;
        if vcpuCount > 0 {
          addCpu := Wrap64(vcpuCount - guest.vcpuCount);
          if addCpu < 0 {
            addCpu := 0;
          }
        }
        if vmemSize > 0 {
          addMem := Wrap64(vmemSize - guest.vmemSize);
          if addMem < 0 {
            addMem := 0;
          }
        }
        assert addCpu == Spec.AddDelta(vcpuCount, before.vcpuCount);
        assert addMem == Spec.AddDelta(vmemSize, before.vmemSize);
        if c.guestUpdateError.Some? {
          MarkStageFailed(c.guestUpdateError.value);
          return;
        }
        if vcpuCount > 0 {
          guest.vcpuCount := ToInt8(vcpuCount);
        }
        if vmemSize > 0 {
          guest.vmemSize := vmemSize;
        }
        var cancelUsage := CancelUsage(addCpu, addMem);
        assert Spec.ChangeComputeConfig(before, vcpuCount, vmemSize, guest.projectId, c)
          == Spec.ReleaseReservation(View(), cancelUsage, guest.projectId, c);
        ReleaseReservation(cancelUsage, c);
        return;
      }
      StartSyncStatusStep(c);
    }

    /** The tail of the compute step, from reading the pending usage on. */
    method ReleaseReservation(cancelUsage: Quota, c: Collaborators)
      modifies this, guest
      ensures View() == Spec.ReleaseReservation(old(View()), cancelUsage, guest.projectId, c)
    {
      if pendingUsage.Unreadable? {
        MarkStageFailed(pendingUsage.error);
        return;
      }
      calls := calls + [CancelPendingUsage(guest.projectId, pendingUsage.quota, cancelUsage)];
      if c.cancel.CancelError? {
        MarkStageFailed(c.cancel.error);
        return;
      }
      if c.savePendingError.Some? {
        MarkStageFailed(c.savePendingError.value);
        return;
      }
      pendingUsage := Stored(c.cancel.updated);
      StartSyncStatusStep(c);
    }

    /** Sets the stage to wait for the status sync, then launches it. */
    method StartSyncStatusStep(c: Collaborators)
      modifies this, guest
      ensures View() == Spec.SyncStatusStep(old(View()), c)
    {
      stage := AwaitSyncStatus;
      calls := calls + [StartSyncStatus];
      if c.syncStatusError.Some? {
        MarkStageFailed(c.syncStatusError.value);
      }
    }

    method OnSyncStatusComplete()
      modifies this
      ensures View() == Spec.OnSyncStatusComplete(old(View()), params, guest.id)
    {
      if guest.status == VmReady && params.autoStart {
        stage := AwaitGuestStart;
        calls := calls + [StartGuestStart];
      } else {
        stage := Complete(map["id" := guest.id]);
      }
    }

    method OnGuestStartComplete()
      modifies this
      ensures View() == Spec.OnGuestStartComplete(old(View()), guest.id)
    {
      stage := Complete(map["id" := guest.id]);
    }

    method MarkStageFailed(reason: string)
      modifies this, guest
      ensures View() == Spec.MarkStageFailed(old(View()), reason)
    {
      guest.status := VmChangeFlavorFail;
      stage := Failed(reason);
    }
  }
}
