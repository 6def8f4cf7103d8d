/** Runs of the task through its handlers, as the task framework would drive them, checked
    against the handler contracts alone. */
module Scenarios {
  import opened Quotas
  import opened TaskTypes
  import opened GuestChangeConfig

  const AllSucceed: Collaborators :=
    Collaborators(None, None, Cancelled(Zero), None, None)

  /** A disk already at its target is not resized: the task goes straight on to the status sync. */
  method DiskAtTargetIsNotResized() {
    var guest := new Guest("g1", "p1", 2, 2048, VmReady);
    var params := TaskParams(Some([Resize("d1", 50)]), None, Absent, Absent, false);
    var task := new GuestChangeConfigTask(params, guest, Stored(Zero), map["d1" := 50]);
    task.OnInit(AllSucceed);
    assert task.calls == [StartSyncStatus];
    assert task.stage == AwaitSyncStatus;
  }

  /** A disk below its target is resized; after the resize the re-scan finds nothing left. */
  method DiskBelowTargetIsResizedOnce() {
    var guest := new Guest("g1", "p1", 2, 2048, VmReady);
    var params := TaskParams(Some([Resize("d1", 100)]), None, Absent, Absent, false);
    var task := new GuestChangeConfigTask(params, guest, Stored(Zero), map["d1" := 50]);
    task.OnInit(AllSucceed);
    assert task.calls == [StartDiskResize("d1", 100, Zero)];
    assert task.stage == AwaitDisksResize;
    task.disks := task.disks["d1" := 100];
    task.OnDisksResizeComplete(AllSucceed);
    assert task.calls == [StartDiskResize("d1", 100, Zero), StartSyncStatus];
    assert task.stage == AwaitSyncStatus;
  }

  /** Growing from 2 to 4 vCPUs with the memory left alone: the driver gets 4 and 0, the guest
      stores 4, and the cancel releases 2 vCPUs and nothing else. */
  method VcpuGrowthReleasesDelta() {
    var guest := new Guest("g1", "p1", 2, 2048, VmReady);
    var params := TaskParams(None, None, Present(4), Absent, false);
    var pending := Zero.(cpu := 2);
    var task := new GuestChangeConfigTask(params, guest, Stored(pending), map[]);
    task.OnInit(AllSucceed);
    assert task.calls == [
      RequestChangeVmConfig(4, 0),
      CancelPendingUsage("p1", pending, Zero.(cpu := 2)),
      StartSyncStatus];
    assert guest.vcpuCount == 4 && guest.vmemSize == 2048;
    assert task.stage == AwaitSyncStatus;
  }

  /** A driver error fails the task and marks the guest, with its sizes unchanged. */
  method DriverErrorFailsTask() {
    var guest := new Guest("g1", "p1", 2, 2048, VmReady);
    var params := TaskParams(None, None, Present(4), Present(4096), false);
    var task := new GuestChangeConfigTask(params, guest, Stored(Zero), map[]);
    task.OnInit(AllSucceed.(driverError := Some("driver refused")));
    assert task.stage == Failed("driver refused");
    assert guest.status == VmChangeFlavorFail;
    assert guest.vcpuCount == 2 && guest.vmemSize == 2048;
    assert task.calls == [RequestChangeVmConfig(4, 4096)];
  }

  /** A guest that is ready after the sync, with auto-start requested, is started, and the task
      then completes with the guest's id. */
  method ReadyGuestIsAutoStarted() {
    var guest := new Guest("g1", "p1", 2, 2048, "sync_status");
    var params := TaskParams(None, None, Absent, Absent, true);
    var task := new GuestChangeConfigTask(params, guest, Stored(Zero), map[]);
    task.OnInit(AllSucceed);
    assert task.stage == AwaitSyncStatus;
    guest.status := VmReady;
    task.OnSyncStatusComplete();
    assert task.stage == AwaitGuestStart;
    assert task.calls == [StartSyncStatus, StartGuestStart];
    task.OnGuestStartComplete();
    assert task.stage == Complete(map["id" := "g1"]);
  }
}
