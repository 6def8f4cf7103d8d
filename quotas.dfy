/** The quota record a task reserves and releases against its project. */
module Quotas {

  /** One amount per resource kind. The compute step only ever sets the vCPU and memory
      amounts; every other kind of the record (storage, ports, addresses, bandwidth and the
      rest) is kept by name in `others`, which the zero record leaves empty. */
  datatype Quota = Quota(cpu: int, memory: int, others: map<string, int>)

  const Zero: Quota := Quota(0, 0, map[])

  /** The record handed to the quota manager to release part of the pending reservation
      after a compute change: it releases addCpu vCPUs and addMem of memory when those are
      positive, and nothing of any other resource. */
  function CancelUsage(addCpu: int, addMem: int): (q: Quota)
    ensures q.(cpu := 0, memory := 0) == Zero
    ensures q.cpu >= 0 && q.memory >= 0
    ensures addCpu >= 0 ==> q.cpu == addCpu
    ensures addMem >= 0 ==> q.memory == addMem
    ensures addCpu <= 0 ==> q.cpu == 0
    ensures addMem <= 0 ==> q.memory == 0
  {
    var withCpu := if addCpu > 0 then Zero.(cpu := addCpu) else Zero;
    if addMem > 0 then withCpu.(memory := addMem) else withCpu
  }
}
