/**
 The registry object of node/podstore.go; each method is taken as atomic.  `Valid` is what
 the registry is for: its counters are the sums over the live pods, its index leads to live
 pods of the right name, and its deleting count misses none.  No method demands it; each
 says exactly when it keeps it.
 */
module PodStore {
  import opened Common
  import M = PodStoreModel
  import R = PodStoreRuns
  import A = Admission

  /** podResources: the sums of the containers' requests (see `PodStoreModel.CpuOfParts` and
      `MemOfParts` for what the sums are). */
  method PodResources(pod: M.Pod) returns (cpuMillis: nat, memBytes: nat)
    ensures cpuMillis == M.Cpu(pod) && memBytes == M.Mem(pod)
  {
    cpuMillis, memBytes := 0, 0;
    for i := 0 to |pod.containers|
      invariant cpuMillis == M.CpuOf(pod.containers[..i]) && memBytes == M.MemOf(pod.containers[..i])
    {
      var c := pod.containers[i];
      assert pod.containers[..i + 1][..i] == pod.containers[..i];
      if c.cpuMillis.Some? {
        cpuMillis := cpuMillis + c.cpuMillis.value;
      }
      if c.memBytes.Some? {
        memBytes := memBytes + c.memBytes.value;
      }
    }
    assert pod.containers[..|pod.containers|] == pod.containers;
  }

  class PodStore {
    var pods: map<string, M.PodRecord>
    var nameIndex: map<string, string>
    var usedCPU: int
    var usedMem: int
    var deletingCount: int

    ghost function View(): M.Store
      reads this
    {
      M.Store(pods, nameIndex, usedCPU, usedMem, deletingCount)
    }

    ghost predicate Valid()
      reads this
    {
      R.StoreInv(View())
    }

    constructor ()
      ensures Valid() && View() == M.EMPTY
    {
      pods, nameIndex, usedCPU, usedMem, deletingCount := map[], map[], 0, 0, 0;
    }

    /** Names, sums and deleting count are as they were. */
    twostate predicate OnlyPods()
      reads this
    {
      nameIndex == old(nameIndex) && usedCPU == old(usedCPU) && usedMem == old(usedMem)
      && deletingCount == old(deletingCount)
    }

    method RegisterPending(uid: string, pod: M.Pod)
      modifies this
      ensures pods == old(pods)[uid := M.PodRecord(pod, "", M.Pending, false, true, false)]
      ensures nameIndex == old(nameIndex)[pod.namespace + "/" + pod.name := uid]
      ensures usedCPU == old(usedCPU) + M.Cpu(pod) && usedMem == old(usedMem) + M.Mem(pod)
      ensures deletingCount == old(deletingCount)
      ensures View() == M.RegisterPending(old(View()), uid, pod)
      ensures old(Valid()) ==>
                (Valid() <==> (uid !in old(pods) || R.RequestFree(old(pods)[uid].pod))
                              && R.NameFits(old(View()), uid, M.FullName(pod)))
    {
      ghost var st := View();
      if R.StoreInv(st) { R.PutKeepsInvIff(st, uid, M.PodRecord(pod, "", M.Pending, false, true, false)); }
      pods := pods[uid := M.PodRecord(pod, "", M.Pending, false, true, false)];
      nameIndex := nameIndex[M.FullName(pod) := uid];
      var cpu, mem := PodResources(pod);
      usedCPU, usedMem := usedCPU + cpu, usedMem + mem;
    }

    method AlreadyRunning(uid: string, pod: M.Pod) returns (exists_: bool, wasStub: bool)
      modifies this
      ensures View() == M.AlreadyRunning(old(View()), uid, pod)
      ensures exists_ == (uid in old(pods))
      ensures wasStub == (uid in old(pods) && old(pods)[uid].pod.containers == [])
      ensures !exists_ ==> View() == old(View())
      ensures exists_ ==>
                var r := old(pods)[uid];
                && pods == old(pods)[uid := M.PodRecord(if wasStub then pod else r.pod, r.ip, r.phase, false,
                                                        r.inFlight, r.deleting)]
                && nameIndex == old(nameIndex) && deletingCount == old(deletingCount)
                && usedCPU == old(usedCPU) + (if wasStub then M.Cpu(pod) else 0)
                && usedMem == old(usedMem) + (if wasStub then M.Mem(pod) else 0)
      ensures old(Valid()) ==> (Valid() <==> (wasStub ==> R.NameFits(old(View()), uid, M.FullName(pod))))
    {
      ghost var st := View();
      if R.StoreInv(st) { R.AdoptKeepsInvIff(st, uid, pod); }
      if uid !in pods {
        return false, false;
      }
      var r := pods[uid];
      wasStub := |r.pod.containers| == 0;
      if wasStub {
        var cpu, mem := PodResources(pod);
        usedCPU, usedMem := usedCPU + cpu, usedMem + mem;
        r := r.(pod := pod);
      }
      pods := pods[uid := r.(hydrated := false)];
      exists_ := true;
    }

    method PromoteRunning(uid: string, pod: M.Pod, ip: string)
      modifies this
      ensures OnlyPods() && (uid !in old(pods) ==> pods == old(pods))
      ensures uid in old(pods) ==>
                var r := old(pods)[uid];
                pods == old(pods)[uid := M.PodRecord(pod, ip, M.Running, r.hydrated, false, r.deleting)]
      ensures View() == M.PromoteRunning(old(View()), uid, pod, ip)
      ensures old(Valid()) ==>
                (Valid() <==> (uid in old(pods) ==> R.SameRequests(old(pods)[uid].pod, pod)
                                                    && R.NameFits(old(View()), uid, M.FullName(pod))))
    {
      ghost var st := View();
      if R.StoreInv(st) && uid in pods {
        R.ReplaceKeepsInvIff(st, uid, pods[uid].(pod := pod, ip := ip, phase := M.Running, inFlight := false));
      }
      if uid in pods {
        pods := pods[uid := pods[uid].(pod := pod, ip := ip, phase := M.Running, inFlight := false)];
      }
    }

    method MarkFailed(uid: string, pod: M.Pod)
      modifies this
      ensures OnlyPods() && (uid !in old(pods) ==> pods == old(pods))
      ensures uid in old(pods) ==>
                var r := old(pods)[uid];
                pods == old(pods)[uid := M.PodRecord(pod, r.ip, M.Failed, r.hydrated, r.inFlight, r.deleting)]
      ensures View() == M.MarkFailed(old(View()), uid, pod)
      ensures old(Valid()) ==>
                (Valid() <==> (uid in old(pods) ==> R.SameRequests(old(pods)[uid].pod, pod)
                                                    && R.NameFits(old(View()), uid, M.FullName(pod))))
    {
      ghost var st := View();
      if R.StoreInv(st) && uid in pods {
        R.ReplaceKeepsInvIff(st, uid, pods[uid].(pod := pod, phase := M.Failed));
      }
      if uid in pods {
        pods := pods[uid := pods[uid].(pod := pod, phase := M.Failed)];
      }
    }

    method MarkDeleting(uid: string)
      modifies this
      ensures nameIndex == old(nameIndex) && usedCPU == old(usedCPU) && usedMem == old(usedMem)
      ensures uid !in old(pods) ==> pods == old(pods) && deletingCount == old(deletingCount)
      ensures uid in old(pods) ==>
                var r := old(pods)[uid];
                && pods == old(pods)[uid := M.PodRecord(r.pod, r.ip, r.phase, r.hydrated, r.inFlight, true)]
                && deletingCount == old(deletingCount) + (if r.deleting then 0 else 1)
      ensures View() == M.MarkDeleting(old(View()), uid)
      ensures old(Valid()) ==> Valid()
    {
      ghost var st := View();
      if R.StoreInv(st) { R.MarkDeletingKeepsInv(st, uid); }
      if uid in pods && !pods[uid].deleting {
        pods := pods[uid := pods[uid].(deleting := true)];
        deletingCount := deletingCount + 1;
      }
    }

    method Unregister(uid: string, namespace: string, name: string)
      modifies this
      ensures pods == old(pods) - {uid}
      ensures uid !in old(pods) ==> View() == old(View())
      ensures uid in old(pods) ==>
                var r := old(pods)[uid];
                && nameIndex == old(nameIndex) - {namespace + "/" + name}
                && usedCPU == old(usedCPU) - M.Cpu(r.pod) && usedMem == old(usedMem) - M.Mem(r.pod)
                && deletingCount == old(deletingCount) - (if r.deleting then 1 else 0)
      ensures View() == M.Unregister(old(View()), uid, namespace, name)
      ensures old(Valid()) ==> (Valid() <==> R.NameFits(old(View()), uid, namespace + "/" + name))
    {
      ghost var st := View();
      if R.StoreInv(st) { R.UnregisterKeepsInvIff(st, uid, namespace, name); }
      if uid in pods {
        var r := pods[uid];
        pods := pods - {uid};
        nameIndex := nameIndex - {namespace + "/" + name};
        var cpu, mem := PodResources(r.pod);
        usedCPU, usedMem := usedCPU - cpu, usedMem - mem;
        if r.deleting {
          deletingCount := deletingCount - 1;
        }
      }
    }

    method EvictGhost(uid: string)
      modifies this
      ensures pods == old(pods) - {uid} && deletingCount == old(deletingCount)
      ensures uid !in old(pods) ==> View() == old(View())
      ensures uid in old(pods) ==>
                var p := old(pods)[uid].pod;
                && nameIndex == old(nameIndex) - {p.namespace + "/" + p.name}
                && usedCPU == old(usedCPU) - M.Cpu(p) && usedMem == old(usedMem) - M.Mem(p)
      ensures View() == M.EvictGhost(old(View()), uid)
      ensures old(Valid()) ==> Valid()
    {
      ghost var st := View();
      if R.StoreInv(st) { R.EvictKeepsInv(st, uid); }
      if uid in pods {
        var r := pods[uid];
        pods := pods - {uid};
        nameIndex := nameIndex - {M.FullName(r.pod)};
        var cpu, mem := PodResources(r.pod);
        usedCPU, usedMem := usedCPU - cpu, usedMem - mem;
      }
    }

    /** One pass over the entries, then one update of each counter. */
    method RegisterHydratedBatch(entries: seq<M.Entry>)
      modifies this
      ensures View() == M.RegisterHydratedBatch(old(View()), entries)
      ensures old(Valid()) && R.LegalBatch(old(View()), entries) ==> Valid()
    {
      var totalCPU, totalMem := 0, 0;
      for i := 0 to |entries|
        invariant usedCPU == old(usedCPU) && usedMem == old(usedMem)
        invariant View().(usedCPU := usedCPU + totalCPU, usedMem := usedMem + totalMem)
                  == M.RegisterHydratedBatch(old(View()), entries[..i])
      {
        var e := entries[i];
        assert entries[..i + 1][..i] == entries[..i];
        pods := pods[e.uid := M.PodRecord(e.pod, e.ip, M.Running, true, false, false)];
        nameIndex := nameIndex[M.FullName(e.pod) := e.uid];
        var cpu, mem := PodResources(e.pod);
        totalCPU, totalMem := totalCPU + cpu, totalMem + mem;
      }
      assert entries[..|entries|] == entries;
      usedCPU, usedMem := usedCPU + totalCPU, usedMem + totalMem;
      if old(Valid()) && R.LegalBatch(old(View()), entries) { R.BatchKeepsInv(old(View()), entries); }
    }

    method PurgeHydrated(staleUIDs: seq<string>)
      modifies this
      ensures View() == M.PurgeHydrated(old(View()), staleUIDs)
      ensures old(Valid()) ==> Valid() && pods == old(pods) - set u | u in staleUIDs
    {
      var subCPU, subMem := 0, 0;
      for i := 0 to |staleUIDs|
        invariant usedCPU == old(usedCPU) && usedMem == old(usedMem)
        invariant View().(usedCPU := usedCPU - subCPU, usedMem := usedMem - subMem)
                  == M.PurgeHydrated(old(View()), staleUIDs[..i])
      {
        var uid := staleUIDs[i];
        assert staleUIDs[..i + 1][..i] == staleUIDs[..i];
        if uid in pods {
          var r := pods[uid];
          var cpu, mem := PodResources(r.pod);
          subCPU, subMem := subCPU + cpu, subMem + mem;
          nameIndex := nameIndex - {M.FullName(r.pod)};
          pods := pods - {uid};
        }
      }
      assert staleUIDs[..|staleUIDs|] == staleUIDs;
      usedCPU, usedMem := usedCPU - subCPU, usedMem - subMem;
      if old(Valid()) { R.PurgeKeepsInv(old(View()), staleUIDs); }
    }

    /** Which test refuses the pod, against the requests of the live pods: pressure first, then
        CPU, then memory; a limit that is not positive refuses nothing. */
    method AdmitPod(pod: M.Pod, cap: M.Capacity, pressure: bool) returns (v: M.Verdict)
      ensures v == M.AdmitPod(View(), pod, cap, pressure)
      ensures v == M.UnderPressure <==> pressure
      ensures Valid() && !pressure ==>
                var asks := M.Cpu(pod) > 0 || M.Mem(pod) > 0;
                var cpuShort := cap.cpu > 0 && M.Total(pods, R.RecordCpu) + M.Cpu(pod) > cap.cpu;
                var memShort := cap.mem > 0 && M.Total(pods, R.RecordMem) + M.Mem(pod) > cap.mem;
                && (v == M.NoCpu <==> asks && cpuShort)
                && (v == M.NoMemory <==> asks && !cpuShort && memShort)
                && (v == M.Admitted <==> !asks || (!cpuShort && !memShort))
    {
      if pressure {
        return M.UnderPressure;
      }
      var cpu, mem := PodResources(pod);
      if cpu == 0 && mem == 0 {
        return M.Admitted;
      }
      if cap.cpu > 0 && usedCPU + cpu > cap.cpu {
        return M.NoCpu;
      }
      if cap.mem > 0 && usedMem + mem > cap.mem {
        return M.NoMemory;
      }
      return M.Admitted;
    }

    /** The rest of CreatePod up to the creation goroutine, for a pod that is admitted. */
    method Enroll(uid: string, pod: M.Pod)
      modifies this
      ensures View() == M.Enroll(old(View()), uid, pod)
      ensures uid in old(pods) && old(pods)[uid].inFlight ==> View() == old(View())
      ensures uid !in old(pods) ==> pods == old(pods)[uid := M.PodRecord(pod, "", M.Pending, false, true, false)]
      ensures uid in old(pods) && !old(pods)[uid].inFlight ==>
                var r := old(pods)[uid];
                pods == old(pods)[uid := M.PodRecord(if r.pod.containers == [] then pod else r.pod, r.ip, r.phase,
                                                     false, false, r.deleting)]
      ensures old(Valid()) && R.Legal(old(View()), R.OpEnroll(uid, pod)) ==> Valid()
    {
      ghost var st := View();
      if R.StoreInv(st) && R.Legal(st, R.OpEnroll(uid, pod)) { R.EnrollKeepsInv(st, uid, pod); }
      if uid in pods && pods[uid].inFlight {
        return;
      }
      var known, stub := AlreadyRunning(uid, pod);
      if !known {
        RegisterPending(uid, pod);
      }
    }

    /** CreatePod when nothing comes between its admission and its registration: then it stays
        within a capacity that is kept so far. */
    method Create(uid: string, pod: M.Pod, cap: M.Capacity, pressure: bool)
      modifies this
      ensures View() == M.Create(old(View()), uid, pod, cap, pressure)
      ensures old(A.WithinCapacity(View(), cap)) ==> A.WithinCapacity(View(), cap)
      ensures old(Valid()) && R.Legal(old(View()), R.OpEnroll(uid, pod)) ==> Valid()
    {
      ghost var st := View();
      if |pod.containers| == 0 {
        return;
      }
      var v := AdmitPod(pod, cap, pressure);
      if v != M.Admitted {
        return;
      }
      if A.WithinCapacity(st, cap) {
        A.AdmittedFits(st, pod, cap, pressure);
        A.StepKeepsCapacityIff(st, R.OpEnroll(uid, pod), cap);
      }
      Enroll(uid, pod);
    }
  }
}
