/**
 The pod registry of node/podstore.go as a value: the pods, the name index and
 the global counters, and what each composite operation does to them.
 */
module PodStoreModel {
  import opened Common

  /** A container's resource requests; either may be absent. */
  datatype Requests = Requests(cpuMillis: Option<nat>, memBytes: Option<nat>)

  datatype Pod = Pod(namespace: string, name: string, containers: seq<Requests>)

  datatype Phase = Pending | Running | Succeeded | Failed

  datatype PodRecord = PodRecord(pod: Pod, ip: string, phase: Phase, hydrated: bool, inFlight: bool, deleting: bool)

  datatype Store = Store(
    pods: map<string, PodRecord>,
    nameIndex: map<string, string>,
    usedCPU: int, usedMem: int, deletingCount: int)

  const EMPTY := Store(map[], map[], 0, 0, 0)

  function FullName(pod: Pod): string {
    pod.namespace + "/" + pod.name
  }

  function Value(r: Option<nat>): nat {
    if r.Some? then r.value else 0
  }

  function CpuOf(cs: seq<Requests>): nat {
    if cs == [] then 0 else CpuOf(cs[..|cs| - 1]) + Value(cs[|cs| - 1].cpuMillis)
  }

  function MemOf(cs: seq<Requests>): nat {
    if cs == [] then 0 else MemOf(cs[..|cs| - 1]) + Value(cs[|cs| - 1].memBytes)
  }

  /** Sums of parts add up, and one container counts what it requests, or nothing. */
  lemma {:induction false} CpuOfParts(a: seq<Requests>, b: seq<Requests>, c: Requests)
    ensures CpuOf(a + b) == CpuOf(a) + CpuOf(b) && CpuOf([]) == 0
    ensures CpuOf([c]) == if c.cpuMillis.Some? then c.cpuMillis.value else 0
    decreases |b|
  {
    assert [c][..0] == [];
    if b == [] {
      assert a + b == a;
    } else {
      var n := |b| - 1;
      CpuOfParts(a, b[..n], c);
      assert (a + b)[..|a + b| - 1] == a + b[..n];
    }
  }

  lemma {:induction false} MemOfParts(a: seq<Requests>, b: seq<Requests>, c: Requests)
    ensures MemOf(a + b) == MemOf(a) + MemOf(b) && MemOf([]) == 0
    ensures MemOf([c]) == if c.memBytes.Some? then c.memBytes.value else 0
    decreases |b|
  {
    assert [c][..0] == [];
    if b == [] {
      assert a + b == a;
    } else {
      var n := |b| - 1;
      MemOfParts(a, b[..n], c);
      assert (a + b)[..|a + b| - 1] == a + b[..n];
    }
  }

  function Cpu(pod: Pod): nat { CpuOf(pod.containers) }
  function Mem(pod: Pod): nat { MemOf(pod.containers) }

  // ---- operations ----

  function Put(st: Store, uid: string, r: PodRecord): Store {
    st.(pods := st.pods[uid := r], nameIndex := st.nameIndex[FullName(r.pod) := uid],
        usedCPU := st.usedCPU + Cpu(r.pod), usedMem := st.usedMem + Mem(r.pod))
  }

  function RegisterPending(st: Store, uid: string, pod: Pod): Store {
    Put(st, uid, PodRecord(pod, "", Pending, false, true, false))
  }

  function RegisterHydrated(st: Store, uid: string, pod: Pod, ip: string): Store {
    Put(st, uid, PodRecord(pod, ip, Running, true, false, false))
  }

  /** Replace the pod object of a registered pod; the counters are not touched. */
  function Replace(st: Store, uid: string, r: PodRecord): Store
    requires uid in st.pods
  {
    st.(pods := st.pods[uid := r])
  }

  /** CreatePod for a pod that is already registered: a stub without containers takes
      the real pod and only then accounts for its requests. */
  function AlreadyRunning(st: Store, uid: string, pod: Pod): Store {
    if uid !in st.pods then st
    else
      var r := st.pods[uid];
      if r.pod.containers == []
      then Replace(st, uid, r.(pod := pod, hydrated := false))
           .(usedCPU := st.usedCPU + Cpu(pod), usedMem := st.usedMem + Mem(pod))
      else Replace(st, uid, r.(hydrated := false))
  }

  function PromoteRunning(st: Store, uid: string, pod: Pod, ip: string): Store {
    if uid !in st.pods then st
    else Replace(st, uid, st.pods[uid].(pod := pod, ip := ip, phase := Running, inFlight := false))
  }

  function MarkFailed(st: Store, uid: string, pod: Pod): Store {
    if uid !in st.pods then st else Replace(st, uid, st.pods[uid].(pod := pod, phase := Failed))
  }

  function MarkDeleting(st: Store, uid: string): Store {
    if uid !in st.pods || st.pods[uid].deleting then st
    else Replace(st, uid, st.pods[uid].(deleting := true)).(deletingCount := st.deletingCount + 1)
  }

  /** Drop a pod, the given name and the pod's requests. */
  function Drop(st: Store, uid: string, name: string): Store
    requires uid in st.pods
  {
    st.(pods := st.pods - {uid}, nameIndex := st.nameIndex - {name},
        usedCPU := st.usedCPU - Cpu(st.pods[uid].pod), usedMem := st.usedMem - Mem(st.pods[uid].pod))
  }

  function Unregister(st: Store, uid: string, namespace: string, name: string): Store {
    if uid !in st.pods then st
    else
      var st' := Drop(st, uid, namespace + "/" + name);
      if st.pods[uid].deleting then st'.(deletingCount := st.deletingCount - 1) else st'
  }

  function EvictGhost(st: Store, uid: string): Store {
    if uid !in st.pods then st else Drop(st, uid, FullName(st.pods[uid].pod))
  }

  function PurgeHydrated(st: Store, uids: seq<string>): Store
    decreases |uids|
  {
    if uids == [] then st else EvictGhost(PurgeHydrated(st, uids[..|uids| - 1]), uids[|uids| - 1])
  }

  datatype Entry = Entry(uid: string, pod: Pod, ip: string)

  function RegisterHydratedBatch(st: Store, entries: seq<Entry>): Store
    decreases |entries|
  {
    if entries == [] then st
    else
      var e := entries[|entries| - 1];
      RegisterHydrated(RegisterHydratedBatch(st, entries[..|entries| - 1]), e.uid, e.pod, e.ip)
  }

  // ---- admission ----

  datatype Verdict = Admitted | UnderPressure | NoCpu | NoMemory

  datatype Capacity = Capacity(cpu: int, mem: int)

  function AdmitPod(st: Store, pod: Pod, cap: Capacity, pressure: bool): Verdict {
    if pressure then UnderPressure
    else if Cpu(pod) == 0 && Mem(pod) == 0 then Admitted
    else if cap.cpu > 0 && st.usedCPU + Cpu(pod) > cap.cpu then NoCpu
    else if cap.mem > 0 && st.usedMem + Mem(pod) > cap.mem then NoMemory
    else Admitted
  }

  /** What CreatePod does to the store once the pod is admitted, up to the creation goroutine. */
  function Enroll(st: Store, uid: string, pod: Pod): Store {
    if uid in st.pods && st.pods[uid].inFlight then st
    else if uid in st.pods then AlreadyRunning(st, uid, pod)
    else RegisterPending(st, uid, pod)
  }

  /** CreatePod with nothing in between its two steps. */
  function Create(st: Store, uid: string, pod: Pod, cap: Capacity, pressure: bool): Store {
    if pod.containers == [] || AdmitPod(st, pod, cap, pressure) != Admitted then st else Enroll(st, uid, pod)
  }

  /** What is left of a capacity, never below zero. */
  function Allocatable(capacity: int, used: int): int {
    if used > 0 then (if capacity > used then capacity - used else 0) else capacity
  }

  /** Of a capacity, what is allocatable and what is used make up the whole, unless more is used
      than there is, and then nothing is allocatable. */
  lemma AllocatableIsRest(capacity: int, used: int)
    requires used >= 0
    ensures used < capacity ==> Allocatable(capacity, used) + used == capacity
    ensures 0 < used && capacity <= used ==> Allocatable(capacity, used) == 0
    ensures used == 0 ==> Allocatable(capacity, used) == capacity
  {
  }

  // ---- sums over the live pods ----

  ghost function Total(pods: map<string, PodRecord>, f: PodRecord -> nat): nat {
    if pods == map[] then 0
    else
      var u :| u in pods;
      f(pods[u]) + Total(pods - {u}, f)
  }

  lemma {:induction false} TotalRemove(pods: map<string, PodRecord>, f: PodRecord -> nat, u: string)
    requires u in pods
    ensures Total(pods, f) == f(pods[u]) + Total(pods - {u}, f)
    decreases |pods|
  {
    var v :| v in pods && Total(pods, f) == f(pods[v]) + Total(pods - {v}, f);
    if v != u {
      TotalRemove(pods - {v}, f, u);
      TotalRemove(pods - {u}, f, v);
      assert pods - {v} - {u} == pods - {u} - {v};
    }
  }

  lemma TotalUpdate(pods: map<string, PodRecord>, f: PodRecord -> nat, u: string, r: PodRecord)
    ensures Total(pods[u := r], f) == Total(pods - {u}, f) + f(r)
  {
    TotalRemove(pods[u := r], f, u);
    assert pods[u := r] - {u} == pods - {u};
  }
}
