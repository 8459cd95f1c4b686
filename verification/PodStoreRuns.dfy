/** What the pod registry keeps over every sequence of operations, and exactly when a single operation keeps it. */
module PodStoreRuns {
  import opened Common
  import opened PodStoreModel

  function RecordCpu(r: PodRecord): nat { Cpu(r.pod) }
  function RecordMem(r: PodRecord): nat { Mem(r.pod) }
  function RecordDeleting(r: PodRecord): nat { if r.deleting then 1 else 0 }

  /** The counters are the sums of the live pods' requests. */
  ghost predicate Conserved(st: Store) {
    st.usedCPU == Total(st.pods, RecordCpu) && st.usedMem == Total(st.pods, RecordMem)
  }

  /** Every indexed name is the name of the live pod it points to. */
  ghost predicate IndexSound(st: Store) {
    forall n :: n in st.nameIndex ==> st.nameIndex[n] in st.pods && FullName(st.pods[st.nameIndex[n]].pod) == n
  }

  /** Every live pod is found under its name. */
  ghost predicate IndexComplete(st: Store) {
    forall u :: u in st.pods ==>
      var n := FullName(st.pods[u].pod); n in st.nameIndex && st.nameIndex[n] == u
  }

  ghost predicate DeletingCounted(st: Store) {
    st.deletingCount >= Total(st.pods, RecordDeleting)
  }

  // ---- when one operation conserves ----

  predicate SameRequests(a: Pod, b: Pod) {
    Cpu(a) == Cpu(b) && Mem(a) == Mem(b)
  }

  predicate RequestFree(pod: Pod) {
    Cpu(pod) == 0 && Mem(pod) == 0
  }

  lemma TotalsAt(st: Store, u: string)
    requires u in st.pods
    ensures Total(st.pods, RecordCpu) == Cpu(st.pods[u].pod) + Total(st.pods - {u}, RecordCpu)
    ensures Total(st.pods, RecordMem) == Mem(st.pods[u].pod) + Total(st.pods - {u}, RecordMem)
    ensures Total(st.pods, RecordDeleting) == RecordDeleting(st.pods[u]) + Total(st.pods - {u}, RecordDeleting)
  {
    TotalRemove(st.pods, RecordCpu, u);
    TotalRemove(st.pods, RecordMem, u);
    TotalRemove(st.pods, RecordDeleting, u);
  }

  lemma TotalsAfter(st: Store, u: string, r: PodRecord)
    ensures Total(st.pods[u := r], RecordCpu) == Cpu(r.pod) + Total(st.pods - {u}, RecordCpu)
    ensures Total(st.pods[u := r], RecordMem) == Mem(r.pod) + Total(st.pods - {u}, RecordMem)
    ensures Total(st.pods[u := r], RecordDeleting) == RecordDeleting(r) + Total(st.pods - {u}, RecordDeleting)
  {
    TotalUpdate(st.pods, RecordCpu, u, r);
    TotalUpdate(st.pods, RecordMem, u, r);
    TotalUpdate(st.pods, RecordDeleting, u, r);
  }

  lemma TotalsWithout(st: Store, u: string)
    ensures u !in st.pods ==> st.pods - {u} == st.pods
  {
  }

  /** Registering conserves exactly when no requests are overwritten: a fresh uid, or a
      pod whose requests were empty. */
  lemma RegisterConservesIff(st: Store, uid: string, r: PodRecord)
    requires Conserved(st)
    ensures Conserved(Put(st, uid, r)) <==> uid !in st.pods || RequestFree(st.pods[uid].pod)
  {
    TotalsAfter(st, uid, r);
    TotalsWithout(st, uid);
    if uid in st.pods { TotalsAt(st, uid); }
  }

  /** Swapping a pod object (promotion, failure) conserves exactly when the requests agree. */
  lemma ReplaceConservesIff(st: Store, uid: string, r: PodRecord)
    requires Conserved(st) && uid in st.pods
    ensures Conserved(Replace(st, uid, r)) <==> SameRequests(st.pods[uid].pod, r.pod)
  {
    TotalsAfter(st, uid, r);
    TotalsAt(st, uid);
  }

  /** Adopting a hydration stub always conserves: a stub has no containers, so nothing was counted for it. */
  lemma AdoptConserves(st: Store, uid: string, pod: Pod)
    requires Conserved(st)
    ensures Conserved(AlreadyRunning(st, uid, pod))
  {
    if uid in st.pods {
      var r := st.pods[uid];
      TotalsAt(st, uid);
      TotalsAfter(st, uid, r.(pod := pod, hydrated := false));
      TotalsAfter(st, uid, r.(hydrated := false));
    }
  }

  lemma DropConserves(st: Store, uid: string, name: string)
    requires Conserved(st) && uid in st.pods
    ensures Conserved(Drop(st, uid, name))
  {
    TotalsAt(st, uid);
  }

  // ---- when one operation keeps the index sound ----

  /** Does the index lead from the pod's present name to it? */
  predicate IndexedAs(st: Store, uid: string) {
    uid in st.pods && FullName(st.pods[uid].pod) in st.nameIndex && st.nameIndex[FullName(st.pods[uid].pod)] == uid
  }

  lemma RegisterIndexIff(st: Store, uid: string, r: PodRecord)
    requires IndexSound(st)
    ensures IndexSound(Put(st, uid, r)) <==>
            !IndexedAs(st, uid) || FullName(st.pods[uid].pod) == FullName(r.pod)
  {
    var st' := Put(st, uid, r);
    if IndexedAs(st, uid) && FullName(st.pods[uid].pod) != FullName(r.pod) {
      var n := FullName(st.pods[uid].pod);
      assert n in st'.nameIndex && st'.nameIndex[n] == uid;
    }
  }

  lemma ReplaceIndexIff(st: Store, uid: string, r: PodRecord)
    requires IndexSound(st) && uid in st.pods
    ensures IndexSound(Replace(st, uid, r)) <==>
            !IndexedAs(st, uid) || FullName(st.pods[uid].pod) == FullName(r.pod)
  {
    if IndexedAs(st, uid) && FullName(st.pods[uid].pod) != FullName(r.pod) {
      var n := FullName(st.pods[uid].pod);
      assert n in Replace(st, uid, r).nameIndex;
    }
  }

  lemma DropIndexIff(st: Store, uid: string, name: string)
    requires IndexSound(st) && uid in st.pods
    ensures IndexSound(Drop(st, uid, name)) <==>
            !IndexedAs(st, uid) || FullName(st.pods[uid].pod) == name
  {
    if IndexedAs(st, uid) && FullName(st.pods[uid].pod) != name {
      var n := FullName(st.pods[uid].pod);
      assert n in Drop(st, uid, name).nameIndex;
    }
  }

  // ---- when one operation keeps the registry right ----

  ghost predicate StoreInv(st: Store) {
    Conserved(st) && IndexSound(st) && DeletingCounted(st)
  }

  /** A record may take this name: it does not rename a pod that the index leads to. */
  predicate NameFits(st: Store, uid: string, name: string) {
    IndexedAs(st, uid) ==> FullName(st.pods[uid].pod) == name
  }

  lemma PutKeepsInvIff(st: Store, uid: string, r: PodRecord)
    requires StoreInv(st) && !r.deleting
    ensures StoreInv(Put(st, uid, r)) <==>
            (uid !in st.pods || RequestFree(st.pods[uid].pod)) && NameFits(st, uid, FullName(r.pod))
  {
    RegisterConservesIff(st, uid, r);
    RegisterIndexIff(st, uid, r);
    TotalsAfter(st, uid, r);
    TotalsWithout(st, uid);
    if uid in st.pods { TotalsAt(st, uid); }
  }

  lemma ReplaceKeepsInvIff(st: Store, uid: string, r: PodRecord)
    requires StoreInv(st) && uid in st.pods && r.deleting == st.pods[uid].deleting
    ensures StoreInv(Replace(st, uid, r)) <==>
            SameRequests(st.pods[uid].pod, r.pod) && NameFits(st, uid, FullName(r.pod))
  {
    ReplaceConservesIff(st, uid, r);
    ReplaceIndexIff(st, uid, r);
    TotalsAt(st, uid);
    TotalsAfter(st, uid, r);
  }

  lemma AdoptKeepsInvIff(st: Store, uid: string, pod: Pod)
    requires StoreInv(st)
    ensures StoreInv(AlreadyRunning(st, uid, pod)) <==>
            (uid in st.pods && st.pods[uid].pod.containers == [] ==> NameFits(st, uid, FullName(pod)))
  {
    AdoptConserves(st, uid, pod);
    if uid in st.pods {
      var r := AlreadyRunning(st, uid, pod).pods[uid];
      TotalsAt(st, uid);
      TotalsAfter(st, uid, r);
      ReplaceIndexIff(st, uid, r);
    }
  }

  lemma UnregisterKeepsInvIff(st: Store, uid: string, namespace: string, name: string)
    requires StoreInv(st)
    ensures StoreInv(Unregister(st, uid, namespace, name)) <==> NameFits(st, uid, namespace + "/" + name)
  {
    if uid in st.pods {
      DropConserves(st, uid, namespace + "/" + name);
      DropIndexIff(st, uid, namespace + "/" + name);
      TotalsAt(st, uid);
    }
  }

  // ---- runs ----

  datatype Op =
    | OpEnroll(uid: string, pod: Pod)
    | OpHydrate(uid: string, pod: Pod, ip: string)
    | OpPromote(uid: string, pod: Pod, ip: string)
    | OpFail(uid: string, pod: Pod)
    | OpMarkDeleting(uid: string)
    | OpUnregister(uid: string, namespace: string, name: string)
    | OpEvict(uid: string)

  function Apply(st: Store, op: Op): Store {
    match op
    case OpEnroll(uid, pod) => Enroll(st, uid, pod)
    case OpHydrate(uid, pod, ip) => RegisterHydrated(st, uid, pod, ip)
    case OpPromote(uid, pod, ip) => PromoteRunning(st, uid, pod, ip)
    case OpFail(uid, pod) => MarkFailed(st, uid, pod)
    case OpMarkDeleting(uid) => MarkDeleting(st, uid)
    case OpUnregister(uid, namespace, name) => Unregister(st, uid, namespace, name)
    case OpEvict(uid) => EvictGhost(st, uid)
  }

  /** What callers keep to: a pod object handed in for a registered pod has its name and,
      unless it replaces a request-free one, its requests. */
  ghost predicate Legal(st: Store, op: Op) {
    match op
    case OpEnroll(uid, pod) => uid in st.pods ==> FullName(st.pods[uid].pod) == FullName(pod)
    case OpHydrate(uid, pod, _) =>
      uid in st.pods ==> FullName(st.pods[uid].pod) == FullName(pod) && RequestFree(st.pods[uid].pod)
    case OpPromote(uid, pod, _) =>
      uid in st.pods ==> FullName(st.pods[uid].pod) == FullName(pod) && SameRequests(st.pods[uid].pod, pod)
    case OpFail(uid, pod) =>
      uid in st.pods ==> FullName(st.pods[uid].pod) == FullName(pod) && SameRequests(st.pods[uid].pod, pod)
    case OpMarkDeleting(_) => true
    case OpUnregister(uid, namespace, name) => uid in st.pods ==> FullName(st.pods[uid].pod) == namespace + "/" + name
    case OpEvict(_) => true
  }

  lemma EnrollKeepsInv(st: Store, uid: string, pod: Pod)
    requires StoreInv(st) && Legal(st, OpEnroll(uid, pod))
    ensures StoreInv(Enroll(st, uid, pod))
  {
    AdoptKeepsInvIff(st, uid, pod);
    PutKeepsInvIff(st, uid, PodRecord(pod, "", Pending, false, true, false));
  }

  lemma HydrateKeepsInv(st: Store, uid: string, pod: Pod, ip: string)
    requires StoreInv(st) && Legal(st, OpHydrate(uid, pod, ip))
    ensures StoreInv(RegisterHydrated(st, uid, pod, ip))
  {
    PutKeepsInvIff(st, uid, PodRecord(pod, ip, Running, true, false, false));
  }

  lemma EvictKeepsInv(st: Store, uid: string)
    requires StoreInv(st)
    ensures StoreInv(EvictGhost(st, uid))
  {
    if uid in st.pods {
      DropConserves(st, uid, FullName(st.pods[uid].pod));
      DropIndexIff(st, uid, FullName(st.pods[uid].pod));
      TotalsAt(st, uid);
    }
  }

  lemma MarkDeletingKeepsInv(st: Store, uid: string)
    requires StoreInv(st)
    ensures StoreInv(MarkDeleting(st, uid))
  {
    if uid in st.pods && !st.pods[uid].deleting {
      var r := st.pods[uid].(deleting := true);
      ReplaceConservesIff(st, uid, r);
      ReplaceIndexIff(st, uid, r);
      TotalsAt(st, uid);
      TotalsAfter(st, uid, r);
    }
  }

  lemma StepKeepsInv(st: Store, op: Op)
    requires StoreInv(st) && Legal(st, op)
    ensures StoreInv(Apply(st, op))
  {
    match op
    case OpEnroll(uid, pod) => EnrollKeepsInv(st, uid, pod);
    case OpHydrate(uid, pod, ip) => HydrateKeepsInv(st, uid, pod, ip);
    case OpPromote(uid, pod, ip) =>
      if uid in st.pods {
        ReplaceKeepsInvIff(st, uid, st.pods[uid].(pod := pod, ip := ip, phase := Running, inFlight := false));
      }
    case OpFail(uid, pod) =>
      if uid in st.pods { ReplaceKeepsInvIff(st, uid, st.pods[uid].(pod := pod, phase := Failed)); }
    case OpMarkDeleting(uid) => MarkDeletingKeepsInv(st, uid);
    case OpUnregister(uid, namespace, name) => UnregisterKeepsInvIff(st, uid, namespace, name);
    case OpEvict(uid) => EvictKeepsInv(st, uid);
  }

  ghost predicate LegalRun(st: Store, ops: seq<Op>)
    decreases |ops|
  {
    ops == [] || (Legal(st, ops[0]) && LegalRun(Apply(st, ops[0]), ops[1..]))
  }

  function Run(st: Store, ops: seq<Op>): Store
    decreases |ops|
  {
    if ops == [] then st else Run(Apply(st, ops[0]), ops[1..])
  }

  /** Over every run, used CPU and memory are the sums over the live pods, the index
      leads only to live pods of the right name, and no deleting pod goes uncounted. */
  lemma {:induction false} RunKeepsInv(st: Store, ops: seq<Op>)
    requires StoreInv(st) && LegalRun(st, ops)
    ensures StoreInv(Run(st, ops))
    decreases |ops|
  {
    if ops != [] {
      StepKeepsInv(st, ops[0]);
      RunKeepsInv(Apply(st, ops[0]), ops[1..]);
    }
  }

  /** Purging is a run of evictions. */
  lemma {:induction false} PurgeKeepsInv(st: Store, uids: seq<string>)
    requires StoreInv(st)
    ensures StoreInv(PurgeHydrated(st, uids))
    ensures PurgeHydrated(st, uids).pods == st.pods - set u | u in uids
    decreases |uids|
  {
    if uids != [] {
      var n := |uids| - 1;
      PurgeKeepsInv(st, uids[..n]);
      StepKeepsInv(PurgeHydrated(st, uids[..n]), OpEvict(uids[n]));
      assert (set u | u in uids) == (set u | u in uids[..n]) + {uids[n]};
    }
  }

  ghost function Uids(entries: seq<Entry>): set<string> {
    set i | 0 <= i < |entries| :: entries[i].uid
  }

  lemma UidsGrow(entries: seq<Entry>, n: nat)
    requires n < |entries|
    ensures Uids(entries[..n + 1]) == Uids(entries[..n]) + {entries[n].uid}
  {
    assert forall i :: 0 <= i < n ==> entries[..n + 1][i] == entries[..n][i];
    assert entries[..n + 1][n] == entries[n];
  }

  /** Each entry of the batch may be registered after the ones before it. */
  ghost predicate LegalBatch(st: Store, entries: seq<Entry>)
    decreases |entries|
  {
    entries == [] ||
    (var n := |entries| - 1;
     && LegalBatch(st, entries[..n])
     && Legal(RegisterHydratedBatch(st, entries[..n]), OpHydrate(entries[n].uid, entries[n].pod, entries[n].ip)))
  }

  lemma {:induction false} BatchAdds(st: Store, entries: seq<Entry>)
    ensures RegisterHydratedBatch(st, entries).pods.Keys == st.pods.Keys + Uids(entries)
    decreases |entries|
  {
    if entries != [] {
      var n := |entries| - 1;
      assert entries[..n + 1] == entries;
      UidsGrow(entries, n);
      BatchAdds(st, entries[..n]);
    }
  }

  /** The last entry of the batch for a uid, or -1. */
  function LastEntry(entries: seq<Entry>, uid: string): (i: int)
    ensures -1 <= i < |entries| && (i >= 0 ==> entries[i].uid == uid)
    ensures forall j :: i < j < |entries| ==> entries[j].uid != uid
  {
    if entries == [] then -1
    else if entries[|entries| - 1].uid == uid then |entries| - 1
    else LastEntry(entries[..|entries| - 1], uid)
  }

  /** After a batch a pod is what its last entry says, running, hydrated and neither in flight
      nor deleting; pods without an entry are as before. */
  lemma {:induction false} BatchRecords(st: Store, entries: seq<Entry>, uid: string)
    ensures var st', i := RegisterHydratedBatch(st, entries), LastEntry(entries, uid);
            && (i == -1 ==> (uid in st'.pods <==> uid in st.pods) && (uid in st.pods ==> st'.pods[uid] == st.pods[uid]))
            && (i >= 0 ==> uid in st'.pods
                           && st'.pods[uid] == PodRecord(entries[i].pod, entries[i].ip, Running, true, false, false))
    decreases |entries|
  {
    if entries != [] { BatchRecords(st, entries[..|entries| - 1], uid); }
  }

  /** The counters grow by the requests of all entries, and the deleting count stays. */
  lemma {:induction false} BatchCounters(st: Store, entries: seq<Entry>)
    ensures var st' := RegisterHydratedBatch(st, entries);
            && st'.usedCPU == st.usedCPU + EntryCpu(entries) && st'.usedMem == st.usedMem + EntryMem(entries)
            && st'.deletingCount == st.deletingCount
    decreases |entries|
  {
    if entries != [] { BatchCounters(st, entries[..|entries| - 1]); }
  }

  function EntryCpu(entries: seq<Entry>): nat {
    if entries == [] then 0 else EntryCpu(entries[..|entries| - 1]) + CpuOf(entries[|entries| - 1].pod.containers)
  }

  function EntryMem(entries: seq<Entry>): nat {
    if entries == [] then 0 else EntryMem(entries[..|entries| - 1]) + MemOf(entries[|entries| - 1].pod.containers)
  }

  /** Restoring pods from disk is a run of registrations. */
  lemma {:induction false} BatchKeepsInv(st: Store, entries: seq<Entry>)
    requires StoreInv(st) && LegalBatch(st, entries)
    ensures StoreInv(RegisterHydratedBatch(st, entries))
    decreases |entries|
  {
    if entries != [] {
      var n := |entries| - 1;
      var e := entries[n];
      BatchKeepsInv(st, entries[..n]);
      HydrateKeepsInv(RegisterHydratedBatch(st, entries[..n]), e.uid, e.pod, e.ip);
    }
  }

  ghost predicate FreshEntries(st: Store, entries: seq<Entry>) {
    && (forall i :: 0 <= i < |entries| ==> entries[i].uid !in st.pods)
    && (forall i, j :: 0 <= i < j < |entries| ==> entries[i].uid != entries[j].uid)
  }

  lemma LastIsFresh(st: Store, entries: seq<Entry>)
    requires entries != [] && FreshEntries(st, entries)
    ensures entries[|entries| - 1].uid !in RegisterHydratedBatch(st, entries[..|entries| - 1]).pods
  {
    BatchAdds(st, entries[..|entries| - 1]);
  }

  /** A batch of fresh, distinct uids is always legal. */
  lemma {:induction false} FreshBatchIsLegal(st: Store, entries: seq<Entry>)
    requires FreshEntries(st, entries)
    ensures LegalBatch(st, entries)
    decreases |entries|
  {
    if entries != [] {
      LastIsFresh(st, entries);
      FreshBatchIsLegal(st, entries[..|entries| - 1]);
    }
  }

  /** The deleting counter is exact until a deleting pod is evicted, and never after. */
  lemma EvictKeepsCountIff(st: Store, uid: string)
    requires st.deletingCount == Total(st.pods, RecordDeleting)
    ensures EvictGhost(st, uid).deletingCount == Total(EvictGhost(st, uid).pods, RecordDeleting) <==>
            uid !in st.pods || !st.pods[uid].deleting
  {
    if uid in st.pods { TotalsAt(st, uid); }
  }

  // ---- the deleting count, exactly ----

  /** Does the operation lose a deleting pod without counting it off?  Evicting one does, and
      so does registering a restored pod over one. */
  predicate Loses(st: Store, op: Op) {
    (op.OpEvict? || op.OpHydrate?) && op.uid in st.pods && st.pods[op.uid].deleting
  }

  lemma StepCounts(st: Store, op: Op)
    ensures Apply(st, op).deletingCount - Total(Apply(st, op).pods, RecordDeleting) ==
            st.deletingCount - Total(st.pods, RecordDeleting) + if Loses(st, op) then 1 else 0
  {
    var st' := Apply(st, op);
    if op.uid in st.pods {
      TotalsAt(st, op.uid);
      if op.uid in st'.pods { TotalsAfter(st, op.uid, st'.pods[op.uid]); }
    } else if op.OpEnroll? || op.OpHydrate? {
      TotalsWithout(st, op.uid);
      TotalsAfter(st, op.uid, st'.pods[op.uid]);
    }
  }

  /** How many deleting pods a run loses. */
  function Losses(st: Store, ops: seq<Op>): nat
    decreases |ops|
  {
    if ops == [] then 0 else (if Loses(st, ops[0]) then 1 else 0) + Losses(Apply(st, ops[0]), ops[1..])
  }

  /** Over every sequence of operations, whatever callers keep to: the deleting count is the
      number of deleting pods and of those lost.  So it is exact exactly while none is lost. */
  lemma {:induction false} RunCountsLosses(st: Store, ops: seq<Op>)
    requires st.deletingCount == Total(st.pods, RecordDeleting)
    ensures Run(st, ops).deletingCount == Total(Run(st, ops).pods, RecordDeleting) + Losses(st, ops)
  {
    RunCountsOff(st, ops, 0);
  }

  lemma {:induction false} RunCountsOff(st: Store, ops: seq<Op>, off: int)
    requires st.deletingCount == Total(st.pods, RecordDeleting) + off
    ensures Run(st, ops).deletingCount == Total(Run(st, ops).pods, RecordDeleting) + off + Losses(st, ops)
    decreases |ops|
  {
    if ops != [] {
      StepCounts(st, ops[0]);
      RunCountsOff(Apply(st, ops[0]), ops[1..], off + if Loses(st, ops[0]) then 1 else 0);
    }
  }

  // ---- the life of a record ----

  /** A pod waits for its creation exactly while it is pending, and a running one does not; only
      a failed creation may still hold its handle. */
  ghost predicate RecordOk(r: PodRecord) {
    && (r.phase == Pending ==> r.inFlight)
    && (r.phase == Running ==> !r.inFlight)
    && (r.hydrated ==> !r.inFlight)
  }

  ghost predicate RecordsOk(st: Store) {
    forall u :: u in st.pods ==> RecordOk(st.pods[u])
  }

  /** Over every sequence of operations from an empty registry. */
  lemma {:induction false} RunKeepsRecords(st: Store, ops: seq<Op>)
    requires RecordsOk(st)
    ensures RecordsOk(Run(st, ops))
    decreases |ops|
  {
    if ops != [] {
      StepKeepsRecords(st, ops[0]);
      RunKeepsRecords(Apply(st, ops[0]), ops[1..]);
    }
  }

  lemma StepKeepsRecords(st: Store, op: Op)
    requires RecordsOk(st)
    ensures RecordsOk(Apply(st, op))
  {
    var st' := Apply(st, op);
    forall u | u in st'.pods ensures RecordOk(st'.pods[u]) {
      if u in st.pods { assert RecordOk(st.pods[u]); }
    }
  }

  // ---- finding pods by name ----

  /** A newly registered pod has a name that no other live pod has. */
  ghost predicate FreshName(st: Store, op: Op) {
    op.OpEnroll? || op.OpHydrate? ==>
      forall u :: u in st.pods && u != op.uid ==> FullName(st.pods[u].pod) != FullName(op.pod)
  }

  ghost predicate Found(st: Store, u: string)
    requires u in st.pods
  {
    var n := FullName(st.pods[u].pod); n in st.nameIndex && st.nameIndex[n] == u
  }

  lemma PutKeepsComplete(st: Store, uid: string, r: PodRecord)
    requires IndexComplete(st)
    requires forall u :: u in st.pods && u != uid ==> FullName(st.pods[u].pod) != FullName(r.pod)
    ensures IndexComplete(Put(st, uid, r))
  {
    forall u | u in Put(st, uid, r).pods ensures Found(Put(st, uid, r), u) {
      if u != uid { assert Found(st, u); }
    }
  }

  /** Also when counters change along with the record. */
  lemma ReplaceKeepsComplete(st: Store, uid: string, r: PodRecord, st': Store)
    requires IndexComplete(st) && uid in st.pods && FullName(r.pod) == FullName(st.pods[uid].pod)
    requires st'.pods == st.pods[uid := r] && st'.nameIndex == st.nameIndex
    ensures IndexComplete(st')
  {
    forall u | u in st'.pods ensures Found(st', u) {
      assert Found(st, u);
    }
  }

  lemma DropKeepsComplete(st: Store, uid: string, st': Store)
    requires IndexComplete(st) && uid in st.pods
    requires st'.pods == st.pods - {uid} && st'.nameIndex == st.nameIndex - {FullName(st.pods[uid].pod)}
    ensures IndexComplete(st')
  {
    assert Found(st, uid);
    forall u | u in st'.pods ensures Found(st', u) {
      assert Found(st, u);
    }
  }

  lemma EnrollKeepsComplete(st: Store, uid: string, pod: Pod)
    requires IndexComplete(st) && Legal(st, OpEnroll(uid, pod)) && FreshName(st, OpEnroll(uid, pod))
    ensures IndexComplete(Enroll(st, uid, pod))
  {
    if uid !in st.pods {
      PutKeepsComplete(st, uid, PodRecord(pod, "", Pending, false, true, false));
    } else if !st.pods[uid].inFlight {
      ReplaceKeepsComplete(st, uid, Enroll(st, uid, pod).pods[uid], Enroll(st, uid, pod));
    }
  }

  lemma StepKeepsComplete(st: Store, op: Op)
    requires IndexComplete(st) && Legal(st, op) && FreshName(st, op)
    ensures IndexComplete(Apply(st, op))
  {
    var st' := Apply(st, op);
    match op
    case OpEnroll(uid, pod) => EnrollKeepsComplete(st, uid, pod);
    case OpHydrate(uid, pod, ip) => PutKeepsComplete(st, uid, PodRecord(pod, ip, Running, true, false, false));
    case OpUnregister(uid, _, _) => if uid in st.pods { DropKeepsComplete(st, uid, st'); }
    case OpEvict(uid) => if uid in st.pods { DropKeepsComplete(st, uid, st'); }
    case _ => if op.uid in st.pods { ReplaceKeepsComplete(st, op.uid, st'.pods[op.uid], st'); }
  }

  ghost predicate FreshNames(st: Store, ops: seq<Op>)
    decreases |ops|
  {
    ops == [] || (FreshName(st, ops[0]) && FreshNames(Apply(st, ops[0]), ops[1..]))
  }

  /** While live names are distinct, every live pod can be found by its name. */
  lemma {:induction false} RunKeepsComplete(st: Store, ops: seq<Op>)
    requires StoreInv(st) && IndexComplete(st) && LegalRun(st, ops) && FreshNames(st, ops)
    ensures StoreInv(Run(st, ops)) && IndexComplete(Run(st, ops))
    decreases |ops|
  {
    if ops != [] {
      StepKeepsInv(st, ops[0]);
      StepKeepsComplete(st, ops[0]);
      RunKeepsComplete(Apply(st, ops[0]), ops[1..]);
    }
  }

  /** From an empty registry, over every sequence of operations that callers keep to. */
  lemma FromStart(ops: seq<Op>)
    requires LegalRun(EMPTY, ops)
    ensures StoreInv(Run(EMPTY, ops))
    ensures FreshNames(EMPTY, ops) ==> IndexComplete(Run(EMPTY, ops))
  {
    RunKeepsInv(EMPTY, ops);
    if FreshNames(EMPTY, ops) { RunKeepsComplete(EMPTY, ops); }
  }
}
