/**
 Admission against capacity.  CreatePod first asks AdmitPod, which reads the counters, and
 registers the pod some steps later (node/lifecycle.go); the calls for different pods, and
 every other operation on the store, come in between.
 */
module Admission {
  import opened Common
  import opened PodStoreModel
  import opened PodStoreRuns

  ghost predicate WithinCapacity(st: Store, cap: Capacity) {
    (cap.cpu > 0 ==> st.usedCPU <= cap.cpu) && (cap.mem > 0 ==> st.usedMem <= cap.mem)
  }

  /** There is room for the pod now. */
  predicate Fits(st: Store, pod: Pod, cap: Capacity) {
    && (cap.cpu > 0 ==> st.usedCPU + Cpu(pod) <= cap.cpu)
    && (cap.mem > 0 ==> st.usedMem + Mem(pod) <= cap.mem)
  }

  /** Does the operation count the requests of its pod? */
  predicate Adds(st: Store, op: Op) {
    match op
    case OpEnroll(uid, _) => uid !in st.pods || (!st.pods[uid].inFlight && st.pods[uid].pod.containers == [])
    case OpHydrate(_, _, _) => true
    case _ => false
  }

  /** One operation keeps within a capacity exactly when there is room for what it counts. */
  lemma StepKeepsCapacityIff(st: Store, op: Op, cap: Capacity)
    requires WithinCapacity(st, cap)
    ensures WithinCapacity(Apply(st, op), cap) <==> (Adds(st, op) ==> Fits(st, op.pod, cap))
  {
  }

  /** A pod that is admitted fits, at the moment it is admitted. */
  lemma AdmittedFits(st: Store, pod: Pod, cap: Capacity, pressure: bool)
    requires WithinCapacity(st, cap) && AdmitPod(st, pod, cap, pressure) == Admitted
    ensures Fits(st, pod, cap)
  {
  }

  // ---- runs ----

  datatype Request = Request(uid: string, pod: Pod)

  /** The store, and the CreatePod calls that have been admitted but have not registered. */
  datatype World = World(st: Store, admitted: set<Request>)

  datatype Event = Admit(uid: string, pod: Pod, pressure: bool) | Do(op: Op)

  predicate Enabled(w: World, e: Event) {
    e.Do? && e.op.OpEnroll? ==> Request(e.op.uid, e.op.pod) in w.admitted
  }

  function After(w: World, e: Event, cap: Capacity): World
    requires Enabled(w, e)
  {
    match e
    case Admit(uid, pod, pressure) =>
      if pod.containers == [] || AdmitPod(w.st, pod, cap, pressure) != Admitted then w
      else w.(admitted := w.admitted + {Request(uid, pod)})
    case Do(op) =>
      World(Apply(w.st, op), if op.OpEnroll? then w.admitted - {Request(op.uid, op.pod)} else w.admitted)
  }

  ghost predicate ValidRun(w: World, es: seq<Event>, cap: Capacity)
    decreases |es|
  {
    es == [] || (Enabled(w, es[0]) && ValidRun(After(w, es[0], cap), es[1..], cap))
  }

  ghost function Final(w: World, es: seq<Event>, cap: Capacity): World
    requires ValidRun(w, es, cap)
    decreases |es|
  {
    if es == [] then w else Final(After(w, es[0], cap), es[1..], cap)
  }

  /** No state of the run exceeds the capacity. */
  ghost predicate AlwaysWithin(w: World, es: seq<Event>, cap: Capacity)
    requires ValidRun(w, es, cap)
    decreases |es|
  {
    WithinCapacity(w.st, cap) && (es == [] || AlwaysWithin(After(w, es[0], cap), es[1..], cap))
  }

  /** Every registration of the run finds room for its pod at its own step. */
  ghost predicate AllFit(w: World, es: seq<Event>, cap: Capacity)
    requires ValidRun(w, es, cap)
    decreases |es|
  {
    es == [] ||
    (&& (es[0].Do? && Adds(w.st, es[0].op) ==> Fits(w.st, es[0].op.pod, cap))
     && AllFit(After(w, es[0], cap), es[1..], cap))
  }

  /** Over every interleaving of admissions, registrations and everything else: the capacity
      is never exceeded exactly when each registration still finds room at its own step. */
  lemma {:induction false} WithinIffAllFit(w: World, es: seq<Event>, cap: Capacity)
    requires ValidRun(w, es, cap) && WithinCapacity(w.st, cap)
    ensures AlwaysWithin(w, es, cap) <==> AllFit(w, es, cap)
    decreases |es|
  {
    if es != [] {
      if es[0].Do? { StepKeepsCapacityIff(w.st, es[0].op, cap); }
      if WithinCapacity(After(w, es[0], cap).st, cap) {
        WithinIffAllFit(After(w, es[0], cap), es[1..], cap);
      }
    }
  }

  /** In some state of the run the request was put to AdmitPod, and passed. */
  ghost predicate WasAdmitted(w: World, es: seq<Event>, r: Request, cap: Capacity)
    requires ValidRun(w, es, cap)
    decreases |es|
  {
    es != [] &&
    (|| (&& es[0].Admit? && es[0].uid == r.uid && es[0].pod == r.pod && r.pod.containers != []
         && AdmitPod(w.st, r.pod, cap, es[0].pressure) == Admitted)
     || WasAdmitted(After(w, es[0], cap), es[1..], r, cap))
  }

  /** Nothing is registered that was not admitted before: in every run a request waits to be
      registered only if AdmitPod passed it in an earlier state. */
  lemma {:induction false} OnlyAdmittedWait(w: World, es: seq<Event>, r: Request, cap: Capacity)
    requires ValidRun(w, es, cap) && r in Final(w, es, cap).admitted && r !in w.admitted
    ensures WasAdmitted(w, es, r, cap)
    decreases |es|
  {
    if r !in After(w, es[0], cap).admitted {
      OnlyAdmittedWait(After(w, es[0], cap), es[1..], r, cap);
    }
  }

  ghost function Admissions(es: seq<Event>, r: Request): nat {
    if es == [] then 0
    else (if es[0].Admit? && Request(es[0].uid, es[0].pod) == r then 1 else 0) + Admissions(es[1..], r)
  }

  ghost function Enrolments(es: seq<Event>, r: Request): nat {
    if es == [] then 0
    else (if es[0] == Do(OpEnroll(r.uid, r.pod)) then 1 else 0) + Enrolments(es[1..], r)
  }

  /** An admission is good for one registration. */
  lemma {:induction false} OneEnrolmentPerAdmission(w: World, es: seq<Event>, r: Request, cap: Capacity)
    requires ValidRun(w, es, cap)
    ensures Enrolments(es, r) <= Admissions(es, r) + if r in w.admitted then 1 else 0
    decreases |es|
  {
    if es != [] { OneEnrolmentPerAdmission(After(w, es[0], cap), es[1..], r, cap); }
  }

  // ---- admission and registration in one step ----

  /** Every registration happens in a state in which the pod would be admitted, and pods
      restored from disk are request-free stubs. */
  ghost predicate Atomic(w: World, es: seq<Event>, cap: Capacity)
    requires ValidRun(w, es, cap)
    decreases |es|
  {
    es == [] ||
    (&& (es[0].Do? && es[0].op.OpEnroll? ==> AdmitPod(w.st, es[0].op.pod, cap, false) == Admitted)
     && (es[0].Do? && es[0].op.OpHydrate? ==> RequestFree(es[0].op.pod))
     && Atomic(After(w, es[0], cap), es[1..], cap))
  }

  lemma {:induction false} AtomicFits(w: World, es: seq<Event>, cap: Capacity)
    requires ValidRun(w, es, cap) && WithinCapacity(w.st, cap) && Atomic(w, es, cap)
    ensures AllFit(w, es, cap)
    decreases |es|
  {
    if es != [] {
      if es[0].Do? {
        var op := es[0].op;
        if op.OpEnroll? { AdmittedFits(w.st, op.pod, cap, false); }
        StepKeepsCapacityIff(w.st, op, cap);
      }
      AtomicFits(After(w, es[0], cap), es[1..], cap);
    }
  }

  lemma {:induction false} WithinAtEnd(w: World, es: seq<Event>, cap: Capacity)
    requires ValidRun(w, es, cap) && AlwaysWithin(w, es, cap)
    ensures WithinCapacity(Final(w, es, cap).st, cap)
    decreases |es|
  {
    if es != [] { WithinAtEnd(After(w, es[0], cap), es[1..], cap); }
  }

  ghost predicate LegalEvents(w: World, es: seq<Event>, cap: Capacity)
    requires ValidRun(w, es, cap)
    decreases |es|
  {
    es == [] ||
    ((es[0].Do? ==> Legal(w.st, es[0].op)) && LegalEvents(After(w, es[0], cap), es[1..], cap))
  }

  lemma {:induction false} EventsKeepInv(w: World, es: seq<Event>, cap: Capacity)
    requires ValidRun(w, es, cap) && StoreInv(w.st) && LegalEvents(w, es, cap)
    ensures StoreInv(Final(w, es, cap).st)
    decreases |es|
  {
    if es != [] {
      if es[0].Do? { StepKeepsInv(w.st, es[0].op); }
      EventsKeepInv(After(w, es[0], cap), es[1..], cap);
    }
  }

  /** So with admission and registration in one step no run exceeds a positive capacity, and
      what is reported as allocatable is exactly what the live pods leave over. */
  lemma NeverOvercommitted(w: World, es: seq<Event>, cap: Capacity)
    requires ValidRun(w, es, cap) && WithinCapacity(w.st, cap) && Atomic(w, es, cap)
    requires StoreInv(w.st) && LegalEvents(w, es, cap)
    ensures AlwaysWithin(w, es, cap)
    ensures var st := Final(w, es, cap).st;
            && (cap.cpu > 0 ==> Allocatable(cap.cpu, st.usedCPU) == cap.cpu - Total(st.pods, RecordCpu))
            && (cap.mem > 0 ==> Allocatable(cap.mem, st.usedMem) == cap.mem - Total(st.pods, RecordMem))
  {
    AtomicFits(w, es, cap);
    WithinIffAllFit(w, es, cap);
    WithinAtEnd(w, es, cap);
    EventsKeepInv(w, es, cap);
  }

  // ---- two pods at once ----

  /** Two pods that are registered one after the other, however they were admitted. */
  lemma TwoPodsFitIff(st: Store, a: string, p: Pod, b: string, q: Pod, cap: Capacity)
    requires a != b && a !in st.pods && b !in st.pods
    ensures WithinCapacity(Enroll(Enroll(st, a, p), b, q), cap) <==>
            && (cap.cpu > 0 ==> st.usedCPU + Cpu(p) + Cpu(q) <= cap.cpu)
            && (cap.mem > 0 ==> st.usedMem + Mem(p) + Mem(q) <= cap.mem)
  {
  }

  lemma OneStep(w: World, e: Event, es: seq<Event>, cap: Capacity)
    requires Enabled(w, e) && ValidRun(After(w, e, cap), es, cap)
    ensures ValidRun(w, [e] + es, cap) && Final(w, [e] + es, cap) == Final(After(w, e, cap), es, cap)
  {
    assert ([e] + es)[1..] == es;
  }

  /** When each of two pods would be admitted, both can be, before either is registered. */
  lemma BothAdmitted(st: Store, a: string, p: Pod, b: string, q: Pod, cap: Capacity)
    requires a != b && p.containers != [] && q.containers != []
    requires AdmitPod(st, p, cap, false) == Admitted && AdmitPod(st, q, cap, false) == Admitted
    ensures var es := [Admit(a, p, false), Admit(b, q, false), Do(OpEnroll(a, p)), Do(OpEnroll(b, q))];
            ValidRun(World(st, {}), es, cap) && Final(World(st, {}), es, cap).st == Enroll(Enroll(st, a, p), b, q)
  {
    var e0, e1, e2, e3 := Admit(a, p, false), Admit(b, q, false), Do(OpEnroll(a, p)), Do(OpEnroll(b, q));
    var w0 := World(st, {});
    var w1 := After(w0, e0, cap);
    var w2 := After(w1, e1, cap);
    var w3 := After(w2, e2, cap);
    OneStep(w3, e3, [], cap);
    OneStep(w2, e2, [e3], cap);
    OneStep(w1, e1, [e2] + [e3], cap);
    OneStep(w0, e0, [e1] + ([e2] + [e3]), cap);
    assert [e0, e1, e2, e3] == [e0] + ([e1] + ([e2] + [e3])) && [e3] == [e3] + [];
  }

  /** Two pods of different names, admitted before either is registered, exceed the capacity. */
  lemma AdmissionIsNotAReservation(a: string, b: string)
    requires a != b
    ensures var p, q := Pod("ns", "p", [Requests(Some(600), None)]), Pod("ns", "q", [Requests(Some(600), None)]);
            var es := [Admit(a, p, false), Admit(b, q, false), Do(OpEnroll(a, p)), Do(OpEnroll(b, q))];
            var cap := Capacity(1000, 0);
            && FullName(p) != FullName(q)
            && ValidRun(World(EMPTY, {}), es, cap)
            && !WithinCapacity(Final(World(EMPTY, {}), es, cap).st, cap)
  {
    var p, q := Pod("ns", "p", [Requests(Some(600), None)]), Pod("ns", "q", [Requests(Some(600), None)]);
    assert p.containers[..0] == [] && q.containers[..0] == [];
    assert Cpu(p) == 600 && Cpu(q) == 600;
    BothAdmitted(EMPTY, a, p, b, q, Capacity(1000, 0));
    TwoPodsFitIff(EMPTY, a, p, b, q, Capacity(1000, 0));
    assert FullName(p)[3] == 'p' && FullName(q)[3] == 'q';
  }
}
