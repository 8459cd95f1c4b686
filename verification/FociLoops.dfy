/** The loops of internal/foci, proved against the functions the state machine is stated with. */
module FociLoops {
  import opened Common
  import opened FociState
  import opened FociReduce

  method NewSpecLoop(pod: Pod) returns (spec: PodSpec)
    ensures spec == NewPodSpec(pod)
  {
    var containers := [];
    for i := 0 to |pod.containers|
      invariant containers == NewPodSpec(pod).containers[..i]
    {
      var c := pod.containers[i];
      var cs := ContainerSpec(c.name, c.image, false, false, false, NO_PROBE, NO_PROBE, NO_PROBE);
      if c.readiness.Some? {
        cs := cs.(hasReadinessProbe := true, readinessProbe := c.readiness.value);
      }
      if c.liveness.Some? {
        cs := cs.(hasLivenessProbe := true, livenessProbe := c.liveness.value);
      }
      if c.startup.Some? {
        cs := cs.(hasStartupProbe := true, startupProbe := c.startup.value);
      }
      containers := containers + [cs];
    }
    spec := PodSpec(pod.restartPolicy, containers);
  }

  method NewStateLoop(uid: string, namespace: string, name: string, podIP: string, pod: Pod, now: Time)
    returns (s: PodState)
    ensures s == NewPodState(uid, namespace, name, podIP, pod, now)
  {
    var spec := NewSpecLoop(pod);
    ghost var want := NewPodState(uid, namespace, name, podIP, pod, now).containers;
    var containers := [];
    for i := 0 to |spec.containers|
      invariant containers == want[..i]
    {
      containers := containers + [FreshContainer(spec.containers[i], now)];
    }
    s := PodState(uid, namespace, name, podIP, spec, PodPending, containers);
  }

  /** The container loop of reduceSpecFact. */
  method CarryLoop(s: PodState, spec: PodSpec, now: Time) returns (containers: seq<ContainerState>)
    ensures containers == WithSpec(s, spec, now).containers
  {
    containers := [];
    for i := 0 to |spec.containers|
      invariant containers == WithSpec(s, spec, now).containers[..i]
    {
      var cs := spec.containers[i];
      var idx := FindContainer(s.containers, cs.name);
      if idx != -1 {
        containers := containers + [s.containers[idx].(image := cs.image)];
      } else {
        containers := containers + [FreshContainer(cs, now)];
      }
    }
  }

  /** The flag loop of recomputePhase.  Its last branch, which is meant to keep the
      phase of a pod without containers, cannot be taken: no container leaves
      `allTerminated` set, so such a pod is Succeeded. */
  method PhaseLoop(s: PodState) returns (phase: PodPhase)
    ensures phase == PhaseOf(s.containers)
    ensures s.containers == [] ==> phase == PodSucceeded
  {
    var anyRunning, anyCreating, anyRestarting, allTerminated, allSucceeded := false, false, false, true, true;
    for i := 0 to |s.containers|
      invariant anyRunning <==> exists j :: 0 <= j < i && s.containers[j].phase == Running
      invariant anyCreating <==> exists j :: 0 <= j < i && s.containers[j].phase == Creating
      invariant anyRestarting <==> exists j :: 0 <= j < i && s.containers[j].phase == CrashLoopBackOff
      invariant allTerminated <==> !anyRunning && !anyCreating && !anyRestarting
      invariant allTerminated ==> (allSucceeded <==> forall j :: 0 <= j < i ==> s.containers[j].exitCode == 0)
    {
      var cv := s.containers[i];
      match cv.phase {
        case Running => anyRunning, allTerminated := true, false;
        case Creating => anyCreating, allTerminated := true, false;
        case CrashLoopBackOff => anyRestarting, allTerminated, allSucceeded := true, false, false;
        case Terminated => if cv.exitCode != 0 { allSucceeded := false; }
      }
    }
    phase := s.phase;
    if anyRunning {
      phase := PodRunning;
    } else if anyCreating {
      phase := PodPending;
    } else if anyRestarting {
      phase := PodRunning;
    } else if allTerminated {
      phase := if allSucceeded then PodSucceeded else PodFailed;
    }
  }

  method StatusLoop(s: PodState, now: Time) returns (st: PodStatus)
    ensures st == BuildPodStatus(s, now)
  {
    var statuses := [];
    for i := 0 to |s.containers|
      invariant statuses == BuildPodStatus(s, now).containers[..i]
    {
      statuses := statuses + [StatusOf(s.containers[i], now)];
    }
    var allReady, j := true, 0;
    while j < |statuses|
      invariant 0 <= j <= |statuses|
      invariant allReady <==> forall k :: 0 <= k < j ==> s.containers[k].ready
    {
      if !statuses[j].ready {
        allReady := false;
        break;
      }
      j := j + 1;
    }
    st := PodStatus(s.phase, allReady, statuses, s.podIP, s.podIP);
  }

  /** PodStatusPayloadToCorev1: what Horizon sends is the payload unchanged. */
  method Corev1Loop(p: PodStatus) returns (st: PodStatus)
    ensures st.phase == p.phase && st.ready == p.ready && st.hostIP == p.hostIP && st.podIP == p.podIP
    ensures |st.containers| == |p.containers|
    ensures forall i :: 0 <= i < |p.containers| ==>
              st.containers[i] == p.containers[i].(state := PayloadToState(p.containers[i].state))
  {
    var statuses := [];
    for i := 0 to |p.containers|
      invariant |statuses| == i
      invariant forall j :: 0 <= j < i ==>
                  statuses[j] == p.containers[j].(state := PayloadToState(p.containers[j].state))
    {
      var cs := p.containers[i];
      statuses := statuses + [ContainerStatus(cs.name, cs.image, cs.ready, cs.restartCount, PayloadToState(cs.state))];
    }
    st := PodStatus(p.phase, p.ready, statuses, p.hostIP, p.podIP);
  }

  /** The status of a pod reaches Kubernetes as it was built. */
  method SentStatus(s: PodState, now: Time) returns (st: PodStatus)
    ensures st == BuildPodStatus(s, now)
  {
    var payload := StatusLoop(s, now);
    st := Corev1Loop(payload);
  }
}
