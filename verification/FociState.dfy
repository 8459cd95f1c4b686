/**
 The flat value types of the per-pod state machine: internal/foci/state.go and
 the facts and effects of internal/types/types.go.
 */
module FociState {
  import opened Common
  import Backoff

  datatype ContainerPhase = Creating | Running | Terminated | CrashLoopBackOff

  datatype PodPhase = NoPhase | PodPending | PodRunning | PodSucceeded | PodFailed

  datatype RestartPolicy = Always | OnFailure | Never | OtherPolicy

  datatype MachineState = StateUnknown | StateRunning | StateExited | StateFailed | StateCreating

  datatype ProbeSpec = ProbeSpec(initialDelay: int, period: int, timeout: int, success: int, failure: int)

  const NO_PROBE := ProbeSpec(0, 0, 0, 0, 0)

  /** The parts of a Kubernetes pod that the state machine reads. */
  datatype PodContainer = PodContainer(
    name: string, image: string,
    readiness: Option<ProbeSpec>, liveness: Option<ProbeSpec>, startup: Option<ProbeSpec>)

  datatype Pod = Pod(restartPolicy: RestartPolicy, containers: seq<PodContainer>)

  datatype ContainerSpec = ContainerSpec(
    name: string, image: string,
    hasReadinessProbe: bool, hasLivenessProbe: bool, hasStartupProbe: bool,
    readinessProbe: ProbeSpec, livenessProbe: ProbeSpec, startupProbe: ProbeSpec)

  datatype PodSpec = PodSpec(restartPolicy: RestartPolicy, containers: seq<ContainerSpec>)

  datatype ContainerState = ContainerState(
    name: string, image: string, phase: ContainerPhase, ready: bool, restartCount: int,
    seenRunning: bool, restarting: bool, backoff: Duration, lastStarted: Time,
    exitCode: int, exitReason: string, startupPassed: bool)

  datatype PodState = PodState(
    uid: string, namespace: string, name: string, podIP: string,
    spec: PodSpec, phase: PodPhase, containers: seq<ContainerState>)

  /** The zero value, which means "not tracked". */
  const UNTRACKED := PodState("", "", "", "", PodSpec(OtherPolicy, []), NoPhase, [])

  datatype Fact =
    | UnitFact(uid: string, unitName: string, subState: string, exitCode: int)
    | ContainerStateFact(uid: string, container: string, state: MachineState, exitCode: int)
    | ExitFact(uid: string, container: string, exitCode: int, reason: string, willRestart: bool)
    | ProbeFact(uid: string, container: string, probeType: string, ready: bool, startupPassed: bool)
    | SpecFact(uid: string, pod: Option<Pod>)
    | PodAdmitFact(uid: string, pod: Option<Pod>)
    | PodEvictFact(uid: string)
    | MarkRunningFact(uid: string, container: string)
    | BackoffResetFact(uid: string, container: string)

  // ---- status payloads ----

  datatype Termination = Termination(exitCode: int, reason: string, startedAt: Time, finishedAt: Time)

  datatype StatePayload = StatePayload(
    waiting: Option<string>, running: Option<Time>, terminated: Option<Termination>)

  datatype ContainerStatus = ContainerStatus(
    name: string, image: string, ready: bool, restartCount: int, state: StatePayload)

  datatype PodStatus = PodStatus(
    phase: PodPhase, ready: bool, containers: seq<ContainerStatus>, hostIP: string, podIP: string)

  // ---- effects ----

  datatype Message =
    | Started(container: string)
    | ExitedWithError(container: string, code: int)
    | ExitedCleanly(container: string, code: int)
    | GotSigterm(container: string)
    | GotSigkill(container: string)
    | PassedReadiness(container: string)

  datatype Effect =
    | UpdateStatus(uid: string, namespace: string, name: string, status: PodStatus)
    | RestartContainer(uid: string, namespace: string, podName: string, container: string,
                       restartCount: int, backoff: Duration)
    | SetPodPhase(uid: string, phase: PodPhase)
    | ResetUnit(uid: string, container: string)
    | RecordEvent(uid: string, warning: bool, reason: string, message: Message)
    | PersistPodState(uid: string)

  // ---- lookups and construction ----

  function FindContainer(containers: seq<ContainerState>, name: string): (r: int)
    ensures -1 <= r < |containers|
    ensures r >= 0 ==> containers[r].name == name
    ensures forall i :: 0 <= i < |containers| && (r == -1 || i < r) ==> containers[i].name != name
  {
    if containers == [] then -1
    else if containers[0].name == name then 0
    else
      var r := FindContainer(containers[1..], name);
      if r == -1 then -1 else r + 1
  }

  function ContainerSpecOf(c: PodContainer): ContainerSpec {
    ContainerSpec(c.name, c.image, c.readiness.Some?, c.liveness.Some?, c.startup.Some?,
                  if c.readiness.Some? then c.readiness.value else NO_PROBE,
                  if c.liveness.Some? then c.liveness.value else NO_PROBE,
                  if c.startup.Some? then c.startup.value else NO_PROBE)
  }

  function NewPodSpec(pod: Pod): PodSpec {
    PodSpec(pod.restartPolicy,
            seq(|pod.containers|, i requires 0 <= i < |pod.containers| => ContainerSpecOf(pod.containers[i])))
  }

  /** A container as it is when it is first tracked. */
  function FreshContainer(cs: ContainerSpec, now: Time): ContainerState {
    ContainerState(cs.name, cs.image, Creating, !cs.hasReadinessProbe, 0, false, false, Backoff.INIT, now, 0, "", false)
  }

  function NewPodState(uid: string, namespace: string, name: string, podIP: string, pod: Pod, now: Time): PodState {
    var spec := NewPodSpec(pod);
    PodState(uid, namespace, name, podIP, spec, PodPending,
             seq(|spec.containers|, i requires 0 <= i < |spec.containers| => FreshContainer(spec.containers[i], now)))
  }

  // ---- the phase of a pod ----

  ghost predicate AnyIn(cs: seq<ContainerState>, phase: ContainerPhase) {
    exists i :: 0 <= i < |cs| && cs[i].phase == phase
  }

  predicate Terminal(phase: PodPhase) {
    phase == PodSucceeded || phase == PodFailed
  }

  /** The container phases dictate this pod phase, up to success or failure. */
  ghost predicate Agrees(phase: PodPhase, cs: seq<ContainerState>) {
    if AnyIn(cs, Running) then phase == PodRunning
    else if AnyIn(cs, Creating) then phase == PodPending
    else if AnyIn(cs, CrashLoopBackOff) then phase == PodRunning
    else Terminal(phase)
  }
}
