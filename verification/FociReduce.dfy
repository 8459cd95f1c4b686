/** The transition function of internal/foci/reduce.go and the status of internal/foci/convert.go. */
module FociReduce {
  import opened Common
  import opened FociState
  import Backoff
  import UnitName

  // ---- status ----

  function StateToPayload(cv: ContainerState, now: Time): StatePayload {
    match cv.phase
    case Creating => StatePayload(Some("ContainerCreating"), None, None)
    case Running => StatePayload(None, Some(cv.lastStarted), None)
    case Terminated => StatePayload(None, None, Some(Termination(cv.exitCode, cv.exitReason, cv.lastStarted, now)))
    case CrashLoopBackOff => StatePayload(Some("CrashLoopBackOff"), None, None)
  }

  function StatusOf(cv: ContainerState, now: Time): ContainerStatus {
    ContainerStatus(cv.name, cv.image, cv.ready, cv.restartCount, StateToPayload(cv, now))
  }

  function BuildPodStatus(s: PodState, now: Time): PodStatus {
    PodStatus(s.phase, forall i :: 0 <= i < |s.containers| ==> s.containers[i].ready,
              seq(|s.containers|, i requires 0 <= i < |s.containers| => StatusOf(s.containers[i], now)),
              s.podIP, s.podIP)
  }

  /** payloadToContainerState: the same three options, taken in order. */
  function PayloadToState(p: StatePayload): StatePayload {
    if p.waiting.Some? then StatePayload(p.waiting, None, None)
    else if p.running.Some? then StatePayload(None, p.running, None)
    else if p.terminated.Some? then StatePayload(None, None, p.terminated)
    else StatePayload(Some("ContainerCreating"), None, None)
  }

  // ---- phase ----

  function PhaseOf(cs: seq<ContainerState>): PodPhase {
    if exists i :: 0 <= i < |cs| && cs[i].phase == Running then PodRunning
    else if exists i :: 0 <= i < |cs| && cs[i].phase == Creating then PodPending
    else if exists i :: 0 <= i < |cs| && cs[i].phase == CrashLoopBackOff then PodRunning
    else if forall i :: 0 <= i < |cs| ==> cs[i].exitCode == 0 then PodSucceeded
    else PodFailed
  }

  function ResetUnits(uid: string, cs: seq<ContainerState>): seq<Effect> {
    seq(|cs|, i requires 0 <= i < |cs| => ResetUnit(uid, cs[i].name))
  }

  function StatusUpdate(s: PodState, now: Time): Effect {
    UpdateStatus(s.uid, s.namespace, s.name, BuildPodStatus(s, now))
  }

  /** A pod that has just reached a terminal phase: record it and clean up its units. */
  function Announcement(s: PodState, before: PodPhase): seq<Effect> {
    if Terminal(s.phase) && before != s.phase
    then [SetPodPhase(s.uid, s.phase)] + ResetUnits(s.uid, s.containers)
    else []
  }

  function RecomputePhase(s: PodState, now: Time): (PodState, seq<Effect>) {
    var s' := s.(phase := PhaseOf(s.containers));
    (s', [StatusUpdate(s', now)] + Announcement(s', s.phase) + [PersistPodState(s'.uid)])
  }

  // ---- facts about one container ----

  function ShouldRestart(policy: RestartPolicy, exitCode: int): bool {
    match policy
    case Always => true
    case OnFailure => exitCode != 0
    case _ => false
  }

  /** What a fact makes of its container before the pod phase is recomputed, and whether it is. */
  datatype Reaction = Reaction(cv: ContainerState, effects: seq<Effect>, recompute: bool)

  /** Count one restart. */
  function Bumped(cv: ContainerState): ContainerState {
    cv.(restarting := true, restartCount := cv.restartCount + 1, backoff := Backoff.Double(cv.backoff))
  }

  function RestartOf(s: PodState, cv: ContainerState): Effect {
    RestartContainer(s.uid, s.namespace, s.name, cv.name, cv.restartCount, cv.backoff)
  }

  function NowRunning(cv: ContainerState, now: Time): ContainerState {
    cv.(phase := Running, seenRunning := true, restarting := false, lastStarted := now)
  }

  /** A polled container that runs; `again` is the second reading of the clock, against
      which the start time just set is compared to reset the delay of a stable container. */
  function PolledUp(cv: ContainerState, now: Time, again: Time): ContainerState {
    var up := NowRunning(cv, now);
    if again - up.lastStarted > Backoff.RESET then up.(backoff := Backoff.INIT) else up
  }

  function FailedEvent(s: PodState, cv: ContainerState, code: int): Effect {
    RecordEvent(s.uid, true, "Failed", ExitedWithError(cv.name, code))
  }

  function UnitFailed(s: PodState, cv: ContainerState, code: int): Reaction {
    var event := if cv.phase != CrashLoopBackOff then [FailedEvent(s, cv, code)] else [];
    var down := cv.(phase := CrashLoopBackOff, exitCode := code);
    if ShouldRestart(s.spec.restartPolicy, code)
    then Reaction(Bumped(down), event + [RestartOf(s, Bumped(down))], cv.phase != CrashLoopBackOff)
    else Reaction(down, event, cv.phase != CrashLoopBackOff)
  }

  /** What a systemd substate says about its container. */
  datatype SubState = SubRunning | SubFailed | SubStarting | SubSigterm | SubSigkill | SubOther

  function SubStateOf(subState: string): SubState {
    if subState == "running" then SubRunning
    else if subState == "failed" then SubFailed
    else if subState == "start-pre" || subState == "start" || subState == "start-post" then SubStarting
    else if subState == "stop-sigterm" || subState == "stop-watchdog" then SubSigterm
    else if subState == "stop-sigkill" || subState == "stop-kill" then SubSigkill
    else SubOther
  }

  function OnUnit(s: PodState, cv: ContainerState, subState: SubState, code: int, now: Time): Reaction {
    match subState
    case SubRunning =>
      Reaction(NowRunning(cv, now),
               if cv.phase != Running then [RecordEvent(s.uid, false, "Started", Started(cv.name))] else [], true)
    case SubFailed => UnitFailed(s, cv, code)
    case SubStarting => Reaction(cv.(phase := Creating), [], cv.phase != Creating)
    case SubSigterm => Reaction(cv, [RecordEvent(s.uid, false, "Killing", GotSigterm(cv.name))], false)
    case SubSigkill => Reaction(cv, [RecordEvent(s.uid, true, "Killing", GotSigkill(cv.name))], false)
    case SubOther => Reaction(cv, [], false)
  }

  /** A crash is reported once, a clean exit when it is first seen. */
  function DownEvent(s: PodState, cv: ContainerState, failed: bool, code: int): seq<Effect> {
    if cv.phase == CrashLoopBackOff || (!failed && cv.phase == Terminated) then []
    else if failed || code != 0 then [FailedEvent(s, cv, code)]
    else [RecordEvent(s.uid, false, "Completed", ExitedCleanly(cv.name, code))]
  }

  /** A polled container that is down: restarted once per crash, or terminated. */
  function PolledDown(s: PodState, cv: ContainerState, failed: bool, code: int): Reaction {
    var restart := if failed then ShouldRestart(s.spec.restartPolicy, code) else s.spec.restartPolicy == Always;
    var event := DownEvent(s, cv, failed, code);
    var down := cv.(exitCode := code, phase := CrashLoopBackOff);
    if !restart then
      Reaction(cv.(exitCode := code, phase := Terminated,
                   exitReason := if failed || code != 0 then "Error" else "Completed"),
               event, cv.phase != Terminated)
    else if cv.restarting then Reaction(down, event, cv.phase != CrashLoopBackOff)
    else Reaction(Bumped(down), [RestartOf(s, Bumped(down))] + event, cv.phase != CrashLoopBackOff)
  }

  function OnPoll(s: PodState, cv: ContainerState, state: MachineState, code: int, now: Time): Reaction {
    match state
    case StateRunning => Reaction(PolledUp(cv, now, now), [], cv.phase != Running)
    case StateCreating => Reaction(cv.(phase := Creating), [], cv.phase != Creating)
    case StateFailed => PolledDown(s, cv, true, code)
    case StateExited => PolledDown(s, cv, false, code)
    case StateUnknown =>
      if cv.restarting || !cv.seenRunning then Reaction(cv, [], false)
      else Reaction(cv.(phase := Terminated, exitCode := 0, exitReason := "Completed"), [], cv.phase != Terminated)
  }

  /** The exit of a container that was never seen running is put off, silently. */
  function OnExit(s: PodState, cv: ContainerState, code: int, reason: string, willRestart: bool): Reaction {
    if !cv.seenRunning then Reaction(cv.(phase := Creating), [], false)
    else if willRestart then
      var cv' := Bumped(cv.(phase := CrashLoopBackOff));
      Reaction(cv', [RestartOf(s, cv')], cv.phase != CrashLoopBackOff)
    else
      var why := if reason != "" then reason else if code == 0 then "Completed" else "Error";
      Reaction(cv.(phase := Terminated, exitCode := code, exitReason := why), [], cv.phase != Terminated)
  }

  function OnProbe(s: PodState, cv: ContainerState, probeType: string, ready: bool, startupPassed: bool): Reaction {
    if probeType == "readiness" then
      Reaction(cv.(ready := ready),
               if !cv.ready && ready then [RecordEvent(s.uid, false, "ProbeReady", PassedReadiness(cv.name))] else [],
               cv.ready != ready)
    else if probeType == "startup" then Reaction(cv.(startupPassed := startupPassed), [], false)
    else Reaction(cv, [], false)
  }

  predicate AboutContainer(f: Fact) {
    !f.SpecFact? && !f.PodAdmitFact? && !f.PodEvictFact?
  }

  function React(s: PodState, cv: ContainerState, f: Fact, now: Time): Reaction
    requires AboutContainer(f)
  {
    match f
    case UnitFact(_, _, subState, code) => OnUnit(s, cv, SubStateOf(subState), code, now)
    case ContainerStateFact(_, _, state, code) => OnPoll(s, cv, state, code, now)
    case ExitFact(_, _, code, reason, willRestart) => OnExit(s, cv, code, reason, willRestart)
    case ProbeFact(_, _, probeType, ready, startupPassed) => OnProbe(s, cv, probeType, ready, startupPassed)
    case MarkRunningFact(_, _) => Reaction(cv.(seenRunning := true), [], false)
    case BackoffResetFact(_, _) => Reaction(cv.(backoff := Backoff.INIT), [], false)
  }

  // ---- facts about the pod ----

  /** The container a fact is about, or -1. */
  function Target(cs: seq<ContainerState>, f: Fact): int
    requires AboutContainer(f)
  {
    if f.UnitFact? then
      var name := UnitName.ParseContainerFromUnit(f.unitName);
      if name == "" then -1 else FindContainer(cs, name)
    else FindContainer(cs, f.container)
  }

  /** A container of the new spec: known ones keep their state, new ones start afresh. */
  function Carried(known: seq<ContainerState>, cs: ContainerSpec, now: Time): ContainerState {
    var i := FindContainer(known, cs.name);
    if i == -1 then FreshContainer(cs, now) else known[i].(image := cs.image)
  }

  function WithSpec(s: PodState, spec: PodSpec, now: Time): PodState {
    s.(spec := spec,
       containers := seq(|spec.containers|, i requires 0 <= i < |spec.containers| =>
                         Carried(s.containers, spec.containers[i], now)))
  }

  /** The state, the effects so far, and whether to recompute the phase. */
  datatype Plan = Plan(state: PodState, effects: seq<Effect>, recompute: bool)

  function PlanFact(s: PodState, f: Fact, now: Time): Plan
    requires !f.PodEvictFact?
  {
    if !AboutContainer(f) then
      if f.pod == None then Plan(s, [], false) else Plan(WithSpec(s, NewPodSpec(f.pod.value), now), [], true)
    else
      var i := Target(s.containers, f);
      if i == -1 then Plan(s, [], false)
      else
        var r := React(s, s.containers[i], f, now);
        Plan(s.(containers := s.containers[i := r.cv]), r.effects, r.recompute)
  }

  /** Facts for untracked pods are ignored, admission included. */
  function Reduce(s: PodState, f: Fact, now: Time): (PodState, seq<Effect>) {
    if s.uid == "" then (s, [])
    else if f.PodEvictFact? then (UNTRACKED, ResetUnits(s.uid, s.containers))
    else
      var plan := PlanFact(s, f, now);
      if plan.recompute then
        var (s', effects) := RecomputePhase(plan.state, now);
        (s', plan.effects + effects)
      else (plan.state, plan.effects)
  }
}
