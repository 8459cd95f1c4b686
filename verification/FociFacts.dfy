/**
 What every fact does to the per-pod state machine, written out field by field: the phase of
 the container, its flags, when a restart is requested, which events are recorded, and when a
 status is sent.
 */
module FociFacts {
  import opened Common
  import opened FociState
  import opened FociReduce
  import opened FociRuns
  import opened FociEffects
  import UnitName

  // ---- the tables ----

  /** The phase of a container after a fact about it. */
  ghost function NextPhase(policy: RestartPolicy, cv: ContainerState, f: Fact): ContainerPhase {
    match f
    case UnitFact(_, _, sub, _) =>
      if sub == "running" then Running
      else if sub == "failed" then CrashLoopBackOff
      else if sub == "start-pre" || sub == "start" || sub == "start-post" then Creating
      else cv.phase
    case ContainerStateFact(_, _, StateRunning, _) => Running
    case ContainerStateFact(_, _, StateCreating, _) => Creating
    case ContainerStateFact(_, _, StateFailed, code) =>
      if policy == Always || (policy == OnFailure && code != 0) then CrashLoopBackOff else Terminated
    case ContainerStateFact(_, _, StateExited, _) => if policy == Always then CrashLoopBackOff else Terminated
    case ContainerStateFact(_, _, StateUnknown, _) =>
      if cv.seenRunning && !cv.restarting then Terminated else cv.phase
    case ExitFact(_, _, _, _, willRestart) =>
      if !cv.seenRunning then Creating else if willRestart then CrashLoopBackOff else Terminated
    case _ => cv.phase
  }

  /** When a fact asks for a restart of its container. */
  ghost predicate AsksRestart(policy: RestartPolicy, cv: ContainerState, f: Fact) {
    match f
    case UnitFact(_, _, sub, code) => sub == "failed" && (policy == Always || (policy == OnFailure && code != 0))
    case ContainerStateFact(_, _, StateFailed, code) =>
      !cv.restarting && (policy == Always || (policy == OnFailure && code != 0))
    case ContainerStateFact(_, _, StateExited, _) => !cv.restarting && policy == Always
    case ExitFact(_, _, _, _, willRestart) => willRestart && cv.seenRunning
    case _ => false
  }

  /** Does the fact say that its container is running now? */
  ghost predicate SeesRunning(f: Fact) {
    (f.UnitFact? && f.subState == "running") || (f.ContainerStateFact? && f.state == StateRunning)
  }

  /** The exit code and reason that a fact leaves. */
  ghost function NextExit(policy: RestartPolicy, cv: ContainerState, f: Fact): (int, string) {
    match f
    case UnitFact(_, _, sub, code) => (if sub == "failed" then code else cv.exitCode, cv.exitReason)
    case ContainerStateFact(_, _, StateFailed, code) =>
      (code, if policy == Always || (policy == OnFailure && code != 0) then cv.exitReason else "Error")
    case ContainerStateFact(_, _, StateExited, code) =>
      (code, if policy == Always then cv.exitReason else if code == 0 then "Completed" else "Error")
    case ContainerStateFact(_, _, StateUnknown, _) =>
      if cv.seenRunning && !cv.restarting then (0, "Completed") else (cv.exitCode, cv.exitReason)
    case ExitFact(_, _, code, reason, willRestart) =>
      if !cv.seenRunning || willRestart then (cv.exitCode, cv.exitReason)
      else (code, if reason != "" then reason else if code == 0 then "Completed" else "Error")
    case _ => (cv.exitCode, cv.exitReason)
  }

  /** The events that a fact records. */
  ghost function Events(uid: string, cv: ContainerState, f: Fact): seq<Effect> {
    match f
    case UnitFact(_, _, sub, code) =>
      if sub == "running" && cv.phase != Running then [RecordEvent(uid, false, "Started", Started(cv.name))]
      else if sub == "failed" && cv.phase != CrashLoopBackOff
      then [RecordEvent(uid, true, "Failed", ExitedWithError(cv.name, code))]
      else if sub == "stop-sigterm" || sub == "stop-watchdog"
      then [RecordEvent(uid, false, "Killing", GotSigterm(cv.name))]
      else if sub == "stop-sigkill" || sub == "stop-kill"
      then [RecordEvent(uid, true, "Killing", GotSigkill(cv.name))]
      else []
    case ContainerStateFact(_, _, StateFailed, code) =>
      if cv.phase == CrashLoopBackOff then [] else [RecordEvent(uid, true, "Failed", ExitedWithError(cv.name, code))]
    case ContainerStateFact(_, _, StateExited, code) =>
      if cv.phase == CrashLoopBackOff || cv.phase == Terminated then []
      else if code == 0 then [RecordEvent(uid, false, "Completed", ExitedCleanly(cv.name, code))]
      else [RecordEvent(uid, true, "Failed", ExitedWithError(cv.name, code))]
    case ProbeFact(_, _, probeType, ready, _) =>
      if probeType == "readiness" && ready && !cv.ready
      then [RecordEvent(uid, false, "ProbeReady", PassedReadiness(cv.name))] else []
    case _ => []
  }

  /** Does the fact make the pod send its status? */
  ghost predicate SendsStatus(policy: RestartPolicy, cv: ContainerState, f: Fact) {
    match f
    case UnitFact(_, _, sub, _) => sub == "running" || NextPhase(policy, cv, f) != cv.phase
    case ContainerStateFact(_, _, _, _) => NextPhase(policy, cv, f) != cv.phase
    case ExitFact(_, _, _, _, _) => cv.seenRunning && NextPhase(policy, cv, f) != cv.phase
    case ProbeFact(_, _, probeType, ready, _) => probeType == "readiness" && ready != cv.ready
    case _ => false
  }

  // ---- one container ----

  function Recorded(effects: seq<Effect>): seq<Effect> {
    if effects == [] then []
    else if effects[0].RecordEvent? then [effects[0]] + Recorded(effects[1..])
    else Recorded(effects[1..])
  }

  lemma {:induction false} RecordedConcat(a: seq<Effect>, b: seq<Effect>)
    ensures Recorded(a + b) == Recorded(a) + Recorded(b)
  {
    if a == [] {
      assert a + b == b;
    } else {
      assert (a + b)[1..] == a[1..] + b;
      RecordedConcat(a[1..], b);
    }
  }

  lemma {:induction false} NoneRecorded(effects: seq<Effect>)
    requires forall i :: 0 <= i < |effects| ==> !effects[i].RecordEvent?
    ensures Recorded(effects) == []
  {
    if effects != [] { NoneRecorded(effects[1..]); }
  }

  /** The flags: seen running once and for all; restarting from a request until it runs again. */
  ghost predicate FlagsFollow(policy: RestartPolicy, cv: ContainerState, f: Fact, now: Time, cv': ContainerState) {
    && cv'.seenRunning == (cv.seenRunning || SeesRunning(f) || f.MarkRunningFact?)
    && cv'.restarting == (!SeesRunning(f) && (cv.restarting || AsksRestart(policy, cv, f)))
    && cv'.lastStarted == (if SeesRunning(f) then now else cv.lastStarted)
    && cv'.ready == (if f.ProbeFact? && f.probeType == "readiness" then f.ready else cv.ready)
    && cv'.startupPassed == (if f.ProbeFact? && f.probeType == "startup" then f.startupPassed else cv.startupPassed)
    && cv'.name == cv.name && cv'.image == cv.image
  }

  /** A reaction follows the tables. */
  ghost predicate Follows(policy: RestartPolicy, cv: ContainerState, f: Fact, now: Time, r: Reaction) {
    && r.cv.phase == NextPhase(policy, cv, f)
    && (r.cv.exitCode, r.cv.exitReason) == NextExit(policy, cv, f)
    && FlagsFollow(policy, cv, f, now, r.cv)
    && (r.recompute <==> SendsStatus(policy, cv, f))
  }

  lemma UnitFollows(s: PodState, cv: ContainerState, f: Fact, now: Time)
    requires f.UnitFact?
    ensures Follows(s.spec.restartPolicy, cv, f, now, React(s, cv, f, now))
  {
    var sub := f.subState;
    match SubStateOf(sub)
    case SubRunning => assert sub == "running";
    case SubFailed => assert sub == "failed" && sub != "running";
    case SubStarting => assert sub != "failed" && sub != "running";
    case _ => assert sub != "failed" && sub != "running";
  }

  lemma FailedFollows(s: PodState, cv: ContainerState, f: Fact, now: Time)
    requires f.ContainerStateFact? && f.state == StateFailed
    ensures Follows(s.spec.restartPolicy, cv, f, now, PolledDown(s, cv, true, f.exitCode))
  {
  }

  lemma ExitedFollows(s: PodState, cv: ContainerState, f: Fact, now: Time)
    requires f.ContainerStateFact? && f.state == StateExited
    ensures Follows(s.spec.restartPolicy, cv, f, now, PolledDown(s, cv, false, f.exitCode))
  {
  }

  lemma PollFollows(s: PodState, cv: ContainerState, f: Fact, now: Time)
    requires f.ContainerStateFact?
    ensures Follows(s.spec.restartPolicy, cv, f, now, React(s, cv, f, now))
  {
    if f.state == StateFailed {
      FailedFollows(s, cv, f, now);
    } else if f.state == StateExited {
      ExitedFollows(s, cv, f, now);
    }
  }

  lemma ExitFollows(s: PodState, cv: ContainerState, f: Fact, now: Time)
    requires f.ExitFact?
    ensures Follows(s.spec.restartPolicy, cv, f, now, React(s, cv, f, now))
  {
  }

  lemma ProbeFollows(s: PodState, cv: ContainerState, f: Fact, now: Time)
    requires f.ProbeFact?
    ensures Follows(s.spec.restartPolicy, cv, f, now, React(s, cv, f, now))
  {
  }

  lemma MarkFollows(s: PodState, cv: ContainerState, f: Fact, now: Time)
    requires f.MarkRunningFact? || f.BackoffResetFact?
    ensures Follows(s.spec.restartPolicy, cv, f, now, React(s, cv, f, now))
  {
  }

  lemma ReactionFollows(s: PodState, cv: ContainerState, f: Fact, now: Time)
    requires AboutContainer(f)
    ensures Follows(s.spec.restartPolicy, cv, f, now, React(s, cv, f, now))
  {
    if f.UnitFact? {
      UnitFollows(s, cv, f, now);
    } else if f.ContainerStateFact? {
      PollFollows(s, cv, f, now);
    } else if f.ExitFact? {
      ExitFollows(s, cv, f, now);
    } else if f.ProbeFact? {
      ProbeFollows(s, cv, f, now);
    } else {
      MarkFollows(s, cv, f, now);
    }
  }

  lemma OneRequest(s: PodState, cv: ContainerState, events: seq<Effect>, before: bool)
    requires |events| <= 1 && forall i :: 0 <= i < |events| ==> events[i].RecordEvent?
    ensures var effects := if before then events + [RestartOf(s, cv)] else [RestartOf(s, cv)] + events;
            RestartsFor(effects, cv.name) == [RestartOf(s, cv)] && Recorded(effects) == events
  {
    var r := RestartOf(s, cv);
    NoRestarts(events, cv.name);
    OnlyEvents(events);
    assert [r][1..] == [];
    RestartsForConcat(events, [r], cv.name);
    RestartsForConcat([r], events, cv.name);
    RecordedConcat(events, [r]);
    RecordedConcat([r], events);
  }

  lemma OnlyEvents(events: seq<Effect>)
    requires |events| <= 1 && forall i :: 0 <= i < |events| ==> events[i].RecordEvent?
    ensures Recorded(events) == events
  {
    if events != [] { assert events[1..] == []; }
  }

  /** The restart and the events that a reaction gives out. */
  ghost predicate GivesOut(s: PodState, cv: ContainerState, f: Fact, r: Reaction) {
    && RestartsFor(r.effects, cv.name) ==
         (if AsksRestart(s.spec.restartPolicy, cv, f) then [RestartOf(s, r.cv)] else [])
    && Recorded(r.effects) == Events(s.uid, cv, f)
  }

  lemma NoRequest(s: PodState, cv: ContainerState, f: Fact, r: Reaction)
    requires r.effects == Events(s.uid, cv, f) && !AsksRestart(s.spec.restartPolicy, cv, f)
    ensures GivesOut(s, cv, f, r)
  {
    NoRestarts(r.effects, cv.name);
    OnlyEvents(r.effects);
  }

  lemma UnitGivesOut(s: PodState, cv: ContainerState, f: Fact, now: Time)
    requires f.UnitFact?
    ensures GivesOut(s, cv, f, React(s, cv, f, now))
  {
    var r := React(s, cv, f, now);
    if AsksRestart(s.spec.restartPolicy, cv, f) {
      OneRequest(s, r.cv, Events(s.uid, cv, f), true);
    } else {
      NoRequest(s, cv, f, r);
    }
  }

  lemma DownGivesOut(s: PodState, cv: ContainerState, f: Fact)
    requires f.ContainerStateFact? && (f.state == StateFailed || f.state == StateExited)
    ensures GivesOut(s, cv, f, PolledDown(s, cv, f.state == StateFailed, f.exitCode))
  {
    var failed := f.state == StateFailed;
    var r, event := PolledDown(s, cv, failed, f.exitCode), DownEvent(s, cv, failed, f.exitCode);
    assert event == Events(s.uid, cv, f);
    if AsksRestart(s.spec.restartPolicy, cv, f) {
      OneRequest(s, r.cv, event, false);
    } else {
      NoRequest(s, cv, f, r);
    }
  }

  lemma PollGivesOut(s: PodState, cv: ContainerState, f: Fact, now: Time)
    requires f.ContainerStateFact?
    ensures GivesOut(s, cv, f, React(s, cv, f, now))
  {
    if f.state == StateFailed || f.state == StateExited {
      DownGivesOut(s, cv, f);
    } else {
      NoRequest(s, cv, f, React(s, cv, f, now));
    }
  }

  lemma ReactionGivesOut(s: PodState, cv: ContainerState, f: Fact, now: Time)
    requires AboutContainer(f)
    ensures GivesOut(s, cv, f, React(s, cv, f, now))
  {
    var r := React(s, cv, f, now);
    match f
    case UnitFact(_, _, _, _) => UnitGivesOut(s, cv, f, now);
    case ContainerStateFact(_, _, _, _) => PollGivesOut(s, cv, f, now);
    case ExitFact(_, _, _, _, _) =>
      if AsksRestart(s.spec.restartPolicy, cv, f) {
        OneRequest(s, r.cv, [], true);
        assert [] + [RestartOf(s, r.cv)] == r.effects;
      } else {
        NoRequest(s, cv, f, r);
      }
    case _ => NoRequest(s, cv, f, r);
  }

  // ---- the pod ----

  /** The name of the container that a fact is about; "" is nobody's. */
  function Subject(f: Fact): string
    requires AboutContainer(f)
  {
    if f.UnitFact? then UnitName.ParseContainerFromUnit(f.unitName) else f.container
  }

  lemma RecomputeGivesNothing(s: PodState, now: Time, c: string)
    ensures RestartsFor(RecomputePhase(s, now).1, c) == [] && Recorded(RecomputePhase(s, now).1) == []
    ensures StatusUpdate(RecomputePhase(s, now).0, now) in RecomputePhase(s, now).1
  {
    var effects := RecomputePhase(s, now).1;
    RecomputeRestartsNothing(s, now, c);
    NoneRecorded(effects);
    assert effects[0] == StatusUpdate(RecomputePhase(s, now).0, now);
  }

  /** The other containers stay as they are. */
  ghost predicate OthersStay(s: PodState, s': PodState, c: string) {
    forall d :: d != c && Has(s, d) ==> Has(s', d) && Of(s', d) == Of(s, d)
  }

  lemma UpdateOthers(s: PodState, i: nat, cv: ContainerState, s': PodState)
    requires i < |s.containers| && FindContainer(s.containers, cv.name) == i && cv.name == s.containers[i].name
    requires s'.containers == s.containers[i := cv]
    ensures Has(s', cv.name) && Of(s', cv.name) == cv && OthersStay(s, s', cv.name)
  {
    FindAfterUpdate(s.containers, i, cv, cv.name);
    forall d | d != cv.name && Has(s, d) ensures Has(s', d) && Of(s', d) == Of(s, d) {
      FindAfterUpdate(s.containers, i, cv, d);
    }
  }

  /** What one fact about the container `c` makes of the pod... */
  ghost predicate StateDone(s: PodState, c: string, f: Fact, now: Time, s': PodState)
    requires Has(s, c)
  {
    var policy, cv := s.spec.restartPolicy, Of(s, c);
    && Has(s', c) && OthersStay(s, s', c)
    && Of(s', c).phase == NextPhase(policy, cv, f)
    && (Of(s', c).exitCode, Of(s', c).exitReason) == NextExit(policy, cv, f)
    && FlagsFollow(policy, cv, f, now, Of(s', c))
    && (!SendsStatus(policy, cv, f) ==> s'.phase == s.phase)
  }

  /** ...and which effects it has. */
  ghost predicate EffectsDone(s: PodState, c: string, f: Fact, now: Time, s': PodState, effects: seq<Effect>)
    requires Has(s, c)
  {
    var policy, cv := s.spec.restartPolicy, Of(s, c);
    && RestartsFor(effects, c) ==
         (if AsksRestart(policy, cv, f)
          then [RestartContainer(s.uid, s.namespace, s.name, c, cv.restartCount + 1,
                                 Min(2 * cv.backoff, 300_000_000_000))]
          else [])
    && Recorded(effects) == Events(s.uid, cv, f)
    && (UpdateStatus(s.uid, s.namespace, s.name, BuildPodStatus(s', now)) in effects <==> SendsStatus(policy, cv, f))
  }

  lemma QuietSendsNothing(effects: seq<Effect>, s: PodState, now: Time)
    requires forall i :: 0 <= i < |effects| ==> IsQuiet(effects[i])
    ensures StatusUpdate(s, now) !in effects
  {
  }

  /** The reaction `r` to the fact, put into the pod. */
  ghost predicate Reacted(s: PodState, c: string, f: Fact, now: Time, r: Reaction, p: PodState)
    requires Has(s, c)
  {
    var cv := Of(s, c);
    && cv.name == c && Follows(s.spec.restartPolicy, cv, f, now, r) && GivesOut(s, cv, f, r)
    && (forall i :: 0 <= i < |r.effects| ==> IsQuiet(r.effects[i]))
    && Has(p, c) && Of(p, c) == r.cv && OthersStay(s, p, c) && p.phase == s.phase
    && p.uid == s.uid && p.namespace == s.namespace && p.name == s.name
    && (AsksRestart(s.spec.restartPolicy, cv, f) ==> CountedOnce(cv, r.cv))
  }

  lemma StateIsDone(s: PodState, c: string, f: Fact, now: Time, r: Reaction, p: PodState, s': PodState)
    requires Has(s, c) && Reacted(s, c, f, now, r, p)
    requires s' == p || (r.recompute && s' == p.(phase := s'.phase))
    ensures StateDone(s, c, f, now, s')
  {
  }

  lemma RequestIsWritten(s: PodState, c: string, f: Fact, now: Time, r: Reaction, p: PodState)
    requires Has(s, c) && Reacted(s, c, f, now, r, p) && AsksRestart(s.spec.restartPolicy, Of(s, c), f)
    ensures RestartOf(s, r.cv) == RestartContainer(s.uid, s.namespace, s.name, c, Of(s, c).restartCount + 1,
                                                   Min(2 * Of(s, c).backoff, 300_000_000_000))
  {
  }

  lemma DoneQuietly(s: PodState, c: string, f: Fact, now: Time, r: Reaction, p: PodState)
    requires Has(s, c) && Reacted(s, c, f, now, r, p) && !r.recompute
    ensures EffectsDone(s, c, f, now, p, r.effects)
  {
    if AsksRestart(s.spec.restartPolicy, Of(s, c), f) { RequestIsWritten(s, c, f, now, r, p); }
    QuietSendsNothing(r.effects, p, now);
  }

  lemma DoneAloud(s: PodState, c: string, f: Fact, now: Time, r: Reaction, p: PodState, s': PodState, more: seq<Effect>)
    requires Has(s, c) && Reacted(s, c, f, now, r, p) && r.recompute
    requires RestartsFor(more, c) == [] && Recorded(more) == []
    requires UpdateStatus(s.uid, s.namespace, s.name, BuildPodStatus(s', now)) in more
    ensures EffectsDone(s, c, f, now, s', r.effects + more)
  {
    if AsksRestart(s.spec.restartPolicy, Of(s, c), f) { RequestIsWritten(s, c, f, now, r, p); }
    RestartsForConcat(r.effects, more, c);
    RecordedConcat(r.effects, more);
  }

  ghost predicate CountedOnce(cv: ContainerState, cv': ContainerState) {
    cv'.restartCount == cv.restartCount + 1 && cv'.backoff == Min(2 * cv.backoff, 300_000_000_000)
  }

  lemma UnitRequestCounts(s: PodState, cv: ContainerState, f: Fact, now: Time)
    requires f.UnitFact? && AsksRestart(s.spec.restartPolicy, cv, f)
    ensures CountedOnce(cv, React(s, cv, f, now).cv)
  {
    assert SubStateOf(f.subState) == SubFailed;
  }

  lemma PollRequestCounts(s: PodState, cv: ContainerState, f: Fact, now: Time)
    requires f.ContainerStateFact? && AsksRestart(s.spec.restartPolicy, cv, f)
    ensures CountedOnce(cv, React(s, cv, f, now).cv)
  {
  }

  /** A restart that is asked for is counted, and doubles the delay. */
  lemma RequestCounts(s: PodState, cv: ContainerState, f: Fact, now: Time)
    requires AboutContainer(f) && AsksRestart(s.spec.restartPolicy, cv, f)
    ensures CountedOnce(cv, React(s, cv, f, now).cv)
  {
    if f.UnitFact? {
      UnitRequestCounts(s, cv, f, now);
    } else if f.ContainerStateFact? {
      PollRequestCounts(s, cv, f, now);
    }
  }

  lemma PlanIsReaction(s: PodState, f: Fact, now: Time)
    requires s.uid != "" && AboutContainer(f) && Subject(f) != "" && Has(s, Subject(f))
    ensures var plan, r := PlanFact(s, f, now), React(s, Of(s, Subject(f)), f, now);
            && Reacted(s, Subject(f), f, now, r, plan.state)
            && plan.effects == r.effects && plan.recompute == r.recompute
  {
    var i := FindContainer(s.containers, Subject(f));
    ReactionFollows(s, s.containers[i], f, now);
    ReactionGivesOut(s, s.containers[i], f, now);
    UpdateOthers(s, i, React(s, s.containers[i], f, now).cv, PlanFact(s, f, now).state);
    PlanIsQuiet(s, f, now);
    if AsksRestart(s.spec.restartPolicy, s.containers[i], f) { RequestCounts(s, s.containers[i], f, now); }
  }

  /** Every fact about a container of a tracked pod does what the tables say, and nothing to
      the other containers. */
  lemma FactMeans(s: PodState, f: Fact, now: Time)
    requires s.uid != "" && AboutContainer(f) && Subject(f) != "" && Has(s, Subject(f))
    ensures StateDone(s, Subject(f), f, now, Reduce(s, f, now).0)
    ensures EffectsDone(s, Subject(f), f, now, Reduce(s, f, now).0, Reduce(s, f, now).1)
  {
    var c, plan, r := Subject(f), PlanFact(s, f, now), React(s, Of(s, Subject(f)), f, now);
    PlanIsReaction(s, f, now);
    StateIsDone(s, c, f, now, r, plan.state, Reduce(s, f, now).0);
    if plan.recompute {
      var (s', more) := RecomputePhase(plan.state, now);
      RecomputeGivesNothing(plan.state, now, c);
      DoneAloud(s, c, f, now, r, plan.state, s', more);
    } else {
      DoneQuietly(s, c, f, now, r, plan.state);
    }
  }

  /** A fact about a container that the pod does not have changes nothing. */
  lemma UnknownContainerIsIgnored(s: PodState, f: Fact, now: Time)
    requires AboutContainer(f) && ((f.UnitFact? && Subject(f) == "") || !Has(s, Subject(f)))
    ensures Reduce(s, f, now) == (s, [])
  {
  }

  /** An eviction ends the tracking of the pod, with one unit reset per container. */
  lemma EvictionMeans(s: PodState, f: Fact, now: Time)
    requires s.uid != "" && f.PodEvictFact?
    ensures Reduce(s, f, now).0.uid == "" && UnitsReset(Reduce(s, f, now).1) == Names(s.containers)
    ensures |Reduce(s, f, now).1| == |s.containers|
  {
    AllUnitsReset(s.uid, s.containers);
  }

  // ---- new pods and new specs ----

  /** A container as it starts: being created, ready unless it has a readiness probe to pass. */
  ghost predicate StartsAs(c: PodContainer, now: Time, cv: ContainerState) {
    cv == ContainerState(c.name, c.image, Creating, c.readiness.None?, 0, false, false, 10_000_000_000, now,
                         0, "", false)
  }

  /** A container spec holds the probes that the pod gives, each in its place. */
  ghost predicate SpecOf(c: PodContainer, cs: ContainerSpec) {
    && cs.name == c.name && cs.image == c.image
    && (cs.hasReadinessProbe <==> c.readiness.Some?) && (cs.hasLivenessProbe <==> c.liveness.Some?)
    && (cs.hasStartupProbe <==> c.startup.Some?)
    && (c.readiness.Some? ==> cs.readinessProbe == c.readiness.value)
    && (c.liveness.Some? ==> cs.livenessProbe == c.liveness.value)
    && (c.startup.Some? ==> cs.startupProbe == c.startup.value)
  }

  lemma NewPodMeans(uid: string, namespace: string, name: string, podIP: string, pod: Pod, now: Time)
    ensures var s := NewPodState(uid, namespace, name, podIP, pod, now);
            && s.uid == uid && s.namespace == namespace && s.name == name && s.podIP == podIP
            && s.phase == PodPending && s.spec.restartPolicy == pod.restartPolicy
            && |s.containers| == |s.spec.containers| == |pod.containers|
            && forall i :: 0 <= i < |pod.containers| ==>
                 SpecOf(pod.containers[i], s.spec.containers[i]) && StartsAs(pod.containers[i], now, s.containers[i])
  {
  }

  /** A new spec: known containers keep all but their image, new ones start, others go; and the
      status is sent. */
  lemma NewSpecMeans(s: PodState, f: Fact, now: Time)
    requires s.uid != "" && (f.SpecFact? || f.PodAdmitFact?) && f.pod.Some?
    ensures var s', pod := Reduce(s, f, now).0, f.pod.value;
            && s'.uid == s.uid && s'.namespace == s.namespace && s'.name == s.name && s'.podIP == s.podIP
            && s'.spec.restartPolicy == pod.restartPolicy
            && |s'.containers| == |s'.spec.containers| == |pod.containers|
            && (forall i :: 0 <= i < |pod.containers| ==>
                  && SpecOf(pod.containers[i], s'.spec.containers[i])
                  && if Has(s, pod.containers[i].name)
                     then s'.containers[i] == Of(s, pod.containers[i].name).(image := pod.containers[i].image)
                     else StartsAs(pod.containers[i], now, s'.containers[i]))
            && UpdateStatus(s.uid, s.namespace, s.name, BuildPodStatus(s', now)) in Reduce(s, f, now).1
  {
    RecomputeGivesNothing(PlanFact(s, f, now).state, now, "");
  }

  // ---- the pod phase and the status ----

  ghost predicate AllAre(cs: seq<ContainerState>, phase: ContainerPhase) {
    forall i :: 0 <= i < |cs| ==> cs[i].phase == phase
  }

  /** The recomputed phase: Succeeded exactly when all containers ended with code 0, Failed
      exactly when all ended and one did not; otherwise as a running, then a starting, then a
      crashing container dictates. */
  lemma PhaseIs(cs: seq<ContainerState>)
    ensures PhaseOf(cs) == PodSucceeded <==>
            AllAre(cs, Terminated) && forall i :: 0 <= i < |cs| ==> cs[i].exitCode == 0
    ensures PhaseOf(cs) == PodFailed <==>
            AllAre(cs, Terminated) && exists i :: 0 <= i < |cs| && cs[i].exitCode != 0
    ensures PhaseOf(cs) == PodPending <==> !AnyIn(cs, Running) && AnyIn(cs, Creating)
    ensures PhaseOf(cs) != NoPhase
  {
    if !AllAre(cs, Terminated) {
      var i :| 0 <= i < |cs| && cs[i].phase != Terminated;
      assert AnyIn(cs, cs[i].phase);
    }
  }

  /** The conversion keeps one of waiting, running and terminated, in that order, and calls a
      payload without any of them a container being created. */
  lemma ConversionMeans(p: StatePayload)
    ensures var q := PayloadToState(p);
            && (p.waiting.Some? ==> q == StatePayload(p.waiting, None, None))
            && (p.waiting.None? && p.running.Some? ==> q == StatePayload(None, p.running, None))
            && (p.waiting.None? && p.running.None? && p.terminated.Some? ==>
                  q == StatePayload(None, None, p.terminated))
            && (p == StatePayload(None, None, None) ==> q == StatePayload(Some("ContainerCreating"), None, None))
  {
  }

  /** What the status says of each container. */
  lemma StatusIs(s: PodState, now: Time, i: nat)
    requires i < |s.containers|
    ensures var st, cv := BuildPodStatus(s, now), s.containers[i];
            && st.hostIP == s.podIP && st.podIP == s.podIP && |st.containers| == |s.containers|
            && st.containers[i] ==
                 ContainerStatus(cv.name, cv.image, cv.ready, cv.restartCount,
                   match cv.phase
                   case Creating => StatePayload(Some("ContainerCreating"), None, None)
                   case Running => StatePayload(None, Some(cv.lastStarted), None)
                   case Terminated =>
                     StatePayload(None, None, Some(Termination(cv.exitCode, cv.exitReason, cv.lastStarted, now)))
                   case CrashLoopBackOff => StatePayload(Some("CrashLoopBackOff"), None, None))
  {
  }
}
