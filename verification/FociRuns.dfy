/** What holds over every run of the per-pod state machine. */
module FociRuns {
  import opened Common
  import opened FociState
  import opened FociReduce
  import Backoff

  // ---- invariants ----

  ghost predicate ContainerOk(cv: ContainerState) {
    cv.phase == Running ==> cv.seenRunning && !cv.restarting
  }

  /** Container states are indexed like the spec. */
  ghost predicate Aligned(s: PodState) {
    && |s.containers| == |s.spec.containers|
    && forall i :: 0 <= i < |s.containers| ==>
         s.containers[i].name == s.spec.containers[i].name && s.containers[i].image == s.spec.containers[i].image
  }

  ghost predicate StateInv(s: PodState) {
    Aligned(s) && forall i :: 0 <= i < |s.containers| ==> ContainerOk(s.containers[i])
  }

  /** A plan leaves everything but the spec and the containers alone. */
  ghost predicate SamePod(s: PodState, s': PodState) {
    s' == s.(spec := s'.spec, containers := s'.containers)
  }

  // ---- restarts among effects ----

  function RestartsFor(effects: seq<Effect>, c: string): seq<Effect> {
    if effects == [] then []
    else if effects[0].RestartContainer? && effects[0].container == c then [effects[0]] + RestartsFor(effects[1..], c)
    else RestartsFor(effects[1..], c)
  }

  lemma {:induction false} RestartsForConcat(a: seq<Effect>, b: seq<Effect>, c: string)
    ensures RestartsFor(a + b, c) == RestartsFor(a, c) + RestartsFor(b, c)
  {
    if a == [] {
      assert a + b == b;
    } else {
      assert (a + b)[1..] == a[1..] + b;
      RestartsForConcat(a[1..], b, c);
    }
  }

  lemma {:induction false} NoRestarts(effects: seq<Effect>, c: string)
    requires forall i :: 0 <= i < |effects| ==> !effects[i].RestartContainer? || effects[i].container != c
    ensures RestartsFor(effects, c) == []
  {
    if effects != [] {
      NoRestarts(effects[1..], c);
    }
  }

  lemma OneRestart(a: seq<Effect>, e: Effect, b: seq<Effect>)
    requires e.RestartContainer?
    requires forall i :: 0 <= i < |a| ==> !a[i].RestartContainer?
    requires forall i :: 0 <= i < |b| ==> !b[i].RestartContainer?
    ensures RestartsFor(a + [e] + b, e.container) == [e]
  {
    var c := e.container;
    NoRestarts(a, c);
    NoRestarts(b, c);
    RestartsForConcat(a, [e], c);
    RestartsForConcat(a + [e], b, c);
    assert [e][1..] == [];
  }

  // ---- one reaction ----

  ghost predicate Keeps(cv: ContainerState, cv': ContainerState) {
    cv'.name == cv.name && cv'.image == cv.image && (ContainerOk(cv) ==> ContainerOk(cv'))
  }

  /** Either nothing is restarted and nothing counted, or one restart is
      requested with the new count and the new delay. */
  ghost predicate Counts(s: PodState, cv: ContainerState, r: Reaction) {
    || (&& (forall i :: 0 <= i < |r.effects| ==> r.effects[i].RecordEvent?)
        && r.cv.restartCount == cv.restartCount && r.cv.backoff == cv.backoff)
    || (&& (exists a, b :: r.effects == a + [RestartOf(s, r.cv)] + b && |a| + |b| <= 1 &&
             forall e :: e in a + b ==> e.RecordEvent?)
        && r.cv.restartCount == cv.restartCount + 1 && r.cv.backoff == Backoff.Double(cv.backoff))
  }

  ghost predicate Sound(s: PodState, cv: ContainerState, r: Reaction) {
    Keeps(cv, r.cv) && Counts(s, cv, r) && (r.recompute || r.cv.phase == cv.phase)
  }

  /** A reaction that restarts: the container is bumped and the request is among events. */
  lemma BumpCounts(s: PodState, cv: ContainerState, down: ContainerState, a: seq<Effect>, b: seq<Effect>, r: Reaction)
    requires r.cv == Bumped(down) && r.effects == a + [RestartOf(s, Bumped(down))] + b && |a| + |b| <= 1
    requires down.restartCount == cv.restartCount && down.backoff == cv.backoff
    requires forall i :: 0 <= i < |a| ==> a[i].RecordEvent?
    requires forall i :: 0 <= i < |b| ==> b[i].RecordEvent?
    ensures Counts(s, cv, r)
  {
    assert forall e :: e in a + b ==> e.RecordEvent?;
  }

  lemma UnitFailedIsSound(s: PodState, cv: ContainerState, code: int)
    ensures Sound(s, cv, UnitFailed(s, cv, code))
  {
    var r := UnitFailed(s, cv, code);
    var event := if cv.phase != CrashLoopBackOff then [FailedEvent(s, cv, code)] else [];
    if ShouldRestart(s.spec.restartPolicy, code) {
      assert r.effects == event + [RestartOf(s, r.cv)] + [];
      BumpCounts(s, cv, cv.(phase := CrashLoopBackOff, exitCode := code), event, [], r);
    }
  }

  lemma OnUnitIsSound(s: PodState, cv: ContainerState, subState: SubState, code: int, now: Time)
    ensures Sound(s, cv, OnUnit(s, cv, subState, code, now))
  {
    UnitFailedIsSound(s, cv, code);
  }

  lemma DownEventIsOne(s: PodState, cv: ContainerState, failed: bool, code: int)
    ensures |DownEvent(s, cv, failed, code)| <= 1
    ensures forall i :: 0 <= i < |DownEvent(s, cv, failed, code)| ==> DownEvent(s, cv, failed, code)[i].RecordEvent?
  {
  }

  lemma PolledDownIsSound(s: PodState, cv: ContainerState, failed: bool, code: int)
    ensures Sound(s, cv, PolledDown(s, cv, failed, code))
  {
    var r, event := PolledDown(s, cv, failed, code), DownEvent(s, cv, failed, code);
    DownEventIsOne(s, cv, failed, code);
    if r.effects != event {
      assert r.effects == [] + [RestartOf(s, r.cv)] + event;
      BumpCounts(s, cv, cv.(exitCode := code, phase := CrashLoopBackOff), [], event, r);
    }
  }

  /** Only a clock that moves by more than ten minutes within one poll makes the poll
      handler reset a delay; how long the container has been running plays no part. */
  lemma PollResetsIff(cv: ContainerState, now: Time, again: Time)
    requires cv.backoff != Backoff.INIT
    ensures PolledUp(cv, now, again).backoff == Backoff.INIT <==> again - now > 600_000_000_000
    ensures PolledUp(cv, now, now) == NowRunning(cv, now)
  {
  }

  lemma OnPollIsSound(s: PodState, cv: ContainerState, state: MachineState, code: int, now: Time)
    ensures Sound(s, cv, OnPoll(s, cv, state, code, now))
  {
    PolledDownIsSound(s, cv, true, code);
    PolledDownIsSound(s, cv, false, code);
  }

  lemma OnExitIsSound(s: PodState, cv: ContainerState, code: int, reason: string, willRestart: bool)
    requires cv.seenRunning
    ensures Sound(s, cv, OnExit(s, cv, code, reason, willRestart))
  {
    var r := OnExit(s, cv, code, reason, willRestart);
    if willRestart {
      assert r.effects == [] + [RestartOf(s, r.cv)] + [];
      BumpCounts(s, cv, cv.(phase := CrashLoopBackOff), [], [], r);
    }
  }

  lemma OnProbeIsSound(s: PodState, cv: ContainerState, probeType: string, ready: bool, startupPassed: bool)
    ensures Sound(s, cv, OnProbe(s, cv, probeType, ready, startupPassed))
  {
  }

  ghost predicate PutOff(cv: ContainerState, f: Fact) {
    f.ExitFact? && !cv.seenRunning
  }

  /** What a reaction may be: a reset, a put-off exit, or a sound one. */
  ghost predicate Proper(s: PodState, cv: ContainerState, f: Fact, r: Reaction) {
    if f.BackoffResetFact? then r == Reaction(cv.(backoff := Backoff.INIT), [], false)
    else if PutOff(cv, f) then r == Reaction(cv.(phase := Creating), [], false)
    else Sound(s, cv, r)
  }

  lemma ExitIsProper(s: PodState, cv: ContainerState, f: Fact, now: Time)
    requires f.ExitFact?
    ensures Proper(s, cv, f, React(s, cv, f, now))
  {
    if cv.seenRunning { OnExitIsSound(s, cv, f.exitCode, f.reason, f.willRestart); }
  }

  lemma ReactionIsSound(s: PodState, cv: ContainerState, f: Fact, now: Time)
    requires AboutContainer(f)
    ensures Proper(s, cv, f, React(s, cv, f, now))
  {
    match f
    case UnitFact(_, _, subState, code) => OnUnitIsSound(s, cv, SubStateOf(subState), code, now);
    case ContainerStateFact(_, _, state, code) => OnPollIsSound(s, cv, state, code, now);
    case ExitFact(_, _, _, _, _) => ExitIsProper(s, cv, f, now);
    case ProbeFact(_, _, probeType, ready, startupPassed) => OnProbeIsSound(s, cv, probeType, ready, startupPassed);
    case _ =>
  }

  lemma PlanKeepsInv(s: PodState, f: Fact, now: Time)
    requires StateInv(s) && !f.PodEvictFact?
    ensures var s' := PlanFact(s, f, now).state; StateInv(s') && SamePod(s, s')
  {
    if AboutContainer(f) {
      var i := Target(s.containers, f);
      if i != -1 { ReactionIsSound(s, s.containers[i], f, now); }
    }
  }

  // ---- runs ----

  datatype Input = Input(fact: Fact, now: Time)

  function Step(s: PodState, x: Input): PodState {
    Reduce(s, x.fact, x.now).0
  }

  function Run(s: PodState, xs: seq<Input>): PodState
    decreases |xs|
  {
    if xs == [] then s else Run(Step(s, xs[0]), xs[1..])
  }

  function RunEffects(s: PodState, xs: seq<Input>): seq<Effect>
    decreases |xs|
  {
    if xs == [] then [] else Reduce(s, xs[0].fact, xs[0].now).1 + RunEffects(Step(s, xs[0]), xs[1..])
  }

  lemma StepKeepsInv(s: PodState, x: Input)
    requires StateInv(s)
    ensures StateInv(Step(s, x))
  {
    if s.uid != "" && !x.fact.PodEvictFact? {
      PlanKeepsInv(s, x.fact, x.now);
    }
  }

  lemma NewPodStateIsOk(uid: string, namespace: string, name: string, podIP: string, pod: Pod, now: Time)
    ensures var s := NewPodState(uid, namespace, name, podIP, pod, now);
            StateInv(s) && (pod.containers != [] ==> Agrees(s.phase, s.containers))
  {
    var s := NewPodState(uid, namespace, name, podIP, pod, now);
    if pod.containers != [] { assert s.containers[0].phase == Creating; }
  }

  /** In every run the containers stay aligned with the spec, and a container is in
      phase Running only if it was seen running and no restart is outstanding. */
  lemma {:induction false} RunKeepsInv(s: PodState, xs: seq<Input>)
    requires StateInv(s)
    ensures StateInv(Run(s, xs))
    decreases |xs|
  {
    if xs != [] {
      StepKeepsInv(s, xs[0]);
      RunKeepsInv(Step(s, xs[0]), xs[1..]);
    }
  }

  // ---- the cached phase ----

  lemma PhaseOfAgrees(cs: seq<ContainerState>)
    ensures Agrees(PhaseOf(cs), cs)
  {
  }

  lemma SamePhasesAgree(phase: PodPhase, cs: seq<ContainerState>, cs': seq<ContainerState>)
    requires |cs| == |cs'| && forall i :: 0 <= i < |cs| ==> cs'[i].phase == cs[i].phase
    ensures Agrees(phase, cs') <==> Agrees(phase, cs)
  {
    assert forall p :: AnyIn(cs', p) <==> AnyIn(cs, p);
  }

  /** The exit of a container never seen running sends it back to Creating without
      recomputing the pod phase.  That shows exactly when the container had left
      Creating and no container is running or being created. */
  ghost predicate SilentExit(s: PodState, f: Fact) {
    f.ExitFact? &&
    var i := FindContainer(s.containers, f.container);
    && i != -1
    && !s.containers[i].seenRunning
    && s.containers[i].phase != Creating
    && !AnyIn(s.containers, Running)
    && !AnyIn(s.containers, Creating)
  }

  lemma PutOffAgreesIff(s: PodState, i: nat)
    requires StateInv(s) && Agrees(s.phase, s.containers) && i < |s.containers| && !s.containers[i].seenRunning
    ensures Agrees(s.phase, s.containers[i := s.containers[i].(phase := Creating)]) <==>
            s.containers[i].phase == Creating || AnyIn(s.containers, Running) || AnyIn(s.containers, Creating)
  {
    var cs := s.containers[i := s.containers[i].(phase := Creating)];
    assert cs[i].phase == Creating;
    assert AnyIn(cs, Creating);
    forall j | 0 <= j < |cs| && s.containers[j].phase == Running ensures cs[j].phase == Running {
      assert ContainerOk(s.containers[j]);
    }
    assert forall j :: 0 <= j < |cs| && cs[j].phase == Running ==> s.containers[j].phase == Running;
    assert AnyIn(cs, Running) <==> AnyIn(s.containers, Running);
  }

  /** A step keeps the cached pod phase in agreement with the container phases,
      except for a silent exit, which always breaks it. */
  lemma StepAgreesIff(s: PodState, x: Input)
    requires s.uid != "" && StateInv(s) && Agrees(s.phase, s.containers) && !x.fact.PodEvictFact?
    ensures Agrees(Step(s, x).phase, Step(s, x).containers) <==> !SilentExit(s, x.fact)
  {
    var plan := PlanFact(s, x.fact, x.now);
    PhaseOfAgrees(plan.state.containers);
    PlanKeepsInv(s, x.fact, x.now);
    if AboutContainer(x.fact) {
      var i := Target(s.containers, x.fact);
      if i != -1 {
        var cv := s.containers[i];
        ReactionIsSound(s, cv, x.fact, x.now);
        if PutOff(cv, x.fact) {
          PutOffAgreesIff(s, i);
        } else if !plan.recompute {
          SamePhasesAgree(s.phase, s.containers, plan.state.containers);
        }
      }
    }
  }

  ghost predicate NoSilentExit(s: PodState, xs: seq<Input>)
    decreases |xs|
  {
    xs == [] || (!SilentExit(s, xs[0].fact) && !xs[0].fact.PodEvictFact? && NoSilentExit(Step(s, xs[0]), xs[1..]))
  }

  lemma {:induction false} CachedPhaseAgrees(s: PodState, xs: seq<Input>)
    requires s.uid != "" && StateInv(s) && Agrees(s.phase, s.containers) && NoSilentExit(s, xs)
    ensures Agrees(Run(s, xs).phase, Run(s, xs).containers)
    decreases |xs|
  {
    if xs != [] {
      StepAgreesIff(s, xs[0]);
      StepKeepsInv(s, xs[0]);
      PlanKeepsInv(s, xs[0].fact, xs[0].now);
      CachedPhaseAgrees(Step(s, xs[0]), xs[1..]);
    }
  }

  /** The silent exit is reachable: a container that fails before it is seen running
      and then reports its exit is being created again in a pod that still says Running. */
  lemma SilentExitHappens(c: PodContainer, t: Time)
    ensures var s := NewPodState("u", "ns", "p", "", Pod(Always, [c]), t);
            var xs := [Input(ContainerStateFact("u", c.name, StateFailed, 1), t),
                       Input(ExitFact("u", c.name, 1, "", false), t)];
            Run(s, xs).phase == PodRunning && |Run(s, xs).containers| == 1 && Run(s, xs).containers[0].phase == Creating
  {
    var s := NewPodState("u", "ns", "p", "", Pod(Always, [c]), t);
    var x := Input(ContainerStateFact("u", c.name, StateFailed, 1), t);
    var y := Input(ExitFact("u", c.name, 1, "", false), t);
    var s1 := Step(s, x);
    assert s.containers[0].name == c.name && s.spec.restartPolicy == Always;
    assert |s1.containers| == 1 && s1.containers[0].phase == CrashLoopBackOff && s1.containers[0].name == c.name;
    assert s1.phase == PodRunning && s1.uid == "u";
    assert Run(s, [x, y]) == Run(s1, [y]) by { assert [x, y][1..] == [y]; }
    assert Run(s1, [y]) == Step(s1, y) by { assert [y][1..] == []; }
  }
}
