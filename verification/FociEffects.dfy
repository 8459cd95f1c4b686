/** Effects of the per-pod state machine: they describe the new state, and they count restarts. */
module FociEffects {
  import opened Common
  import opened FociState
  import opened FociReduce
  import opened FociRuns
  import Backoff

  // ---- effects describe the result ----

  function UnitsReset(effects: seq<Effect>): seq<string> {
    if effects == [] then []
    else if effects[0].ResetUnit? then [effects[0].container] + UnitsReset(effects[1..])
    else UnitsReset(effects[1..])
  }

  ghost predicate IsQuiet(e: Effect) {
    e.RecordEvent? || e.RestartContainer?
  }

  function Names(cs: seq<ContainerState>): seq<string> {
    seq(|cs|, i requires 0 <= i < |cs| => cs[i].name)
  }

  lemma {:induction false} UnitsResetConcat(a: seq<Effect>, b: seq<Effect>)
    ensures UnitsReset(a + b) == UnitsReset(a) + UnitsReset(b)
  {
    if a == [] {
      assert a + b == b;
    } else {
      assert (a + b)[1..] == a[1..] + b;
      UnitsResetConcat(a[1..], b);
    }
  }

  lemma {:induction false} NoUnitsReset(effects: seq<Effect>)
    requires forall i :: 0 <= i < |effects| ==> !effects[i].ResetUnit?
    ensures UnitsReset(effects) == []
  {
    if effects != [] {
      NoUnitsReset(effects[1..]);
    }
  }

  lemma {:induction false} AllUnitsReset(uid: string, cs: seq<ContainerState>)
    ensures UnitsReset(ResetUnits(uid, cs)) == Names(cs)
  {
    if cs != [] {
      assert ResetUnits(uid, cs)[1..] == ResetUnits(uid, cs[1..]);
      AllUnitsReset(uid, cs[1..]);
      assert Names(cs) == [cs[0].name] + Names(cs[1..]);
    }
  }

  lemma PlanIsQuiet(s: PodState, f: Fact, now: Time)
    requires !f.PodEvictFact?
    ensures forall i :: 0 <= i < |PlanFact(s, f, now).effects| ==> IsQuiet(PlanFact(s, f, now).effects[i])
  {
    if AboutContainer(f) {
      var i := Target(s.containers, f);
      if i != -1 {
        ReactionIsSound(s, s.containers[i], f, now);
        ReactionIsQuiet(s, s.containers[i], React(s, s.containers[i], f, now));
      }
    }
  }

  lemma ReactionIsQuiet(s: PodState, cv: ContainerState, r: Reaction)
    requires Counts(s, cv, r) || r.effects == []
    ensures forall i :: 0 <= i < |r.effects| ==> IsQuiet(r.effects[i])
  {
    if e: Effect :| e in r.effects && !e.RecordEvent? {
      var a, b :| r.effects == a + [RestartOf(s, r.cv)] + b && forall e :: e in a + b ==> e.RecordEvent?;
      forall i | 0 <= i < |r.effects| ensures IsQuiet(r.effects[i]) {
        assert r.effects[i] in a + b || r.effects[i] == RestartOf(s, r.cv);
      }
    }
  }

  ghost predicate Ends(before: PodPhase, s: PodState) {
    Terminal(s.phase) && before != s.phase
  }

  /** What the effects of one step say about the state it leads to. */
  ghost predicate Describes(effects: seq<Effect>, before: PodPhase, s: PodState, now: Time) {
    && (forall e :: e in effects && e.UpdateStatus? ==> e == StatusUpdate(s, now))
    && (forall e :: e in effects && e.SetPodPhase? ==> e == SetPodPhase(s.uid, s.phase))
    && (SetPodPhase(s.uid, s.phase) in effects <==> Ends(before, s))
    && UnitsReset(effects) == (if Ends(before, s) then Names(s.containers) else [])
    && (PersistPodState(s.uid) in effects <==> StatusUpdate(s, now) in effects)
  }

  lemma AnnouncementResets(s: PodState, before: PodPhase)
    ensures UnitsReset(Announcement(s, before)) == if Ends(before, s) then Names(s.containers) else []
  {
    if Ends(before, s) {
      UnitsResetConcat([SetPodPhase(s.uid, s.phase)], ResetUnits(s.uid, s.containers));
      NoUnitsReset([SetPodPhase(s.uid, s.phase)]);
      AllUnitsReset(s.uid, s.containers);
    }
  }

  lemma AnnouncementMembers(s: PodState, before: PodPhase)
    ensures forall e :: e in Announcement(s, before) ==> e.ResetUnit? || e == SetPodPhase(s.uid, s.phase)
    ensures SetPodPhase(s.uid, s.phase) in Announcement(s, before) <==> Ends(before, s)
  {
    if Ends(before, s) {
      assert Announcement(s, before)[0] == SetPodPhase(s.uid, s.phase);
    }
  }

  lemma WrappedResets(quiet: seq<Effect>, first: Effect, middle: seq<Effect>, last: Effect)
    requires forall i :: 0 <= i < |quiet| ==> IsQuiet(quiet[i])
    requires !first.ResetUnit? && !last.ResetUnit?
    ensures UnitsReset(quiet + ([first] + middle + [last])) == UnitsReset(middle)
  {
    NoUnitsReset(quiet);
    NoUnitsReset([first]);
    NoUnitsReset([last]);
    UnitsResetConcat(quiet, [first] + middle + [last]);
    UnitsResetConcat([first] + middle, [last]);
    UnitsResetConcat([first], middle);
  }

  lemma RecomputeDescribes(quiet: seq<Effect>, s: PodState, now: Time)
    requires forall i :: 0 <= i < |quiet| ==> IsQuiet(quiet[i])
    ensures var (s', effects) := RecomputePhase(s, now); Describes(quiet + effects, s.phase, s', now)
  {
    var (s', effects) := RecomputePhase(s, now);
    var first, middle, last := StatusUpdate(s', now), Announcement(s', s.phase), PersistPodState(s'.uid);
    AnnouncementResets(s', s.phase);
    AnnouncementMembers(s', s.phase);
    WrappedResets(quiet, first, middle, last);
    var all := quiet + ([first] + middle + [last]);
    assert forall e :: e in all <==> e in quiet || e == first || e in middle || e == last;
  }

  lemma QuietDescribes(quiet: seq<Effect>, s: PodState, now: Time)
    requires forall i :: 0 <= i < |quiet| ==> IsQuiet(quiet[i])
    ensures Describes(quiet, s.phase, s, now)
  {
    NoUnitsReset(quiet);
  }

  /** For every fact but an eviction: the pod phase is announced, and every unit
      reset, exactly when the phase becomes terminal; every status sent is the
      status of the new state; and state is persisted exactly when status is sent. */
  lemma EffectsDescribeResult(s: PodState, f: Fact, now: Time)
    requires s.uid != "" && StateInv(s) && !f.PodEvictFact?
    ensures Describes(Reduce(s, f, now).1, s.phase, Reduce(s, f, now).0, now)
  {
    var plan := PlanFact(s, f, now);
    PlanKeepsInv(s, f, now);
    PlanIsQuiet(s, f, now);
    if plan.recompute {
      RecomputeDescribes(plan.effects, plan.state, now);
    } else {
      QuietDescribes(plan.effects, plan.state, now);
    }
  }

  /** The status sent out names exactly one of waiting, running and terminated for
      each container, as its phase dictates, and is ready when all containers are. */
  lemma StatusFollowsPhases(s: PodState, now: Time)
    ensures var st := BuildPodStatus(s, now);
            && |st.containers| == |s.containers|
            && st.phase == s.phase
            && (st.ready <==> forall cv :: cv in s.containers ==> cv.ready)
            && forall i :: 0 <= i < |s.containers| ==>
                 var p, phase := PayloadToState(st.containers[i].state), s.containers[i].phase;
                 && p == st.containers[i].state
                 && (p.running.Some? <==> phase == Running)
                 && (p.terminated.Some? <==> phase == Terminated)
                 && (p.waiting.Some? <==> phase == Creating || phase == CrashLoopBackOff)
  {
  }

  // ---- restart accounting ----

  ghost predicate Has(s: PodState, c: string) {
    FindContainer(s.containers, c) != -1
  }

  ghost function Of(s: PodState, c: string): ContainerState
    requires Has(s, c)
  {
    s.containers[FindContainer(s.containers, c)]
  }

  lemma FindAfterUpdate(cs: seq<ContainerState>, i: nat, cv: ContainerState, c: string)
    requires i < |cs| && cv.name == cs[i].name
    ensures FindContainer(cs[i := cv], c) == FindContainer(cs, c)
  {
    var j, j' := FindContainer(cs, c), FindContainer(cs[i := cv], c);
    assert forall k :: 0 <= k < |cs| ==> cs[i := cv][k].name == cs[k].name;
    if j != -1 { assert cs[i := cv][j].name == c; }
    if j' != -1 { assert cs[j'].name == c; }
  }

  /** Between a container's states before and after a step: nothing happened, or one
      restart was requested and counted, with the doubled delay. */
  ghost predicate Accounted(s: PodState, cv: ContainerState, cv': ContainerState, restarts: seq<Effect>) {
    || (restarts == [] && cv'.restartCount == cv.restartCount && cv'.backoff == cv.backoff)
    || (restarts == [RestartOf(s, cv')] && cv'.restartCount == cv.restartCount + 1
        && cv'.backoff == Backoff.Double(cv.backoff))
  }

  lemma ReactionAccounted(s: PodState, cv: ContainerState, r: Reaction, c: string)
    requires Counts(s, cv, r) && r.cv.name == cv.name
    ensures if cv.name == c then Accounted(s, cv, r.cv, RestartsFor(r.effects, c)) else RestartsFor(r.effects, c) == []
  {
    if forall i :: 0 <= i < |r.effects| ==> r.effects[i].RecordEvent? {
      NoRestarts(r.effects, c);
    } else {
      var a, b :| r.effects == a + [RestartOf(s, r.cv)] + b && forall e :: e in a + b ==> e.RecordEvent?;
      assert forall i :: 0 <= i < |a| ==> a[i] in a + b;
      assert forall i :: 0 <= i < |b| ==> b[i] in a + b;
      if cv.name == c {
        OneRestart(a, RestartOf(s, r.cv), b);
      } else {
        forall i | 0 <= i < |r.effects| ensures !r.effects[i].RestartContainer? || r.effects[i].container != c {
          assert r.effects[i] in a + b || r.effects[i] == RestartOf(s, r.cv);
        }
        NoRestarts(r.effects, c);
      }
    }
  }

  lemma RecomputeRestartsNothing(s: PodState, now: Time, c: string)
    ensures RestartsFor(RecomputePhase(s, now).1, c) == []
  {
    NoRestarts(RecomputePhase(s, now).1, c);
  }

  lemma CarriedOver(s: PodState, spec: PodSpec, now: Time, c: string)
    requires Has(s, c) && Has(WithSpec(s, spec, now), c)
    ensures var cv' := Of(WithSpec(s, spec, now), c);
            cv' == Of(s, c).(image := cv'.image)
  {
    var s' := WithSpec(s, spec, now);
    var j := FindContainer(s'.containers, c);
    assert s'.containers[j] == Carried(s.containers, spec.containers[j], now);
    assert s'.containers[j].name == spec.containers[j].name by {
      var i := FindContainer(s.containers, spec.containers[j].name);
    }
  }

  lemma PlanAccounted(s: PodState, f: Fact, now: Time, c: string)
    requires !f.PodEvictFact? && Has(s, c) && Has(PlanFact(s, f, now).state, c)
    requires !(f.BackoffResetFact? && f.container == c)
    ensures var plan := PlanFact(s, f, now);
            Accounted(s, Of(s, c), Of(plan.state, c), RestartsFor(plan.effects, c))
  {
    if !AboutContainer(f) {
      if f.pod.Some? { CarriedOver(s, NewPodSpec(f.pod.value), now, c); }
    } else {
      var i := Target(s.containers, f);
      if i != -1 {
        var cv, r := s.containers[i], React(s, s.containers[i], f, now);
        ReactionIsSound(s, cv, f, now);
        FindAfterUpdate(s.containers, i, r.cv, c);
        if !f.BackoffResetFact? { ReactionAccounted(s, cv, r, c); }
      }
    }
  }

  lemma StepAccounted(s: PodState, x: Input, c: string)
    requires s.uid != "" && StateInv(s) && Has(s, c) && Has(Step(s, x), c)
    requires !(x.fact.BackoffResetFact? && x.fact.container == c)
    ensures Accounted(s, Of(s, c), Of(Step(s, x), c), RestartsFor(Reduce(s, x.fact, x.now).1, c))
  {
    var plan := PlanFact(s, x.fact, x.now);
    PlanAccounted(s, x.fact, x.now, c);
    RecomputeRestartsNothing(plan.state, x.now, c);
    RestartsForConcat(plan.effects, RecomputePhase(plan.state, x.now).1, c);
  }

  /** The container named `c` is there before and after every step of the run. */
  ghost predicate Stays(s: PodState, xs: seq<Input>, c: string)
    decreases |xs|
  {
    Has(s, c) && (xs == [] || Stays(Step(s, xs[0]), xs[1..], c))
  }

  lemma StepStaysTracked(s: PodState, x: Input, c: string)
    requires s.uid != "" && StateInv(s) && Has(Step(s, x), c)
    ensures Step(s, x).uid == s.uid && StateInv(Step(s, x)) && !x.fact.PodEvictFact?
  {
    StepKeepsInv(s, x);
    if !x.fact.PodEvictFact? { PlanKeepsInv(s, x.fact, x.now); }
  }

  lemma ResetAccounted(s: PodState, x: Input, c: string)
    requires s.uid != "" && Has(s, c) && x.fact.BackoffResetFact? && x.fact.container == c
    ensures Has(Step(s, x), c) && Reduce(s, x.fact, x.now).1 == []
    ensures Of(Step(s, x), c) == Of(s, c).(backoff := Backoff.INIT)
  {
    var i := FindContainer(s.containers, c);
    FindAfterUpdate(s.containers, i, s.containers[i].(backoff := Backoff.INIT), c);
  }

  /** Restarts numbered k+1, k+2, ... */
  ghost predicate Numbered(rs: seq<Effect>, k: int) {
    forall i :: 0 <= i < |rs| ==> rs[i].RestartContainer? && rs[i].restartCount == k + 1 + i
  }

  lemma NumberedConcat(a: seq<Effect>, b: seq<Effect>, k: int)
    requires Numbered(a, k) && Numbered(b, k + |a|)
    ensures Numbered(a + b, k)
  {
  }

  /** In every run, the restarts requested for a container that stays in the spec carry
      consecutive counts and number exactly the growth of its restart count. */
  lemma {:induction false} RestartsAreConsecutive(s: PodState, xs: seq<Input>, c: string)
    requires s.uid != "" && StateInv(s) && Stays(s, xs, c)
    ensures Has(Run(s, xs), c)
    ensures var rs := RestartsFor(RunEffects(s, xs), c);
            Numbered(rs, Of(s, c).restartCount) && Of(Run(s, xs), c).restartCount == Of(s, c).restartCount + |rs|
    decreases |xs|
  {
    if xs != [] {
      var x, s1 := xs[0], Step(s, xs[0]);
      StepStaysTracked(s, x, c);
      var here, later := RestartsFor(Reduce(s, x.fact, x.now).1, c), RestartsFor(RunEffects(s1, xs[1..]), c);
      if x.fact.BackoffResetFact? && x.fact.container == c { ResetAccounted(s, x, c); } else { StepAccounted(s, x, c); }
      RestartsAreConsecutive(s1, xs[1..], c);
      NumberedConcat(here, later, Of(s, c).restartCount);
      RestartsForConcat(Reduce(s, x.fact, x.now).1, RunEffects(s1, xs[1..]), c);
    }
  }

  // ---- delays ----

  ghost predicate Resets(x: Input, c: string) {
    x.fact.BackoffResetFact? && x.fact.container == c
  }

  /** The delay of `c` after one fact, as the last reset and the restarts since. */
  ghost function NextSince(s: PodState, x: Input, c: string, since: Backoff.Since): Backoff.Since {
    if Resets(x, c) then Backoff.FROM_RESET
    else Backoff.After(since, |RestartsFor(Reduce(s, x.fact, x.now).1, c)|)
  }

  ghost function SinceReset(s: PodState, xs: seq<Input>, c: string, since: Backoff.Since): Backoff.Since
    decreases |xs|
  {
    if xs == [] then since else SinceReset(Step(s, xs[0]), xs[1..], c, NextSince(s, xs[0], c, since))
  }

  /** Restarts requested by one fact that wait for the next doublings. */
  ghost predicate Delayed(rs: seq<Effect>, since: Backoff.Since) {
    forall i :: 0 <= i < |rs| ==>
      rs[i].RestartContainer? && rs[i].backoff == Backoff.Delay(Backoff.After(since, i + 1))
  }

  /** In a run, every restart of `c` waits for the doublings since the reset before it. */
  ghost predicate AllDelayed(s: PodState, xs: seq<Input>, c: string, since: Backoff.Since)
    decreases |xs|
  {
    xs == [] ||
    (&& Delayed(RestartsFor(Reduce(s, xs[0].fact, xs[0].now).1, c), since)
     && AllDelayed(Step(s, xs[0]), xs[1..], c, NextSince(s, xs[0], c, since)))
  }

  lemma AccountedDelays(s: PodState, cv: ContainerState, cv': ContainerState, rs: seq<Effect>, since: Backoff.Since)
    requires Accounted(s, cv, cv', rs) && cv.backoff == Backoff.Delay(since)
    ensures cv'.backoff == Backoff.Delay(Backoff.After(since, |rs|)) && Delayed(rs, since)
  {
    assert Backoff.Delay(Backoff.After(since, 1)) == Backoff.Double(Backoff.Delay(since));
  }

  lemma StepDelays(s: PodState, x: Input, c: string, since: Backoff.Since)
    requires s.uid != "" && StateInv(s) && Has(s, c) && Has(Step(s, x), c)
    requires Of(s, c).backoff == Backoff.Delay(since) && !Resets(x, c)
    ensures Of(Step(s, x), c).backoff == Backoff.Delay(NextSince(s, x, c, since))
    ensures Delayed(RestartsFor(Reduce(s, x.fact, x.now).1, c), since)
  {
    StepAccounted(s, x, c);
    AccountedDelays(s, Of(s, c), Of(Step(s, x), c), RestartsFor(Reduce(s, x.fact, x.now).1, c), since);
  }

  lemma ResetDelays(s: PodState, x: Input, c: string, since: Backoff.Since)
    requires s.uid != "" && Has(s, c) && Resets(x, c)
    ensures Has(Step(s, x), c) && Of(Step(s, x), c).backoff == Backoff.Delay(NextSince(s, x, c, since))
    ensures Delayed(RestartsFor(Reduce(s, x.fact, x.now).1, c), since)
  {
    ResetAccounted(s, x, c);
  }

  /** In every run, resets included, the delay of a container that stays in the spec is the
      one last set, doubled once for every restart since; and each restart waits for the
      delay that it leads to. */
  lemma {:induction false} DelaysDouble(s: PodState, xs: seq<Input>, c: string, since: Backoff.Since)
    requires s.uid != "" && StateInv(s) && Stays(s, xs, c)
    requires Of(s, c).backoff == Backoff.Delay(since)
    ensures Has(Run(s, xs), c) && Of(Run(s, xs), c).backoff == Backoff.Delay(SinceReset(s, xs, c, since))
    ensures AllDelayed(s, xs, c, since)
    decreases |xs|
  {
    if xs != [] {
      StepStaysTracked(s, xs[0], c);
      if Resets(xs[0], c) { ResetDelays(s, xs[0], c, since); } else { StepDelays(s, xs[0], c, since); }
      DelaysDouble(Step(s, xs[0]), xs[1..], c, NextSince(s, xs[0], c, since));
    }
  }

  lemma {:induction false} BaseIsInitial(s: PodState, xs: seq<Input>, c: string, since: Backoff.Since)
    requires since.base == Backoff.INIT
    ensures SinceReset(s, xs, c, since).base == Backoff.INIT
    decreases |xs|
  {
    if xs != [] { BaseIsInitial(Step(s, xs[0]), xs[1..], c, NextSince(s, xs[0], c, since)); }
  }

  /** From the initial delay on, after n restarts since the last reset the delay is
      min(10s * 2^n, 5min). */
  lemma BackoffIsCappedPower(s: PodState, xs: seq<Input>, c: string)
    requires s.uid != "" && StateInv(s) && Stays(s, xs, c) && Of(s, c).backoff == Backoff.INIT
    ensures Has(Run(s, xs), c)
    ensures var n := SinceReset(s, xs, c, Backoff.FROM_RESET).n;
            Of(Run(s, xs), c).backoff == Min(10_000_000_000 * Pow2(n), 300_000_000_000)
  {
    DelaysDouble(s, xs, c, Backoff.FROM_RESET);
    BaseIsInitial(s, xs, c, Backoff.FROM_RESET);
    Backoff.NthIsCappedPower(SinceReset(s, xs, c, Backoff.FROM_RESET).n);
  }

  /** In particular from the creation of the pod on. */
  lemma NewPodBackoff(uid: string, namespace: string, name: string, podIP: string, pod: Pod, now: Time,
                      xs: seq<Input>, c: string)
    requires uid != "" && Stays(NewPodState(uid, namespace, name, podIP, pod, now), xs, c)
    ensures var s := NewPodState(uid, namespace, name, podIP, pod, now);
            && Has(Run(s, xs), c)
            && Of(Run(s, xs), c).backoff ==
               Min(10_000_000_000 * Pow2(SinceReset(s, xs, c, Backoff.FROM_RESET).n), 300_000_000_000)
  {
    NewPodStateIsOk(uid, namespace, name, podIP, pod, now);
    BackoffIsCappedPower(NewPodState(uid, namespace, name, podIP, pod, now), xs, c);
  }

  lemma {:induction false} RunStaysTracked(s: PodState, xs: seq<Input>, c: string)
    requires s.uid != "" && StateInv(s) && Stays(s, xs, c)
    ensures Run(s, xs).uid == s.uid && StateInv(Run(s, xs))
    decreases |xs|
  {
    if xs != [] {
      StepStaysTracked(s, xs[0], c);
      RunStaysTracked(Step(s, xs[0]), xs[1..], c);
    }
  }

  /** A restart requested after any run waits for the next doubling since the last reset. */
  lemma RestartDelay(s: PodState, xs: seq<Input>, x: Input, c: string, since: Backoff.Since, r: Effect)
    requires s.uid != "" && StateInv(s) && Stays(s, xs, c) && Of(s, c).backoff == Backoff.Delay(since)
    requires Has(Step(Run(s, xs), x), c) && r in RestartsFor(Reduce(Run(s, xs), x.fact, x.now).1, c)
    ensures r.RestartContainer? && r.backoff == Backoff.Delay(Backoff.After(SinceReset(s, xs, c, since), 1))
  {
    DelaysDouble(s, xs, c, since);
    RunStaysTracked(s, xs, c);
    var s' := Run(s, xs);
    if Resets(x, c) {
      ResetAccounted(s', x, c);
    } else {
      StepAccounted(s', x, c);
      AccountedDelays(s', Of(s', c), Of(Step(s', x), c), RestartsFor(Reduce(s', x.fact, x.now).1, c),
                      SinceReset(s, xs, c, since));
    }
  }

  // ---- polling alone ----

  ghost predicate OnlyPolls(xs: seq<Input>, c: string) {
    forall i :: 0 <= i < |xs| ==>
      xs[i].fact.ContainerStateFact? && !(xs[i].fact.container == c && xs[i].fact.state == StateRunning)
  }

  lemma PollReaction(s: PodState, cv: ContainerState, state: MachineState, code: int, now: Time)
    requires state != StateRunning
    ensures var r := OnPoll(s, cv, state, code, now);
            && (cv.restarting ==> r.cv.restarting && r.cv.restartCount == cv.restartCount)
            && (r.cv.restartCount != cv.restartCount ==> r.cv.restarting)
  {
  }

  lemma PollStep(s: PodState, x: Input, c: string)
    requires s.uid != "" && StateInv(s) && Has(s, c)
    requires x.fact.ContainerStateFact? && !(x.fact.container == c && x.fact.state == StateRunning)
    ensures Has(Step(s, x), c)
    ensures var cv, cv' := Of(s, c), Of(Step(s, x), c);
            && (cv.restarting ==> cv'.restarting && cv'.restartCount == cv.restartCount)
            && (cv'.restartCount != cv.restartCount ==> cv'.restarting)
  {
    var i := FindContainer(s.containers, x.fact.container);
    if i != -1 {
      var cv := s.containers[i];
      ReactionIsSound(s, cv, x.fact, x.now);
      FindAfterUpdate(s.containers, i, React(s, cv, x.fact, x.now).cv, c);
      if x.fact.state != StateRunning { PollReaction(s, cv, x.fact.state, x.fact.exitCode, x.now); }
    }
  }

  /** Between two observations of a container running, polling requests at most one
      restart of it, and none while one is outstanding. */
  lemma {:induction false} PollsRestartOnce(s: PodState, xs: seq<Input>, c: string)
    requires s.uid != "" && StateInv(s) && Has(s, c) && OnlyPolls(xs, c)
    ensures |RestartsFor(RunEffects(s, xs), c)| <= if Of(s, c).restarting then 0 else 1
    decreases |xs|
  {
    if xs != [] {
      var x, s1 := xs[0], Step(s, xs[0]);
      PollStep(s, x, c);
      StepStaysTracked(s, x, c);
      StepAccounted(s, x, c);
      PollsRestartOnce(s1, xs[1..], c);
      RestartsForConcat(Reduce(s, x.fact, x.now).1, RunEffects(s1, xs[1..]), c);
    }
  }
}
