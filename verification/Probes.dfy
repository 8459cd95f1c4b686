/**
 Probe thresholds and pacing (node/probes.go): what one result does to the counters of
 a container, and when the next probe of a type is due.
 */
module Probes {
  import opened Common

  const SECOND: Duration := 1_000_000_000

  datatype Result = ProbeSuccess | ProbeFailure | ProbeUnknown

  /** The thresholds of a probe, as the pod gives them. */
  datatype Probe = Probe(successThreshold: int, failureThreshold: int)

  function SuccessThreshold(p: Probe): nat {
    if p.successThreshold <= 0 then 1 else p.successThreshold
  }

  function FailureThreshold(p: Probe): nat {
    if p.failureThreshold <= 0 then 3 else p.failureThreshold
  }

  datatype Counters = Counters(startupPassed: bool, startupFailCount: nat, liveFailCount: nat,
                               readySuccessCount: nat, readyFailCount: nat, ready: bool)

  function Startup(c: Counters, r: Result): Counters {
    match r
    case ProbeSuccess => c.(startupPassed := true, startupFailCount := 0)
    case _ => c.(startupFailCount := c.startupFailCount + 1)
  }

  function Liveness(c: Counters, r: Result): Counters {
    match r
    case ProbeSuccess => c.(liveFailCount := 0)
    case _ => c.(liveFailCount := c.liveFailCount + 1)
  }

  function Readiness(c: Counters, p: Probe, r: Result): Counters {
    match r
    case ProbeSuccess =>
      c.(readyFailCount := 0, readySuccessCount := c.readySuccessCount + 1,
         ready := c.ready || c.readySuccessCount + 1 >= SuccessThreshold(p))
    case _ =>
      c.(readySuccessCount := 0, readyFailCount := c.readyFailCount + 1,
         ready := c.ready && c.readyFailCount + 1 < FailureThreshold(p))
  }

  // ---- pacing ----

  datatype Pacing = Pacing(periodSeconds: int, initialDelaySeconds: int)

  function PeriodSeconds(p: Pacing): (n: nat)
    ensures n > 0
  {
    if p.periodSeconds <= 0 then 10 else p.periodSeconds
  }

  function Period(p: Pacing): Duration {
    PeriodSeconds(p) * SECOND
  }

  function InitialDelay(p: Pacing): Duration {
    p.initialDelaySeconds * SECOND
  }

  type ProbeType = string

  /** The last probe times after a question whether a probe of this type is due: the first
      question of a type invents one, from a drawn jitter in seconds. */
  function Seeded(last: map<ProbeType, Time>, startedAt: Option<Time>, ty: ProbeType, p: Pacing,
                  now: Time, jitter: nat): map<ProbeType, Time>
  {
    if ty in last then last
    else match startedAt
         case Some(start) => last[ty := start + (InitialDelay(p) + jitter * SECOND - Period(p))]
         case None => last[ty := now + (jitter * SECOND - Period(p))]
  }

  /** Is the probe held back by its initial delay? */
  predicate TooEarly(startedAt: Option<Time>, p: Pacing, now: Time) {
    p.initialDelaySeconds > 0 && startedAt.Some? && now - startedAt.value < InitialDelay(p)
  }

  predicate Due(last: map<ProbeType, Time>, startedAt: Option<Time>, ty: ProbeType, p: Pacing,
                now: Time, jitter: nat)
  {
    var seeded := Seeded(last, startedAt, ty, p, now, jitter);
    !TooEarly(startedAt, p, now) && now - seeded[ty] >= Period(p)
  }

  class ContainerProbeState {
    const startedAt: Option<Time>
    var startupPassed: bool
    var startupFailCount: nat
    var liveFailCount: nat
    var readySuccessCount: nat
    var readyFailCount: nat
    var ready: bool
    var lastProbeTime: map<ProbeType, Time>

    ghost function View(): Counters
      reads this
    {
      Counters(startupPassed, startupFailCount, liveFailCount, readySuccessCount, readyFailCount, ready)
    }

    constructor (startedAt: Option<Time>, ready: bool)
      ensures this.startedAt == startedAt && lastProbeTime == map[]
      ensures View() == Counters(false, 0, 0, 0, 0, ready)
    {
      this.startedAt := startedAt;
      this.ready := ready;
      startupPassed, startupFailCount, liveFailCount := false, 0, 0;
      readySuccessCount, readyFailCount, lastProbeTime := 0, 0, map[];
    }

    method EvalStartup(probe: Probe, result: Result) returns (restart: bool)
      modifies this
      ensures View() == Startup(old(View()), result) && lastProbeTime == old(lastProbeTime)
      ensures restart <==> result != ProbeSuccess &&
                           startupFailCount >= (if probe.failureThreshold <= 0 then 3 else probe.failureThreshold)
    {
      if result == ProbeSuccess {
        startupPassed := true;
        startupFailCount := 0;
        return false;
      }
      startupFailCount := startupFailCount + 1;
      var threshold := probe.failureThreshold;
      if threshold <= 0 {
        threshold := 3;
      }
      restart := startupFailCount >= threshold;
    }

    method EvalLiveness(probe: Probe, result: Result) returns (restart: bool)
      modifies this
      ensures View() == Liveness(old(View()), result) && lastProbeTime == old(lastProbeTime)
      ensures restart <==> result != ProbeSuccess &&
                           liveFailCount >= (if probe.failureThreshold <= 0 then 3 else probe.failureThreshold)
    {
      if result == ProbeSuccess {
        liveFailCount := 0;
        return false;
      }
      liveFailCount := liveFailCount + 1;
      var threshold := probe.failureThreshold;
      if threshold <= 0 {
        threshold := 3;
      }
      restart := liveFailCount >= threshold;
    }

    method EvalReadiness(probe: Probe, result: Result)
      modifies this
      ensures View() == Readiness(old(View()), probe, result) && lastProbeTime == old(lastProbeTime)
    {
      if result == ProbeSuccess {
        readyFailCount := 0;
        readySuccessCount := readySuccessCount + 1;
        var successThreshold := probe.successThreshold;
        if successThreshold <= 0 {
          successThreshold := 1;
        }
        if readySuccessCount >= successThreshold {
          ready := true;
        }
        return;
      }
      readySuccessCount := 0;
      readyFailCount := readyFailCount + 1;
      var failThreshold := probe.failureThreshold;
      if failThreshold <= 0 {
        failThreshold := 3;
      }
      if readyFailCount >= failThreshold {
        ready := false;
      }
    }

    method IsDue(ty: ProbeType, p: Pacing, now: Time, jitter: nat) returns (due: bool)
      requires jitter < PeriodSeconds(p)
      modifies this`lastProbeTime
      ensures lastProbeTime == Seeded(old(lastProbeTime), startedAt, ty, p, now, jitter)
      ensures due <==> Due(old(lastProbeTime), startedAt, ty, p, now, jitter)
    {
      var periodSeconds := p.periodSeconds;
      if periodSeconds <= 0 {
        periodSeconds := 10;
      }
      if ty !in lastProbeTime {
        var initialDelay := p.initialDelaySeconds * SECOND;
        if startedAt.Some? {
          var ago := initialDelay + jitter * SECOND - periodSeconds * SECOND;
          lastProbeTime := lastProbeTime[ty := startedAt.value + ago];
        } else {
          lastProbeTime := lastProbeTime[ty := now + (jitter * SECOND - periodSeconds * SECOND)];
        }
      }
      var last := lastProbeTime[ty];
      if p.initialDelaySeconds > 0 && startedAt.Some? {
        if now - startedAt.value < p.initialDelaySeconds * SECOND {
          return false;
        }
      }
      due := now - last >= periodSeconds * SECOND;
    }

    method MarkProbed(ty: ProbeType, now: Time)
      modifies this`lastProbeTime
      ensures lastProbeTime == old(lastProbeTime)[ty := now]
    {
      lastProbeTime := lastProbeTime[ty := now];
    }
  }

  // ---- every sequence of results ----

  /** How many results at the end of the sequence are successes, or are not. */
  ghost function Streak(rs: seq<Result>, ok: bool): nat {
    if rs == [] || rs[|rs| - 1].ProbeSuccess? != ok then 0 else 1 + Streak(rs[..|rs| - 1], ok)
  }

  /** Streak is the length of the longest such suffix. */
  lemma {:induction false} StreakIsSuffix(rs: seq<Result>, ok: bool)
    ensures Streak(rs, ok) <= |rs|
    ensures forall i :: |rs| - Streak(rs, ok) <= i < |rs| ==> rs[i].ProbeSuccess? == ok
    ensures Streak(rs, ok) < |rs| ==> rs[|rs| - 1 - Streak(rs, ok)].ProbeSuccess? != ok
  {
    if rs != [] && rs[|rs| - 1].ProbeSuccess? == ok { StreakIsSuffix(rs[..|rs| - 1], ok); }
  }

  ghost function AfterStartup(c: Counters, rs: seq<Result>): Counters {
    if rs == [] then c else Startup(AfterStartup(c, rs[..|rs| - 1]), rs[|rs| - 1])
  }

  ghost function AfterLiveness(c: Counters, rs: seq<Result>): Counters {
    if rs == [] then c else Liveness(AfterLiveness(c, rs[..|rs| - 1]), rs[|rs| - 1])
  }

  ghost function AfterReadiness(c: Counters, p: Probe, rs: seq<Result>): Counters {
    if rs == [] then c else Readiness(AfterReadiness(c, p, rs[..|rs| - 1]), p, rs[|rs| - 1])
  }

  /** Startup has passed once any result was a success; the count is the failing streak, so
      a restart is asked for exactly when that streak reaches the threshold. */
  lemma {:induction false} StartupCounts(c: Counters, rs: seq<Result>)
    requires c.startupFailCount == 0
    ensures AfterStartup(c, rs).startupFailCount == Streak(rs, false)
    ensures AfterStartup(c, rs).startupPassed <==> c.startupPassed || ProbeSuccess in rs
  {
    if rs != [] {
      StartupCounts(c, rs[..|rs| - 1]);
      assert rs == rs[..|rs| - 1] + [rs[|rs| - 1]];
    }
  }

  lemma {:induction false} LivenessCounts(c: Counters, rs: seq<Result>)
    requires c.liveFailCount == 0
    ensures AfterLiveness(c, rs).liveFailCount == Streak(rs, false)
  {
    if rs != [] { LivenessCounts(c, rs[..|rs| - 1]); }
  }

  lemma {:induction false} ReadinessCounts(c: Counters, p: Probe, rs: seq<Result>)
    requires c.readySuccessCount == 0 && c.readyFailCount == 0
    ensures AfterReadiness(c, p, rs).readySuccessCount == Streak(rs, true)
    ensures AfterReadiness(c, p, rs).readyFailCount == Streak(rs, false)
  {
    if rs != [] { ReadinessCounts(c, p, rs[..|rs| - 1]); }
  }

  /** The first n results end in enough successes, or in enough failures. */
  ghost predicate Passes(p: Probe, rs: seq<Result>, n: nat)
    requires n <= |rs|
  {
    Streak(rs[..n], true) >= if p.successThreshold <= 0 then 1 else p.successThreshold
  }

  ghost predicate Fails(p: Probe, rs: seq<Result>, n: nat)
    requires n <= |rs|
  {
    Streak(rs[..n], false) >= if p.failureThreshold <= 0 then 3 else p.failureThreshold
  }

  /** No failure threshold is reached after the first `from` results. */
  ghost predicate NeverFails(p: Probe, rs: seq<Result>, from: int) {
    forall n :: 0 <= n <= |rs| && from < n ==> !Fails(p, rs, n)
  }

  /** The last threshold that a streak reached was the one of the successes. */
  ghost predicate LastWordReady(ready: bool, p: Probe, rs: seq<Result>) {
    || (ready && NeverFails(p, rs, -1))
    || (exists n :: 0 <= n <= |rs| && Passes(p, rs, n) && NeverFails(p, rs, n))
  }

  /** What is said about the shorter sequence is said about the longer one up to there. */
  lemma SamePrefix(p: Probe, rs: seq<Result>, r: Result, n: nat)
    requires n <= |rs|
    ensures Passes(p, rs + [r], n) == Passes(p, rs, n) && Fails(p, rs + [r], n) == Fails(p, rs, n)
  {
    assert (rs + [r])[..n] == rs[..n];
  }

  lemma NeverFailsGrows(p: Probe, rs: seq<Result>, r: Result, from: int)
    requires from <= |rs|
    ensures NeverFails(p, rs + [r], from) <==> NeverFails(p, rs, from) && !Fails(p, rs + [r], |rs| + 1)
  {
    forall n: nat | n <= |rs| ensures Fails(p, rs + [r], n) == Fails(p, rs, n) { SamePrefix(p, rs, r, n); }
  }

  lemma LastWordGrows(ready: bool, p: Probe, rs: seq<Result>, r: Result)
    ensures LastWordReady(ready, p, rs + [r]) <==>
              Passes(p, rs + [r], |rs| + 1) || (LastWordReady(ready, p, rs) && !Fails(p, rs + [r], |rs| + 1))
  {
    var rs' := rs + [r];
    NeverFailsGrows(p, rs, r, -1);
    forall n: nat | n <= |rs|
      ensures Passes(p, rs', n) == Passes(p, rs, n)
      ensures NeverFails(p, rs', n) <==> NeverFails(p, rs, n) && !Fails(p, rs', |rs'|)
    {
      SamePrefix(p, rs, r, n);
      NeverFailsGrows(p, rs, r, n);
    }
    if Passes(p, rs', |rs'|) { assert NeverFails(p, rs', |rs'|); }
    if n :| 0 <= n <= |rs| && Passes(p, rs, n) && NeverFails(p, rs, n) { assert Passes(p, rs', n); }
  }

  /** For every sequence of results, the container is ready exactly when the last threshold
      reached was the success threshold, or it was ready and no failure threshold was reached. */
  lemma {:induction false} ReadyIsLastWord(c: Counters, p: Probe, rs: seq<Result>)
    requires c.readySuccessCount == 0 && c.readyFailCount == 0
    ensures AfterReadiness(c, p, rs).ready <==> LastWordReady(c.ready, p, rs)
  {
    if rs == [] {
      assert rs[..0] == [];
      assert !Fails(p, rs, 0) && !Passes(p, rs, 0);
    } else {
      var front, r := rs[..|rs| - 1], rs[|rs| - 1];
      assert rs == front + [r] && rs[..|rs|] == rs;
      ReadyIsLastWord(c, p, front);
      ReadinessCounts(c, p, front);
      LastWordGrows(c.ready, p, front, r);
    }
  }

  /** Hysteresis: readiness changes only at the result that makes the streak of such results
      exactly as long as its threshold. */
  lemma ReadyFlipsAtThreshold(c: Counters, p: Probe, rs: seq<Result>, r: Result)
    requires c.readySuccessCount == 0 && c.readyFailCount == 0
    ensures var before, after := AfterReadiness(c, p, rs).ready, AfterReadiness(c, p, rs + [r]).ready;
            && (!before && after ==>
                  Streak(rs + [r], true) == if p.successThreshold <= 0 then 1 else p.successThreshold)
            && (before && !after ==>
                  Streak(rs + [r], false) == if p.failureThreshold <= 0 then 3 else p.failureThreshold)
  {
    assert (rs + [r])[..|rs|] == rs;
    ReadinessCounts(c, p, rs);
    LongStreakIsSettled(c, p, rs);
  }

  lemma LongStreakIsSettled(c: Counters, p: Probe, rs: seq<Result>)
    requires c.readySuccessCount == 0 && c.readyFailCount == 0
    ensures Streak(rs, true) >= SuccessThreshold(p) ==> AfterReadiness(c, p, rs).ready
    ensures Streak(rs, false) >= FailureThreshold(p) ==> !AfterReadiness(c, p, rs).ready
  {
    if rs != [] { ReadinessCounts(c, p, rs[..|rs| - 1]); }
  }

  // ---- every run of questions and marks ----

  datatype Event = Ask(ty: ProbeType, pacing: Pacing, now: Time, jitter: nat) | Mark(ty: ProbeType, now: Time)

  ghost function LastTimes(startedAt: Option<Time>, es: seq<Event>): map<ProbeType, Time> {
    if es == [] then map[]
    else
      var last := LastTimes(startedAt, es[..|es| - 1]);
      match es[|es| - 1]
      case Ask(ty, p, now, jitter) => Seeded(last, startedAt, ty, p, now, jitter)
      case Mark(ty, now) => last[ty := now]
  }

  /** The answer to a question asked after the run. */
  ghost predicate Answer(startedAt: Option<Time>, es: seq<Event>, ask: Event)
    requires ask.Ask?
  {
    Due(LastTimes(startedAt, es), startedAt, ask.ty, ask.pacing, ask.now, ask.jitter)
  }

  /** When the last mark of this type was made. */
  ghost function LastMark(es: seq<Event>, ty: ProbeType): Option<Time> {
    if es == [] then None
    else if es[|es| - 1].Mark? && es[|es| - 1].ty == ty then Some(es[|es| - 1].now)
    else LastMark(es[..|es| - 1], ty)
  }

  /** The first question about this type. */
  ghost function FirstAsk(es: seq<Event>, ty: ProbeType): (r: Option<Event>)
    ensures r.Some? ==> r.value.Ask?
  {
    if es == [] then None
    else if es[0].Ask? && es[0].ty == ty then Some(es[0])
    else FirstAsk(es[1..], ty)
  }

  /** Every question about this type has this pacing, and its jitter is below the period. */
  ghost predicate Paced(es: seq<Event>, ty: ProbeType, p: Pacing) {
    forall i :: 0 <= i < |es| && es[i].Ask? && es[i].ty == ty ==>
      es[i].pacing == p && es[i].jitter < PeriodSeconds(p)
  }

  /** The period and the initial delay that the pod asks for, in nanoseconds. */
  function PeriodAsked(p: Pacing): Duration {
    (if p.periodSeconds <= 0 then 10 else p.periodSeconds) * 1_000_000_000
  }

  function DelayAsked(p: Pacing): Duration {
    p.initialDelaySeconds * 1_000_000_000
  }

  /** When the next probe of a type is due: one period after the last mark; before any mark,
      the jitter of the first question after the initial delay. */
  ghost function NextDue(startedAt: Option<Time>, es: seq<Event>, ty: ProbeType, p: Pacing): Option<Time> {
    match LastMark(es, ty)
    case Some(mark) => Some(mark + PeriodAsked(p))
    case None =>
      match FirstAsk(es, ty)
      case None => None
      case Some(ask) =>
        Some((if startedAt.Some? then startedAt.value + DelayAsked(p) else ask.now) + ask.jitter * 1_000_000_000)
  }

  lemma {:induction false} FirstAskGrows(es: seq<Event>, e: Event, ty: ProbeType)
    ensures FirstAsk(es + [e], ty) ==
            if FirstAsk(es, ty).Some? then FirstAsk(es, ty)
            else if e.Ask? && e.ty == ty then Some(e) else None
  {
    if es == [] {
      assert (es + [e])[1..] == [];
    } else {
      assert (es + [e])[1..] == es[1..] + [e];
      FirstAskGrows(es[1..], e, ty);
    }
  }

  lemma {:induction false} FirstAskIsAsk(es: seq<Event>, ty: ProbeType)
    ensures FirstAsk(es, ty).Some? ==> FirstAsk(es, ty).value.Ask? && FirstAsk(es, ty).value in es
    ensures FirstAsk(es, ty).Some? ==> FirstAsk(es, ty).value.ty == ty
  {
    if es != [] { FirstAskIsAsk(es[1..], ty); }
  }

  /** The stored time is one period before the next due time. */
  ghost predicate Stored(startedAt: Option<Time>, last: map<ProbeType, Time>, es: seq<Event>,
                         ty: ProbeType, p: Pacing)
  {
    if ty in last then NextDue(startedAt, es, ty, p) == Some(last[ty] + Period(p))
    else LastMark(es, ty) == None && FirstAsk(es, ty) == None
  }

  lemma StoredAfterMark(startedAt: Option<Time>, last: map<ProbeType, Time>, es: seq<Event>, e: Event,
                        ty: ProbeType, p: Pacing)
    requires Stored(startedAt, last, es, ty, p) && e.Mark?
    ensures Stored(startedAt, last[e.ty := e.now], es + [e], ty, p)
  {
    assert (es + [e])[..|es|] == es;
    FirstAskGrows(es, e, ty);
  }

  lemma StoredAfterAsk(startedAt: Option<Time>, last: map<ProbeType, Time>, es: seq<Event>, e: Event,
                       ty: ProbeType, p: Pacing)
    requires Stored(startedAt, last, es, ty, p) && e.Ask? && (e.ty == ty ==> e.pacing == p)
    ensures Stored(startedAt, Seeded(last, startedAt, e.ty, e.pacing, e.now, e.jitter), es + [e], ty, p)
  {
    assert (es + [e])[..|es|] == es;
    FirstAskGrows(es, e, ty);
  }

  lemma {:induction false} StoredTime(startedAt: Option<Time>, es: seq<Event>, ty: ProbeType, p: Pacing)
    requires Paced(es, ty, p)
    ensures Stored(startedAt, LastTimes(startedAt, es), es, ty, p)
  {
    if es != [] {
      var front, e := es[..|es| - 1], es[|es| - 1];
      assert es == front + [e];
      StoredTime(startedAt, front, ty, p);
      if e.Mark? {
        StoredAfterMark(startedAt, LastTimes(startedAt, front), front, e, ty, p);
      } else {
        StoredAfterAsk(startedAt, LastTimes(startedAt, front), front, e, ty, p);
      }
    }
  }

  /** For every run, a probe is due exactly from its due time on, unless the initial delay
      still holds it back. */
  lemma DueIff(startedAt: Option<Time>, es: seq<Event>, ask: Event, p: Pacing)
    requires ask.Ask? && Paced(es + [ask], ask.ty, p)
    ensures var next := NextDue(startedAt, es + [ask], ask.ty, p);
            && next.Some?
            && (Answer(startedAt, es, ask) <==>
                  && next.value <= ask.now
                  && (p.initialDelaySeconds > 0 && startedAt.Some? ==> startedAt.value + DelayAsked(p) <= ask.now))
  {
    var es' := es + [ask];
    assert es'[..|es'| - 1] == es && es'[|es'| - 1] == ask;
    StoredTime(startedAt, es', ask.ty, p);
  }

  /** With a known start time, the first probe of a type never comes before start plus
      initial delay, and a later one is at least a period after the last mark. */
  lemma FirstProbeKeepsDelay(start: Time, es: seq<Event>, ask: Event, p: Pacing)
    requires ask.Ask? && Paced(es + [ask], ask.ty, p) && Answer(Some(start), es, ask)
    ensures p.initialDelaySeconds > 0 || LastMark(es, ask.ty).None? ==> ask.now >= start + DelayAsked(p)
    ensures LastMark(es, ask.ty).Some? ==> ask.now >= LastMark(es, ask.ty).value + PeriodAsked(p)
  {
    var es' := es + [ask];
    assert es'[..|es'| - 1] == es && es'[|es'| - 1] == ask;
    DueIff(Some(start), es, ask, p);
    FirstAskIsAsk(es', ask.ty);
  }
}
