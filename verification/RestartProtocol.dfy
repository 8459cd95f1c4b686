/**
 maybeRestart of node/batchwatcher.go step by step.  Probes run concurrently, so
 several calls for one container may overlap; each takes the restarting lock, then
 the store's lock, then starts a goroutine that gives the key back when it ends.
 */
module RestartProtocol {
  import opened Common
  import opened Watcher
  import Backoff
  import FociState
  import FociReduce
  import FociRuns
  import FociEffects

  datatype Thread =
    | Asking(key: string)                               // before the restarting lock
    | Claimed(key: string)                              // has marked the key as restarting
    | Refused(key: string)                              // the store did not know the container
    | Restarting(key: string, count: nat, delay: Duration)   // the restart goroutine
    | Ended

  predicate Owns(t: Thread) {
    t.Claimed? || t.Refused? || t.Restarting?
  }

  datatype World = World(restarting: set<string>, restarts: map<string, Restart>, threads: seq<Thread>)

  datatype Event =
    | Ask(key: string)
    | Claim(t: nat)
    | Bump(t: nat)
    | GiveBack(t: nat)
    | ResetBackoff(key: string)
    | SetRecord(key: string, record: Option<Restart>)    // pod registered, removed or patched from disk

  predicate Enabled(w: World, e: Event) {
    match e
    case Ask(_) => true
    case Claim(t) => t < |w.threads| && w.threads[t].Asking?
    case Bump(t) => t < |w.threads| && w.threads[t].Claimed?
    case GiveBack(t) => t < |w.threads| && (w.threads[t].Refused? || w.threads[t].Restarting?)
    case ResetBackoff(_) => true
    case SetRecord(_, _) => true
  }

  function Apply(w: World, e: Event): World
    requires Enabled(w, e)
  {
    match e
    case Ask(key) => w.(threads := w.threads + [Asking(key)])
    case Claim(t) =>
      var key := w.threads[t].key;
      if key in w.restarting then w.(threads := w.threads[t := Ended])
      else w.(restarting := w.restarting + {key}, threads := w.threads[t := Claimed(key)])
    case Bump(t) =>
      var key := w.threads[t].key;
      if key !in w.restarts then w.(threads := w.threads[t := Refused(key)])
      else
        var r := w.restarts[key];
        w.(restarts := w.restarts[key := Bumped(r)], threads := w.threads[t := Restarting(key, r.count + 1, r.backoff)])
    case GiveBack(t) => w.(restarting := w.restarting - {w.threads[t].key}, threads := w.threads[t := Ended])
    case ResetBackoff(key) =>
      if key in w.restarts then w.(restarts := w.restarts[key := w.restarts[key].(backoff := Backoff.INIT)]) else w
    case SetRecord(key, record) =>
      w.(restarts := if record.Some? then w.restarts[key := record.value] else w.restarts - {key})
  }

  ghost predicate ValidRun(w: World, es: seq<Event>)
    decreases |es|
  {
    es == [] || (Enabled(w, es[0]) && ValidRun(Apply(w, es[0]), es[1..]))
  }

  ghost function Final(w: World, es: seq<Event>): World
    requires ValidRun(w, es)
    decreases |es|
  {
    if es == [] then w else Final(Apply(w, es[0]), es[1..])
  }

  // ---- one restart at a time ----

  ghost function Owned(threads: seq<Thread>): set<string> {
    set t | 0 <= t < |threads| && Owns(threads[t]) :: threads[t].key
  }

  ghost predicate Exclusive(threads: seq<Thread>) {
    forall t, u :: 0 <= t < u < |threads| && Owns(threads[t]) && Owns(threads[u]) ==> threads[t].key != threads[u].key
  }

  /** The restarting keys are the owned ones, and each has one owner. */
  ghost predicate Inv(w: World) {
    w.restarting == Owned(w.threads) && Exclusive(w.threads)
  }

  lemma ThreadChanges(threads: seq<Thread>, t: nat, to: Thread)
    requires t < |threads| && Exclusive(threads)
    requires Owns(to) ==> (if Owns(threads[t]) then to.key == threads[t].key else to.key !in Owned(threads))
    ensures Exclusive(threads[t := to])
    ensures Owned(threads[t := to]) ==
            Owned(threads) - (if Owns(threads[t]) then {threads[t].key} else {}) + (if Owns(to) then {to.key} else {})
  {
    var ts := threads[t := to];
    forall k | k in Owned(threads) && !(Owns(threads[t]) && threads[t].key == k) ensures k in Owned(ts) {
      var u :| 0 <= u < |threads| && Owns(threads[u]) && threads[u].key == k;
      assert ts[u] == threads[u];
    }
    forall u | 0 <= u < |ts| && u != t && Owns(ts[u])
      ensures ts[u].key in Owned(threads) && !(Owns(threads[t]) && threads[t].key == ts[u].key)
    {
      assert ts[u] == threads[u];
    }
    if Owns(to) { assert ts[t].key in Owned(ts); }
  }

  lemma NewThread(threads: seq<Thread>, key: string)
    requires Exclusive(threads)
    ensures Exclusive(threads + [Asking(key)]) && Owned(threads + [Asking(key)]) == Owned(threads)
  {
    var ts := threads + [Asking(key)];
    forall u | 0 <= u < |threads| && Owns(threads[u]) ensures threads[u].key in Owned(ts) {
      assert ts[u] == threads[u];
    }
  }

  lemma StepKeepsInv(w: World, e: Event)
    requires Inv(w) && Enabled(w, e)
    ensures Inv(Apply(w, e))
  {
    match e
    case Ask(key) => NewThread(w.threads, key);
    case Claim(t) => ThreadChanges(w.threads, t, Apply(w, e).threads[t]);
    case Bump(t) =>
      ThreadChanges(w.threads, t, Apply(w, e).threads[t]);
      assert w.threads[t].key in Owned(w.threads);
    case GiveBack(t) => ThreadChanges(w.threads, t, Ended);
    case _ =>
  }

  /** In every interleaving no container has two restart goroutines (or two claims) at once. */
  lemma {:induction false} OneRestartAtATime(w: World, es: seq<Event>)
    requires Inv(w) && ValidRun(w, es)
    ensures Inv(Final(w, es))
    decreases |es|
  {
    if es != [] {
      StepKeepsInv(w, es[0]);
      OneRestartAtATime(Apply(w, es[0]), es[1..]);
    }
  }

  /** In particular from the start of the watcher, whatever the store holds. */
  lemma NoOverlapFromStart(restarts: map<string, Restart>, es: seq<Event>, t: nat, u: nat)
    requires ValidRun(World({}, restarts, []), es)
    requires var ts := Final(World({}, restarts, []), es).threads;
             t < u < |ts| && Owns(ts[t]) && Owns(ts[u])
    ensures var w := Final(World({}, restarts, []), es);
            && w.threads[t].key != w.threads[u].key
            && w.threads[t].key in w.restarting && w.threads[u].key in w.restarting
  {
    OneRestartAtATime(World({}, restarts, []), es);
  }

  // ---- every goroutine counts once ----

  /** Does this step leave a new restart goroutine of `k`? */
  ghost predicate Starts(w: World, e: Event, k: string)
    requires Enabled(w, e)
  {
    e.Bump? && Apply(w, e).threads[e.t].Restarting? && Apply(w, e).threads[e.t].key == k
  }

  /** The goroutine that the step leaves. */
  ghost function Goroutine(w: World, e: Event, k: string): Thread
    requires Enabled(w, e) && Starts(w, e, k)
    ensures Goroutine(w, e, k).Restarting?
  {
    Apply(w, e).threads[e.t]
  }

  /** The restart goroutines of `k` started in a run, in order. */
  ghost function Started(w: World, es: seq<Event>, k: string): (ts: seq<Thread>)
    requires ValidRun(w, es)
    ensures forall i :: 0 <= i < |ts| ==> ts[i].Restarting? && ts[i].key == k
    decreases |es|
  {
    if es == [] then []
    else
      var rest := Started(Apply(w, es[0]), es[1..], k);
      if Starts(w, es[0], k) then [Goroutine(w, es[0], k)] + rest else rest
  }

  ghost predicate NotReplaced(es: seq<Event>, k: string) {
    forall i :: 0 <= i < |es| ==> !(es[i].SetRecord? && es[i].key == k)
  }

  ghost predicate Counted(ts: seq<Thread>, from: nat) {
    forall i :: 0 <= i < |ts| ==> ts[i].Restarting? && ts[i].count == from + 1 + i
  }

  /** While the store keeps a container's record, its restart goroutines carry the
      counts n+1, n+2, ... and the record has counted exactly those. */
  lemma {:induction false} GoroutinesMatchCounts(w: World, es: seq<Event>, k: string)
    requires ValidRun(w, es) && NotReplaced(es, k) && k in w.restarts
    ensures var ts, w' := Started(w, es, k), Final(w, es);
            k in w'.restarts && Counted(ts, w.restarts[k].count) && w'.restarts[k].count == w.restarts[k].count + |ts|
    decreases |es|
  {
    if es != [] {
      GoroutinesMatchCounts(Apply(w, es[0]), es[1..], k);
    }
  }

  /** A goroutine holds its count and delay until it ends. */
  lemma StepKeepsGoroutine(w: World, e: Event, t: nat)
    requires Enabled(w, e) && t < |w.threads| && w.threads[t].Restarting?
    ensures t < |Apply(w, e).threads|
    ensures Apply(w, e).threads[t] == w.threads[t] || (e == GiveBack(t) && Apply(w, e).threads[t] == Ended)
  {
  }

  lemma OneStep(w: World, e: Event, es: seq<Event>)
    requires Enabled(w, e) && ValidRun(Apply(w, e), es)
    ensures ValidRun(w, [e] + es) && Final(w, [e] + es) == Final(Apply(w, e), es)
  {
    assert ([e] + es)[1..] == es;
  }

  /** A call for a container that is free and known gets its goroutine, with the next count and
      the delay in force, and the record counts it; one for a busy or unknown container gets none. */
  lemma CallStartsIff(w: World, k: string)
    ensures var t := |w.threads|; var es := [Ask(k), Claim(t)];
            && ValidRun(w, es) && Final(w, es).restarts == w.restarts
            && (Enabled(Final(w, es), Bump(t)) <==> k !in w.restarting)
            && (k !in w.restarting && k in w.restarts ==>
                  var w' := Apply(Final(w, es), Bump(t)); var r := w.restarts[k];
                  && w'.threads[t] == Restarting(k, r.count + 1, r.backoff) && k in w'.restarting
                  && w'.restarts == w.restarts[k := Restart(r.count + 1, Min(2 * r.backoff, 300_000_000_000))])
            && (k !in w.restarting && k !in w.restarts ==>
                  var w' := Apply(Final(w, es), Bump(t));
                  w'.restarts == w.restarts && Apply(w', GiveBack(t)).restarting == w.restarting)
  {
    var t := |w.threads|;
    var w1 := Apply(w, Ask(k));
    OneStep(w1, Claim(t), []);
    OneStep(w, Ask(k), [Claim(t)]);
    assert [Claim(t)] + [] == [Claim(t)] && [Ask(k)] + [Claim(t)] == [Ask(k), Claim(t)];
  }

  // ---- delays ----

  predicate Resets(e: Event, k: string) {
    e.ResetBackoff? && e.key == k
  }

  /** The delay of `k` after one step, as the last reset and the restarts since. */
  ghost function NextSince(w: World, e: Event, k: string, since: Backoff.Since): Backoff.Since
    requires Enabled(w, e)
  {
    if Resets(e, k) then Backoff.FROM_RESET
    else if Starts(w, e, k) then Backoff.After(since, 1)
    else since
  }

  ghost function SinceReset(w: World, es: seq<Event>, k: string, since: Backoff.Since): Backoff.Since
    requires ValidRun(w, es)
    decreases |es|
  {
    if es == [] then since else SinceReset(Apply(w, es[0]), es[1..], k, NextSince(w, es[0], k, since))
  }

  /** In a run, every restart goroutine of `k` waits for the doublings since the reset before it. */
  ghost predicate AllDelayed(w: World, es: seq<Event>, k: string, since: Backoff.Since)
    requires ValidRun(w, es)
    decreases |es|
  {
    es == [] ||
    (&& (Starts(w, es[0], k) ==> Goroutine(w, es[0], k).delay == Backoff.Delay(since))
     && AllDelayed(Apply(w, es[0]), es[1..], k, NextSince(w, es[0], k, since)))
  }

  lemma StepDelays(w: World, e: Event, k: string, since: Backoff.Since)
    requires Enabled(w, e) && k in w.restarts && !(e.SetRecord? && e.key == k)
    requires w.restarts[k].backoff == Backoff.Delay(since)
    ensures k in Apply(w, e).restarts
    ensures Starts(w, e, k) ==> Goroutine(w, e, k).delay == Backoff.Delay(since)
    ensures Apply(w, e).restarts[k].backoff == Backoff.Delay(NextSince(w, e, k, since))
  {
    assert Backoff.Delay(Backoff.After(since, 1)) == Backoff.Double(Backoff.Delay(since));
  }

  /** In every interleaving, resets included, a container's delay is the one last set, doubled
      once for every restart since; and each restart goroutine waits for the delay it found. */
  lemma {:induction false} DelaysAreDoubled(w: World, es: seq<Event>, k: string, since: Backoff.Since)
    requires ValidRun(w, es) && NotReplaced(es, k) && k in w.restarts
    requires w.restarts[k].backoff == Backoff.Delay(since)
    ensures k in Final(w, es).restarts
    ensures Final(w, es).restarts[k].backoff == Backoff.Delay(SinceReset(w, es, k, since))
    ensures AllDelayed(w, es, k, since)
    decreases |es|
  {
    if es != [] {
      StepDelays(w, es[0], k, since);
      DelaysAreDoubled(Apply(w, es[0]), es[1..], k, NextSince(w, es[0], k, since));
    }
  }

  ghost predicate NotReset(es: seq<Event>, k: string) {
    forall i :: 0 <= i < |es| ==> !Resets(es[i], k)
  }

  /** Between two resets the i-th goroutine waits for the delay in force doubled i times. */
  lemma {:induction false} DoublingIsNth(w: World, es: seq<Event>, k: string, since: Backoff.Since, i: nat)
    requires ValidRun(w, es) && NotReplaced(es, k) && NotReset(es, k) && k in w.restarts
    requires w.restarts[k].backoff == Backoff.Delay(since) && i < |Started(w, es, k)|
    ensures Started(w, es, k)[i].delay == Backoff.Delay(Backoff.After(since, i))
    decreases |es|
  {
    var since' := NextSince(w, es[0], k, since);
    StepDelays(w, es[0], k, since);
    if !Starts(w, es[0], k) {
      DoublingIsNth(Apply(w, es[0]), es[1..], k, since', i);
    } else if i > 0 {
      DoublingIsNth(Apply(w, es[0]), es[1..], k, since', i - 1);
    }
  }

  /** The two restart paths are one doubling apart, over any two runs from the initial delay:
      a restart that the state machine requests after n others since its last reset waits as
      long as a goroutine that the watcher starts after n + 1 others since its last reset. */
  lemma StateMachineIsOneAhead(w: World, es: seq<Event>, e: Event, k: string,
                               s: FociState.PodState, xs: seq<FociRuns.Input>, x: FociRuns.Input, c: string,
                               r: FociState.Effect)
    requires ValidRun(w, es) && NotReplaced(es, k) && k in w.restarts && w.restarts[k].backoff == Backoff.INIT
    requires Enabled(Final(w, es), e) && Starts(Final(w, es), e, k)
    requires s.uid != "" && FociRuns.StateInv(s) && FociEffects.Stays(s, xs, c)
    requires FociEffects.Of(s, c).backoff == Backoff.INIT
    requires FociEffects.Has(FociRuns.Step(FociRuns.Run(s, xs), x), c)
    requires r in FociRuns.RestartsFor(FociReduce.Reduce(FociRuns.Run(s, xs), x.fact, x.now).1, c)
    requires SinceReset(w, es, k, Backoff.FROM_RESET)
          == Backoff.After(FociEffects.SinceReset(s, xs, c, Backoff.FROM_RESET), 1)
    ensures r.RestartContainer? && r.backoff == Goroutine(Final(w, es), e, k).delay
  {
    DelaysAreDoubled(w, es, k, Backoff.FROM_RESET);
    FociEffects.RestartDelay(s, xs, x, c, Backoff.FROM_RESET, r);
  }
}
