/**
 The decisions of node/batchwatcher.go about one pod in one poll: which containers
 to restart, and whether the pod has reached a terminal phase.
 */
module Watcher {
  import opened Common
  import Backoff

  datatype Machine = Unknown | Running | Exited | Failed | Creating

  datatype Policy = Unset | Always | OnFailure | Never

  datatype PodPhase = Pending | PodRunning | Succeeded | PodFailed

  /** Restart bookkeeping of the pod store for one container. */
  datatype Restart = Restart(count: nat, backoff: Duration)

  /** A restart goroutine, started with the count and delay BumpBackoff gave it. */
  datatype Launch = Launch(key: string, count: nat, delay: Duration)

  function KeyOf(uid: string, container: string): string {
    uid + "/" + container
  }

  /** What one poll saw: machine states and exit codes by key. */
  datatype Poll = Poll(states: map<string, Machine>, exitCodes: map<string, int>)

  /** A machine that is not listed counts as exited. */
  function StateOf(poll: Poll, key: string): Machine {
    if key in poll.states then poll.states[key] else Exited
  }

  /** Listed as exited with code 0: it did run, even if nobody saw it. */
  predicate FastExit(poll: Poll, key: string) {
    key in poll.states && poll.states[key] == Exited && (key in poll.exitCodes ==> poll.exitCodes[key] == 0)
  }

  /** Looks exited, but was never seen running. */
  predicate Deferred(poll: Poll, seen: set<string>, key: string) {
    key !in seen && (StateOf(poll, key) == Exited || StateOf(poll, key) == Unknown) && !FastExit(poll, key)
  }

  /** Does the policy restart a container in this state? */
  predicate Restarts(policy: Policy, state: Machine) {
    || (state == Failed && (policy == Always || policy == Unset || policy == OnFailure))
    || (state == Exited && (policy == Always || policy == Unset))
  }

  /** Nothing more will happen to this container. */
  predicate Settled(poll: Poll, seen: set<string>, restarting: set<string>, policy: Policy, key: string) {
    var state := StateOf(poll, key);
    && key !in restarting
    && !Deferred(poll, seen, key)
    && state != Running && state != Creating
    && !Restarts(policy, state)
  }

  /** Does this poll ask for a restart of the container? */
  predicate WantsRestart(poll: Poll, seen: set<string>, policy: Policy, key: string, probeFails: bool) {
    var state := StateOf(poll, key);
    !Deferred(poll, seen, key) && (Restarts(policy, state) || (state == Running && probeFails))
  }

  /** makeStateLookup: the state to report for a container. */
  function Lookup(poll: Poll, seen: set<string>, restarting: set<string>, key: string): Machine {
    if key in poll.states then poll.states[key]
    else if key in restarting then Failed
    else if key in seen then Exited
    else Unknown
  }

  predicate AllSettled(poll: Poll, seen: set<string>, restarting: set<string>, policy: Policy, uid: string,
                       containers: seq<string>)
  {
    forall i :: 0 <= i < |containers| ==> Settled(poll, seen, restarting, policy, KeyOf(uid, containers[i]))
  }

  predicate NoneFailed(poll: Poll, uid: string, containers: seq<string>) {
    forall i :: 0 <= i < |containers| ==> StateOf(poll, KeyOf(uid, containers[i])) != Failed
  }

  lemma PrefixGrows(poll: Poll, seen: set<string>, restarting: set<string>, policy: Policy, uid: string,
                    containers: seq<string>, i: nat)
    requires i < |containers|
    ensures var key := KeyOf(uid, containers[i]);
            && (AllSettled(poll, seen, restarting, policy, uid, containers[..i + 1]) <==>
                && AllSettled(poll, seen, restarting, policy, uid, containers[..i])
                && Settled(poll, seen, restarting, policy, key))
            && (NoneFailed(poll, uid, containers[..i + 1]) <==>
                NoneFailed(poll, uid, containers[..i]) && StateOf(poll, key) != Failed)
  {
    var before, after := containers[..i], containers[..i + 1];
    assert after == before + [containers[i]];
    assert forall j :: 0 <= j < i ==> after[j] == before[j];
    assert after[i] == containers[i];
  }

  // ---- starting restarts ----

  /** Busy containers, the store's restart records, and the goroutines started so far. */
  datatype Books = Books(busy: set<string>, restarts: map<string, Restart>, launched: seq<Launch>)

  /** maybeRestart for a pod that is not being deleted. */
  function Start(b: Books, key: string): Books {
    if key in b.busy || key !in b.restarts then b
    else
      var r := b.restarts[key];
      Books(b.busy + {key}, b.restarts[key := Restart(r.count + 1, Backoff.Double(r.backoff))],
            b.launched + [Launch(key, r.count + 1, r.backoff)])
  }

  /** ResetBackoff of the pod store. */
  function Reset(b: Books, key: string): Books {
    if key !in b.restarts then b
    else b.(restarts := b.restarts[key := b.restarts[key].(backoff := Backoff.INIT)])
  }

  /** What a poll does about one container: whether it has run long enough for its backoff
      to be reset, and whether to start a restart. */
  datatype Visit = Visit(key: string, reset: bool, start: bool)

  /** A container that is being restarted is passed over. */
  function Serve(b: Books, v: Visit): Books {
    if v.key in b.busy then b
    else
      var b1 := if v.reset then Reset(b, v.key) else b;
      if v.start then Start(b1, v.key) else b1
  }

  function ServeAll(b: Books, vs: seq<Visit>): Books {
    if vs == [] then b else Serve(ServeAll(b, vs[..|vs| - 1]), vs[|vs| - 1])
  }

  /** What else decides about restarts: failing probes, long runs and deletion. */
  datatype Signals = Signals(probeFails: set<string>, longRunning: set<string>, deleting: bool)

  function VisitOf(poll: Poll, seen: set<string>, policy: Policy, uid: string, container: string, sig: Signals): Visit {
    var key := KeyOf(uid, container);
    Visit(key, StateOf(poll, key) == Running && container in sig.longRunning,
          !sig.deleting && WantsRestart(poll, seen, policy, key, container in sig.probeFails))
  }

  /** The visits of a poll, in the order of the containers. */
  function Visits(poll: Poll, seen: set<string>, policy: Policy, uid: string, containers: seq<string>,
                  sig: Signals): seq<Visit>
  {
    if containers == [] then []
    else
      var n := |containers| - 1;
      Visits(poll, seen, policy, uid, containers[..n], sig) + [VisitOf(poll, seen, policy, uid, containers[n], sig)]
  }

  class BatchWatcher {
    var seenRunning: set<string>
    var restarting: set<string>
    // the part of the pod store that checkPod writes
    var restarts: map<string, Restart>
    var phases: map<string, PodPhase>
    var deleting: set<string>
    // restart goroutines started so far
    var launched: seq<Launch>

    ghost function View(): Books
      reads this
    {
      Books(restarting, restarts, launched)
    }

    method MarkRunning(uid: string, container: string)
      modifies this`seenRunning
      ensures seenRunning == old(seenRunning) + {KeyOf(uid, container)}
    {
      seenRunning := seenRunning + {KeyOf(uid, container)};
    }

    /** BumpBackoff: count a restart and give the delay to wait before it. */
    method BumpBackoff(key: string) returns (count: nat, delay: Duration)
      modifies this`restarts
      ensures key !in old(restarts) ==> count == 0 && delay == 0 && restarts == old(restarts)
      ensures key in old(restarts) ==>
                var r := old(restarts)[key];
                && count == r.count + 1 && delay == r.backoff
                && restarts == old(restarts)[key := Restart(r.count + 1, Backoff.Double(r.backoff))]
    {
      if key !in restarts {
        return 0, 0;
      }
      var r := restarts[key];
      count, delay := r.count + 1, r.backoff;
      var next := r.backoff * 2;
      if next > Backoff.MAX {
        next := Backoff.MAX;
      }
      restarts := restarts[key := Restart(count, next)];
    }

    /** Start a restart goroutine unless the pod is being deleted, one is running, or the
        store does not know the container. */
    method MaybeRestart(uid: string, container: string)
      modifies this`restarting, this`restarts, this`launched
      ensures View() == if uid in deleting then old(View()) else Start(old(View()), KeyOf(uid, container))
    {
      var key := KeyOf(uid, container);
      if uid in deleting {
        return;
      }
      if key in restarting {
        return;
      }
      restarting := restarting + {key};
      var count, delay := BumpBackoff(key);
      if count == 0 {
        restarting := restarting - {key};
        return;
      }
      launched := launched + [Launch(key, count, delay)];
    }

    /** ResetBackoff: the next restart waits for the initial delay again. */
    method ResetBackoff(key: string)
      modifies this`restarts
      ensures View() == Reset(old(View()), key)
    {
      if key in restarts {
        restarts := restarts[key := restarts[key].(backoff := Backoff.INIT)];
      }
    }

    /** One container in checkPod's loop; `probeFails` says that a liveness or startup
        probe of this running container asks for a restart, `longRunning` that it has run
        for longer than the backoff reset time. */
    method CheckContainer(uid: string, container: string, policy: Policy, poll: Poll, sig: Signals)
      returns (exited: bool, succeeded: bool)
      requires sig.deleting == (uid in deleting)
      modifies this`seenRunning, this`restarting, this`restarts, this`launched
      ensures Checked(poll, policy, uid, container, sig, old(seenRunning), old(View()), seenRunning, View(),
                      exited, succeeded)
    {
      var key := KeyOf(uid, container);
      var state := if key in poll.states then poll.states[key] else Exited;
      ghost var seen, b := seenRunning, View();
      if key in restarting {
        SkippedIsChecked(poll, policy, uid, container, sig, seen, b);
        return false, false;
      }
      if key !in seenRunning && (state == Exited || state == Unknown) {
        if key in poll.states && state == Exited && (key in poll.exitCodes ==> poll.exitCodes[key] == 0) {
          seenRunning := seenRunning + {key};
        } else {
          SkippedIsChecked(poll, policy, uid, container, sig, seen, b);
          return false, false;
        }
      }
      exited, succeeded := Decide(uid, container, policy, state, sig);
      DecidedIsChecked(poll, policy, uid, container, sig, seen, b, seenRunning, View(), exited, succeeded);
    }

    /** The switch of checkPod, for a container that is neither restarting nor put off. */
    method Decide(uid: string, container: string, policy: Policy, state: Machine, sig: Signals)
      returns (exited: bool, succeeded: bool)
      requires sig.deleting == (uid in deleting) && KeyOf(uid, container) !in restarting
      modifies this`seenRunning, this`restarting, this`restarts, this`launched
      ensures exited <==> state != Running && state != Creating && !Restarts(policy, state)
      ensures exited ==> (succeeded <==> state != Failed)
      ensures seenRunning == old(seenRunning) + if state == Running then {KeyOf(uid, container)} else {}
      ensures View() == Serve(old(View()), DecidedVisit(KeyOf(uid, container), container, policy, state, sig))
    {
      exited, succeeded := true, true;
      match state {
        case Running =>
          exited, succeeded := false, false;
          seenRunning := seenRunning + {KeyOf(uid, container)};
          if container in sig.longRunning {
            ResetBackoff(KeyOf(uid, container));
          }
          if container in sig.probeFails {
            MaybeRestart(uid, container);
          }
        case Creating =>
          exited, succeeded := false, false;
        case Failed =>
          succeeded := false;
          if policy == Always || policy == OnFailure || policy == Unset {
            MaybeRestart(uid, container);
            exited := false;
          }
        case Exited =>
          if policy == Always || policy == Unset {
            MaybeRestart(uid, container);
            exited := false;
          }
        case Unknown =>
      }
    }

    /** The container loop of checkPod. */
    method CheckContainers(uid: string, containers: seq<string>, policy: Policy, poll: Poll, sig: Signals)
      returns (allExited: bool, allSucceeded: bool)
      requires sig.deleting == (uid in deleting)
      modifies this`seenRunning, this`restarting, this`restarts, this`launched
      ensures Outcome(poll, policy, uid, containers, sig, old(seenRunning), old(View()), seenRunning, View(),
                      allExited, allSucceeded)
    {
      allExited, allSucceeded := true, true;
      for i := 0 to |containers|
        invariant AllChecked(poll, policy, uid, containers[..i], sig, old(seenRunning), old(View()),
                             seenRunning, View(), allExited, allSucceeded)
      {
        ghost var seen, b := seenRunning, View();
        var exited, succeeded := CheckContainer(uid, containers[i], policy, poll, sig);
        OneMoreChecked(poll, policy, uid, containers, i, sig, old(seenRunning), old(View()), seen, b,
                       seenRunning, View(), allExited, allSucceeded, exited, succeeded);
        allExited := allExited && exited;
        allSucceeded := allSucceeded && succeeded;
      }
      assert containers[..|containers|] == containers;
      CheckedIsPolled(poll, policy, uid, containers, sig, old(seenRunning), old(View()), seenRunning, View(),
                      allExited, allSucceeded);
    }

    /** checkPod: set a terminal phase exactly when every container has settled, and
        Succeeded exactly when, besides, none has failed; restart exactly the containers that
        `MustRestart`, and reset exactly the delays that `MustReset`. */
    method CheckPod(uid: string, containers: seq<string>, policy: Policy, poll: Poll, probeFails: set<string>,
                    longRunning: set<string>)
      modifies this
      ensures deleting == old(deleting)
      ensures phases == if !AllOver(poll, old(seenRunning), old(restarting), policy, uid, containers) then old(phases)
                        else old(phases)[uid := if AnyFailed(poll, uid, containers) then PodFailed else Succeeded]
      ensures seenRunning == old(seenRunning) + RunKeys(poll, uid, containers, old(restarting))
      ensures Restarted(poll, policy, uid, containers, Signals(probeFails, longRunning, uid in deleting),
                        old(seenRunning), old(View()), View())
    {
      var sig := Signals(probeFails, longRunning, uid in deleting);
      var allExited, allSucceeded := CheckContainers(uid, containers, policy, poll, sig);
      ghost var b := View();
      if allExited {
        phases := phases[uid := if allSucceeded then Succeeded else PodFailed];
      }
      assert View() == b;
    }
  }

  /** What the loop itself adds to the two sets: containers that are not settled, and
      containers whose run is proved by this poll. */
  ghost predicate Grown(poll: Poll, seen: set<string>, seen': set<string>,
                        restarting: set<string>, restarting': set<string>, policy: Policy)
  {
    && seen <= seen' && restarting <= restarting'
    && (forall k :: k in seen' && k !in seen ==> StateOf(poll, k) == Running || FastExit(poll, k))
    && (forall k :: k in restarting' && k !in restarting ==> !Settled(poll, seen, restarting, policy, k))
  }

  /** The poll proves that the container has run: it is running, or its machine is listed as
      exited with code 0 (an absent code reads as 0). */
  predicate HasRun(poll: Poll, key: string) {
    key in poll.states &&
    (poll.states[key] == Running ||
     (poll.states[key] == Exited && (key !in poll.exitCodes || poll.exitCodes[key] == 0)))
  }

  /** The containers of the list that are not being restarted and have run. */
  ghost function RunKeys(poll: Poll, uid: string, containers: seq<string>, busy: set<string>): set<string> {
    set c | c in containers && KeyOf(uid, c) !in busy && HasRun(poll, KeyOf(uid, c)) :: KeyOf(uid, c)
  }

  /** What the look at one container gives, and what it adds. */
  ghost predicate Checked(poll: Poll, policy: Policy, uid: string, container: string, sig: Signals,
                          seen: set<string>, b: Books, seen': set<string>, b': Books, exited: bool, succeeded: bool)
  {
    var key := KeyOf(uid, container);
    && exited == Settled(poll, seen, b.busy, policy, key)
    && (exited ==> (succeeded <==> StateOf(poll, key) != Failed))
    && seen' == seen + (if key !in b.busy && HasRun(poll, key) then {key} else {})
    && b.busy <= b'.busy <= b.busy + {key}
    && (key in b'.busy && key !in b.busy ==> !exited)
    && b' == Serve(b, VisitOf(poll, seen, policy, uid, container, sig))
  }

  /** What is done about a container that is neither restarting nor put off. */
  function DecidedVisit(key: string, container: string, policy: Policy, state: Machine, sig: Signals): Visit {
    Visit(key, state == Running && container in sig.longRunning,
          !sig.deleting && (Restarts(policy, state) || (state == Running && container in sig.probeFails)))
  }

  lemma SkippedIsChecked(poll: Poll, policy: Policy, uid: string, container: string, sig: Signals,
                         seen: set<string>, b: Books)
    requires KeyOf(uid, container) in b.busy || Deferred(poll, seen, KeyOf(uid, container))
    ensures Checked(poll, policy, uid, container, sig, seen, b, seen, b, false, false)
  {
  }

  lemma DecidedIsChecked(poll: Poll, policy: Policy, uid: string, container: string, sig: Signals,
                         seen: set<string>, b: Books, seen': set<string>, b': Books, exited: bool, succeeded: bool)
    requires var key := KeyOf(uid, container); var state := StateOf(poll, key);
             && key !in b.busy && !Deferred(poll, seen, key)
             && (exited <==> state != Running && state != Creating && !Restarts(policy, state))
             && (exited ==> (succeeded <==> state != Failed))
             && seen' == seen + (if HasRun(poll, key) then {key} else {})
             && b' == Serve(b, DecidedVisit(key, container, policy, state, sig))
    ensures Checked(poll, policy, uid, container, sig, seen, b, seen', b', exited, succeeded)
  {
    var v := DecidedVisit(KeyOf(uid, container), container, policy, StateOf(poll, KeyOf(uid, container)), sig);
    assert v == VisitOf(poll, seen, policy, uid, container, sig);
    ServeLaunches(b, v);
  }

  /** The same for several, judged by what was known before the first. */
  ghost predicate AllChecked(poll: Poll, policy: Policy, uid: string, containers: seq<string>, sig: Signals,
                             seen: set<string>, b: Books, seen': set<string>, b': Books,
                             allExited: bool, allSucceeded: bool)
  {
    && Grown(poll, seen, seen', b.busy, b'.busy, policy)
    && seen' == seen + RunKeys(poll, uid, containers, b.busy)
    && allExited == AllSettled(poll, seen, b.busy, policy, uid, containers)
    && (allExited ==> allSucceeded == NoneFailed(poll, uid, containers))
    && b' == ServeAll(b, Visits(poll, seen, policy, uid, containers, sig))
  }

  lemma OneMoreChecked(poll: Poll, policy: Policy, uid: string, containers: seq<string>, i: nat, sig: Signals,
                       seen: set<string>, b: Books, seen': set<string>, b': Books, seen'': set<string>, b'': Books,
                       allExited: bool, allSucceeded: bool, exited: bool, succeeded: bool)
    requires i < |containers|
    requires AllChecked(poll, policy, uid, containers[..i], sig, seen, b, seen', b', allExited, allSucceeded)
    requires Checked(poll, policy, uid, containers[i], sig, seen', b', seen'', b'', exited, succeeded)
    ensures AllChecked(poll, policy, uid, containers[..i + 1], sig, seen, b, seen'', b'',
                       allExited && exited, allSucceeded && succeeded)
  {
    PrefixGrows(poll, seen, b.busy, policy, uid, containers, i);
    GrownIsStable(poll, seen, seen', b.busy, b'.busy, policy, uid, containers[i], sig);
    VisitsNext(poll, seen, policy, uid, containers, i, sig, b);
    GrownMore(poll, seen, seen', seen'', b.busy, b'.busy, b''.busy, policy, KeyOf(uid, containers[i]));
    SeenGrows(poll, policy, uid, containers, i, sig, seen, b, seen', b', seen'');
  }

  lemma SeenGrows(poll: Poll, policy: Policy, uid: string, containers: seq<string>, i: nat, sig: Signals,
                  seen: set<string>, b: Books, seen': set<string>, b': Books, seen'': set<string>)
    requires i < |containers| && b.busy <= b'.busy
    requires b' == ServeAll(b, Visits(poll, seen, policy, uid, containers[..i], sig))
    requires seen' == seen + RunKeys(poll, uid, containers[..i], b.busy)
    requires var key := KeyOf(uid, containers[i]);
             seen'' == seen' + (if key !in b'.busy && HasRun(poll, key) then {key} else {})
    ensures seen'' == seen + RunKeys(poll, uid, containers[..i + 1], b.busy)
  {
    var key := KeyOf(uid, containers[i]);
    RunKeysGrow(poll, uid, containers, i, b.busy);
    if key in b'.busy && key !in b.busy {
      BusyWasVisited(poll, seen, policy, uid, containers[..i], sig, b, containers[i]);
    }
  }

  lemma RunKeysGrow(poll: Poll, uid: string, containers: seq<string>, i: nat, busy: set<string>)
    requires i < |containers|
    ensures var key := KeyOf(uid, containers[i]);
            RunKeys(poll, uid, containers[..i + 1], busy) ==
            RunKeys(poll, uid, containers[..i], busy) + if key !in busy && HasRun(poll, key) then {key} else {}
  {
    assert containers[..i + 1] == containers[..i] + [containers[i]];
  }

  /** A container that has become busy within the poll is one that was looked at before. */
  lemma BusyWasVisited(poll: Poll, seen: set<string>, policy: Policy, uid: string, containers: seq<string>,
                       sig: Signals, b: Books, container: string)
    requires KeyOf(uid, container) in ServeAll(b, Visits(poll, seen, policy, uid, containers, sig)).busy
    requires KeyOf(uid, container) !in b.busy
    ensures container in containers
  {
    var vs := Visits(poll, seen, policy, uid, containers, sig);
    VisitsAreConsistent(poll, seen, policy, uid, containers, sig);
    VisitsAreOfContainers(poll, seen, policy, uid, containers, sig);
    ServeAllCounts(b, vs);
    var v :| v in vs && v.start && v.key == KeyOf(uid, container);
    var j :| 0 <= j < |vs| && vs[j] == v;
    KeysDiffer(uid, container, containers[j]);
  }

  lemma VisitsNext(poll: Poll, seen: set<string>, policy: Policy, uid: string, containers: seq<string>, i: nat,
                   sig: Signals, b: Books)
    requires i < |containers|
    ensures ServeAll(b, Visits(poll, seen, policy, uid, containers[..i + 1], sig)) ==
            Serve(ServeAll(b, Visits(poll, seen, policy, uid, containers[..i], sig)),
                  VisitOf(poll, seen, policy, uid, containers[i], sig))
  {
    assert containers[..i + 1][..i] == containers[..i];
    var vs := Visits(poll, seen, policy, uid, containers[..i], sig);
    var v := VisitOf(poll, seen, policy, uid, containers[i], sig);
    assert (vs + [v])[..|vs|] == vs;
  }

  lemma GrownMore(poll: Poll, seen0: set<string>, seen: set<string>, seen': set<string>,
                  busy0: set<string>, busy: set<string>, busy': set<string>, policy: Policy, key: string)
    requires Grown(poll, seen0, seen, busy0, busy, policy)
    requires seen <= seen' <= seen + {key} && busy <= busy' <= busy + {key}
    requires key in seen' && key !in seen ==> StateOf(poll, key) == Running || FastExit(poll, key)
    requires key in busy' && key !in busy ==> !Settled(poll, seen, busy, policy, key)
    ensures Grown(poll, seen0, seen', busy0, busy', policy)
  {
  }

  /** Such additions do not change any verdict. */
  lemma GrownIsStable(poll: Poll, seen: set<string>, seen': set<string>, restarting: set<string>,
                      restarting': set<string>, policy: Policy, uid: string, container: string, sig: Signals)
    requires Grown(poll, seen, seen', restarting, restarting', policy)
    ensures var key := KeyOf(uid, container);
            Settled(poll, seen', restarting', policy, key) <==> Settled(poll, seen, restarting, policy, key)
    ensures VisitOf(poll, seen', policy, uid, container, sig) == VisitOf(poll, seen, policy, uid, container, sig)
  {
  }

  // ---- what a poll's restarts amount to ----

  function Bumped(r: Restart): Restart {
    Restart(r.count + 1, Backoff.Double(r.backoff))
  }

  ghost function ResetKeys(vs: seq<Visit>): set<string> {
    set v | v in vs && v.reset :: v.key
  }

  ghost function StartKeys(vs: seq<Visit>): set<string> {
    set v | v in vs && v.start :: v.key
  }

  /** Visits of one container agree, as they do within one poll. */
  ghost predicate Consistent(vs: seq<Visit>) {
    forall v, w :: v in vs && w in vs && v.key == w.key ==> v == w
  }

  lemma {:induction false} VisitsAreOfContainers(poll: Poll, seen: set<string>, policy: Policy, uid: string,
                                                 containers: seq<string>, sig: Signals)
    ensures |Visits(poll, seen, policy, uid, containers, sig)| == |containers|
    ensures forall i :: 0 <= i < |containers| ==>
              Visits(poll, seen, policy, uid, containers, sig)[i] ==
              VisitOf(poll, seen, policy, uid, containers[i], sig)
  {
    if containers != [] { VisitsAreOfContainers(poll, seen, policy, uid, containers[..|containers| - 1], sig); }
  }

  lemma KeysDiffer(uid: string, a: string, b: string)
    requires KeyOf(uid, a) == KeyOf(uid, b)
    ensures a == b
  {
    assert a == KeyOf(uid, a)[|uid| + 1..] && b == KeyOf(uid, b)[|uid| + 1..];
  }

  /** The visits of one poll are consistent. */
  lemma VisitsAreConsistent(poll: Poll, seen: set<string>, policy: Policy, uid: string, containers: seq<string>,
                            sig: Signals)
    ensures Consistent(Visits(poll, seen, policy, uid, containers, sig))
  {
    var vs := Visits(poll, seen, policy, uid, containers, sig);
    VisitsAreOfContainers(poll, seen, policy, uid, containers, sig);
    forall i, j | 0 <= i < |vs| && 0 <= j < |vs| && vs[i].key == vs[j].key ensures vs[i] == vs[j] {
      KeysDiffer(uid, containers[i], containers[j]);
    }
  }

  /** A record with its backoff reset, if the poll resets it. */
  ghost function Rested(b: Books, resets: set<string>, k: string): Restart
    requires k in b.restarts
  {
    if k in resets && k !in b.busy then b.restarts[k].(backoff := Backoff.INIT) else b.restarts[k]
  }

  /** The containers that become busy are the wanted ones the store knows; exactly their
      records count one more restart; and long runs reset the backoff first. */
  ghost predicate Served(b: Books, resets: set<string>, starts: set<string>, b': Books) {
    && b'.busy == b.busy + starts * b.restarts.Keys
    && b'.restarts.Keys == b.restarts.Keys
    && forall k :: k in b.restarts ==>
         b'.restarts[k] == if k in b'.busy && k !in b.busy then Bumped(Rested(b, resets, k)) else Rested(b, resets, k)
  }

  lemma KeySets(vs: seq<Visit>)
    requires vs != [] && Consistent(vs)
    ensures var n := |vs| - 1; var v := vs[n];
            && ResetKeys(vs) == ResetKeys(vs[..n]) + (if v.reset then {v.key} else {})
            && StartKeys(vs) == StartKeys(vs[..n]) + (if v.start then {v.key} else {})
            && Consistent(vs[..n])
            && (v.key in StartKeys(vs[..n]) ==> v.start && (v.key in ResetKeys(vs[..n]) <==> v.reset))
  {
    var n := |vs| - 1;
    assert forall v :: v in vs <==> v in vs[..n] || v == vs[n];
  }

  lemma ServeRecords(m: Books, v: Visit)
    ensures Serve(m, v).restarts.Keys == m.restarts.Keys
    ensures forall k :: k in m.restarts && k != v.key ==> Serve(m, v).restarts[k] == m.restarts[k]
    ensures v.key in m.restarts ==>
              var r := m.restarts[v.key];
              Serve(m, v).restarts[v.key] ==
                if v.key in m.busy then r
                else var r1 := if v.reset then r.(backoff := Backoff.INIT) else r; if v.start then Bumped(r1) else r1
  {
  }

  lemma ServeOne(b: Books, resets: set<string>, starts: set<string>, m: Books, v: Visit)
    requires Served(b, resets, starts, m)
    requires v.key in starts ==> v.start && (v.key in resets <==> v.reset)
    ensures Served(b, resets + (if v.reset then {v.key} else {}), starts + (if v.start then {v.key} else {}),
                   Serve(m, v))
  {
    ServeRecords(m, v);
    ServeLaunches(m, v);
    var b', resets' := Serve(m, v), resets + (if v.reset then {v.key} else {});
    forall k | k in b.restarts
      ensures b'.restarts[k] ==
                if k in b'.busy && k !in b.busy then Bumped(Rested(b, resets', k)) else Rested(b, resets', k)
    {
      assert k != v.key ==> Rested(b, resets', k) == Rested(b, resets, k);
    }
  }

  lemma {:induction false} ServeAllCounts(b: Books, vs: seq<Visit>)
    requires Consistent(vs)
    ensures Served(b, ResetKeys(vs), StartKeys(vs), ServeAll(b, vs))
  {
    if vs != [] {
      var n := |vs| - 1;
      KeySets(vs);
      ServeAllCounts(b, vs[..n]);
      ServeOne(b, ResetKeys(vs[..n]), StartKeys(vs[..n]), ServeAll(b, vs[..n]), vs[n]);
    }
  }

  /** A launch made by a poll that started from the books `b` and ended with `b'`. */
  ghost predicate ProperLaunch(b: Books, resets: set<string>, b': Books, l: Launch) {
    && l.key in b'.busy && l.key !in b.busy && l.key in b.restarts
    && l.count == b.restarts[l.key].count + 1 && l.delay == Rested(b, resets, l.key).backoff
  }

  ghost predicate LaunchedOnce(b: Books, resets: set<string>, b': Books) {
    && b.launched <= b'.launched
    && |b'.launched| - |b.launched| == |b'.busy - b.busy|
    && (forall i :: |b.launched| <= i < |b'.launched| ==> ProperLaunch(b, resets, b', b'.launched[i]))
    && (forall i, j :: |b.launched| <= i < j < |b'.launched| ==> b'.launched[i].key != b'.launched[j].key)
  }

  /** One goroutine per container that becomes busy, no two for one container, each with
      the next count and the delay then in force. */
  lemma {:induction false} ServeAllLaunchesOnce(b: Books, vs: seq<Visit>)
    requires Consistent(vs)
    ensures LaunchedOnce(b, ResetKeys(vs), ServeAll(b, vs))
  {
    if vs != [] {
      var n := |vs| - 1;
      KeySets(vs);
      ServeAllLaunchesOnce(b, vs[..n]);
      ServeAllCounts(b, vs[..n]);
      ServeOneMore(b, ResetKeys(vs[..n]), StartKeys(vs[..n]), ServeAll(b, vs[..n]), vs[n]);
    }
  }

  predicate Launches(m: Books, v: Visit) {
    v.key !in m.busy && v.start && v.key in m.restarts
  }

  function LaunchOf(r: Restart, v: Visit): Launch {
    Launch(v.key, r.count + 1, if v.reset then Backoff.INIT else r.backoff)
  }

  lemma ServeLaunches(m: Books, v: Visit)
    ensures if Launches(m, v)
            then && Serve(m, v).busy == m.busy + {v.key}
                 && Serve(m, v).launched == m.launched + [LaunchOf(m.restarts[v.key], v)]
            else Serve(m, v).busy == m.busy && Serve(m, v).launched == m.launched
  {
  }

  lemma NewLaunchIsProper(b: Books, resets: set<string>, starts: set<string>, m: Books, v: Visit, b': Books)
    requires Served(b, resets, starts, m) && Launches(m, v) && b'.busy == m.busy + {v.key}
    ensures v.key !in b.busy
    ensures ProperLaunch(b, resets + (if v.reset then {v.key} else {}), b', LaunchOf(m.restarts[v.key], v))
  {
  }

  lemma ServeOneMore(b: Books, resets: set<string>, starts: set<string>, m: Books, v: Visit)
    requires LaunchedOnce(b, resets, m) && Served(b, resets, starts, m)
    requires v.key in starts ==> v.start && (v.key in resets <==> v.reset)
    ensures LaunchedOnce(b, resets + (if v.reset then {v.key} else {}), Serve(m, v))
  {
    var b', resets' := Serve(m, v), resets + (if v.reset then {v.key} else {});
    ServeLaunches(m, v);
    StillProper(b, resets, starts, m, v, b');
    if Launches(m, v) {
      NewLaunchIsProper(b, resets, starts, m, v, b');
      OneMoreLaunch(b, resets', m, LaunchOf(m.restarts[v.key], v), b');
    }
  }

  lemma StillProper(b: Books, resets: set<string>, starts: set<string>, m: Books, v: Visit, b': Books)
    requires LaunchedOnce(b, resets, m) && Served(b, resets, starts, m) && m.busy <= b'.busy
    requires v.key in starts ==> v.start && (v.key in resets <==> v.reset)
    ensures forall i :: |b.launched| <= i < |m.launched| ==>
              ProperLaunch(b, resets + (if v.reset then {v.key} else {}), b', m.launched[i])
  {
    forall i | |b.launched| <= i < |m.launched|
      ensures ProperLaunch(b, resets + (if v.reset then {v.key} else {}), b', m.launched[i])
    {
      assert ProperLaunch(b, resets, m, m.launched[i]);
      assert m.launched[i].key in starts;
    }
  }

  lemma OneMoreLaunch(b: Books, resets: set<string>, m: Books, l: Launch, b': Books)
    requires b.launched <= m.launched && |m.launched| - |b.launched| == |m.busy - b.busy|
    requires forall i :: |b.launched| <= i < |m.launched| ==>
               m.launched[i].key in m.busy && ProperLaunch(b, resets, b', m.launched[i])
    requires forall i, j :: |b.launched| <= i < j < |m.launched| ==> m.launched[i].key != m.launched[j].key
    requires b'.launched == m.launched + [l] && b'.busy == m.busy + {l.key} && l.key !in m.busy && l.key !in b.busy
    requires ProperLaunch(b, resets, b', l)
    ensures LaunchedOnce(b, resets, b')
  {
    assert b'.busy - b.busy == (m.busy - b.busy) + {l.key};
  }

  // ---- which containers a poll restarts ----

  /** What the poll reports: a machine that is not listed counts as exited. */
  function Reported(poll: Poll, key: string): Machine {
    if key in poll.states then poll.states[key] else Exited
  }

  /** The container is free, known to the store, and by its reported state and the policy has
      to be restarted. */
  ghost predicate MustRestart(poll: Poll, seen: set<string>, b: Books, policy: Policy, key: string, probeFails: bool) {
    && key !in b.busy && key in b.restarts
    && match Reported(poll, key)
       case Failed => policy != Never
       case Exited => (policy == Always || policy == Unset) && (key in seen || HasRun(poll, key))
       case Running => probeFails
       case Creating => false
       case Unknown => false
  }

  ghost function RestartKeys(poll: Poll, seen: set<string>, b: Books, policy: Policy, uid: string,
                             containers: seq<string>, probeFails: set<string>, deleting: bool): set<string>
  {
    set c | c in containers && !deleting && MustRestart(poll, seen, b, policy, KeyOf(uid, c), c in probeFails) ::
      KeyOf(uid, c)
  }

  /** The containers whose delay is reset: free, known, running, and for long enough. */
  ghost function ResetsOf(poll: Poll, b: Books, uid: string, containers: seq<string>, longRunning: set<string>):
    set<string>
  {
    set c | c in containers && c in longRunning && KeyOf(uid, c) !in b.busy && KeyOf(uid, c) in b.restarts
            && Reported(poll, KeyOf(uid, c)) == Running :: KeyOf(uid, c)
  }

  /** The record of `k` after a reset, if it is reset. */
  ghost function AfterReset(r: Restart, reset: bool): Restart {
    if reset then Restart(r.count, 10_000_000_000) else r
  }

  /** What becomes of the books: `starts` become busy, each of them counts one more restart and
      doubles its delay, `resets` go back to the initial delay first, and each start has one
      goroutine, with the new count and the delay then in force. */
  ghost predicate Polled(b: Books, resets: set<string>, starts: set<string>, b': Books) {
    && b'.busy == b.busy + starts && starts !! b.busy && starts <= b.restarts.Keys
    && b'.restarts.Keys == b.restarts.Keys
    && (forall k :: k in b.restarts ==>
          var r := AfterReset(b.restarts[k], k in resets);
          b'.restarts[k] == if k in starts then Restart(r.count + 1, Min(2 * r.backoff, 300_000_000_000)) else r)
    && b.launched <= b'.launched && |b'.launched| - |b.launched| == |starts|
    && (forall i :: |b.launched| <= i < |b'.launched| ==>
          var l := b'.launched[i];
          && l.key in starts && l.count == b.restarts[l.key].count + 1
          && l.delay == AfterReset(b.restarts[l.key], l.key in resets).backoff)
    && (forall i, j :: |b.launched| <= i < j < |b'.launched| ==> b'.launched[i].key != b'.launched[j].key)
  }

  lemma VisitStartsIff(poll: Poll, seen: set<string>, policy: Policy, uid: string, c: string, sig: Signals, b: Books)
    requires KeyOf(uid, c) !in b.busy && KeyOf(uid, c) in b.restarts
    ensures VisitOf(poll, seen, policy, uid, c, sig).start <==>
            !sig.deleting && MustRestart(poll, seen, b, policy, KeyOf(uid, c), c in sig.probeFails)
  {
  }

  lemma StartsAre(poll: Poll, seen: set<string>, policy: Policy, uid: string, containers: seq<string>,
                   sig: Signals, b: Books)
    ensures StartKeys(Visits(poll, seen, policy, uid, containers, sig)) * b.restarts.Keys - b.busy ==
            RestartKeys(poll, seen, b, policy, uid, containers, sig.probeFails, sig.deleting)
  {
    var vs := Visits(poll, seen, policy, uid, containers, sig);
    VisitsAreOfContainers(poll, seen, policy, uid, containers, sig);
    forall c | c in containers && KeyOf(uid, c) !in b.busy && KeyOf(uid, c) in b.restarts
      ensures VisitOf(poll, seen, policy, uid, c, sig) in vs
      ensures VisitOf(poll, seen, policy, uid, c, sig).start <==>
              !sig.deleting && MustRestart(poll, seen, b, policy, KeyOf(uid, c), c in sig.probeFails)
    {
      var i :| 0 <= i < |containers| && containers[i] == c;
      assert vs[i] == VisitOf(poll, seen, policy, uid, c, sig);
      VisitStartsIff(poll, seen, policy, uid, c, sig, b);
    }
    forall v | v in vs ensures exists c :: c in containers && v == VisitOf(poll, seen, policy, uid, c, sig) {
      var i :| 0 <= i < |vs| && vs[i] == v;
      assert containers[i] in containers;
    }
  }

  lemma ResetsAre(poll: Poll, seen: set<string>, policy: Policy, uid: string, containers: seq<string>,
                   sig: Signals, b: Books)
    ensures ResetKeys(Visits(poll, seen, policy, uid, containers, sig)) * b.restarts.Keys - b.busy ==
            ResetsOf(poll, b, uid, containers, sig.longRunning)
  {
    var vs := Visits(poll, seen, policy, uid, containers, sig);
    VisitsAreOfContainers(poll, seen, policy, uid, containers, sig);
    forall c | c in containers ensures VisitOf(poll, seen, policy, uid, c, sig) in vs {
      var i :| 0 <= i < |containers| && containers[i] == c;
      assert vs[i] == VisitOf(poll, seen, policy, uid, c, sig);
    }
    forall v | v in vs ensures exists c :: c in containers && v == VisitOf(poll, seen, policy, uid, c, sig) {
      var i :| 0 <= i < |vs| && vs[i] == v;
      assert containers[i] in containers;
    }
  }

  lemma RecordsArePolled(b: Books, allResets: set<string>, allStarts: set<string>, resets: set<string>,
                         starts: set<string>, b': Books)
    requires Served(b, allResets, allStarts, b')
    requires starts == allStarts * b.restarts.Keys - b.busy && resets == allResets * b.restarts.Keys - b.busy
    ensures b'.busy == b.busy + starts && b'.busy - b.busy == starts
    ensures forall k :: k in b.restarts ==>
              var r := AfterReset(b.restarts[k], k in resets);
              b'.restarts[k] == if k in starts then Restart(r.count + 1, Min(2 * r.backoff, 300_000_000_000)) else r
  {
    forall k | k in b.restarts
      ensures var r := AfterReset(b.restarts[k], k in resets);
              b'.restarts[k] == if k in starts then Restart(r.count + 1, Min(2 * r.backoff, 300_000_000_000)) else r
    {
      assert Rested(b, allResets, k) == AfterReset(b.restarts[k], k in resets);
    }
  }

  lemma LaunchesArePolled(b: Books, allResets: set<string>, resets: set<string>, starts: set<string>, b': Books)
    requires LaunchedOnce(b, allResets, b') && b'.busy - b.busy == starts
    requires resets == allResets * b.restarts.Keys - b.busy
    ensures |b'.launched| - |b.launched| == |starts|
    ensures forall i :: |b.launched| <= i < |b'.launched| ==>
              var l := b'.launched[i];
              && l.key in starts && l.key in b.restarts && l.count == b.restarts[l.key].count + 1
              && l.delay == AfterReset(b.restarts[l.key], l.key in resets).backoff
  {
    forall i | |b.launched| <= i < |b'.launched|
      ensures var l := b'.launched[i];
              && l.key in starts && l.key in b.restarts && l.count == b.restarts[l.key].count + 1
              && l.delay == AfterReset(b.restarts[l.key], l.key in resets).backoff
    {
      assert ProperLaunch(b, allResets, b', b'.launched[i]);
    }
  }

  lemma ServedIsPolled(b: Books, allResets: set<string>, allStarts: set<string>, resets: set<string>,
                       starts: set<string>, b': Books)
    requires Served(b, allResets, allStarts, b') && LaunchedOnce(b, allResets, b')
    requires starts == allStarts * b.restarts.Keys - b.busy && resets == allResets * b.restarts.Keys - b.busy
    ensures Polled(b, resets, starts, b')
  {
    RecordsArePolled(b, allResets, allStarts, resets, starts, b');
    LaunchesArePolled(b, allResets, resets, starts, b');
  }

  /** A poll restarts exactly the containers that must be restarted. */
  lemma PollMeans(poll: Poll, seen: set<string>, policy: Policy, uid: string, containers: seq<string>,
                   sig: Signals, b: Books)
    ensures var b' := ServeAll(b, Visits(poll, seen, policy, uid, containers, sig));
            Polled(b, ResetsOf(poll, b, uid, containers, sig.longRunning),
                   RestartKeys(poll, seen, b, policy, uid, containers, sig.probeFails, sig.deleting), b')
  {
    var vs := Visits(poll, seen, policy, uid, containers, sig);
    VisitsAreConsistent(poll, seen, policy, uid, containers, sig);
    ServeAllCounts(b, vs);
    ServeAllLaunchesOnce(b, vs);
    StartsAre(poll, seen, policy, uid, containers, sig, b);
    ResetsAre(poll, seen, policy, uid, containers, sig, b);
    ServedIsPolled(b, ResetKeys(vs), StartKeys(vs), ResetsOf(poll, b, uid, containers, sig.longRunning),
                   RestartKeys(poll, seen, b, policy, uid, containers, sig.probeFails, sig.deleting), ServeAll(b, vs));
  }

  /** Nothing more will happen to this container, state by state. */
  ghost predicate Over(poll: Poll, seen: set<string>, restarting: set<string>, policy: Policy, key: string) {
    && key !in restarting
    && match Reported(poll, key)
       case Running => false
       case Creating => false
       case Failed => policy == Never
       case Exited => (policy == Never || policy == OnFailure) && (key in seen || HasRun(poll, key))
       case Unknown => key in seen
  }

  ghost predicate AllOver(poll: Poll, seen: set<string>, restarting: set<string>, policy: Policy, uid: string,
                          containers: seq<string>)
  {
    forall c :: c in containers ==> Over(poll, seen, restarting, policy, KeyOf(uid, c))
  }

  ghost predicate AnyFailed(poll: Poll, uid: string, containers: seq<string>) {
    exists c :: c in containers && Reported(poll, KeyOf(uid, c)) == Failed
  }

  lemma AllSettledIsOver(poll: Poll, seen: set<string>, restarting: set<string>, policy: Policy, uid: string,
                         containers: seq<string>)
    ensures AllSettled(poll, seen, restarting, policy, uid, containers) <==>
            AllOver(poll, seen, restarting, policy, uid, containers)
    ensures NoneFailed(poll, uid, containers) <==> !AnyFailed(poll, uid, containers)
  {
    forall c ensures Settled(poll, seen, restarting, policy, KeyOf(uid, c)) <==>
                     Over(poll, seen, restarting, policy, KeyOf(uid, c))
    {
      SettledMeans(poll, seen, restarting, policy, KeyOf(uid, c));
    }
    if forall c :: c in containers ==> Settled(poll, seen, restarting, policy, KeyOf(uid, c)) {
      assert forall i :: 0 <= i < |containers| ==> containers[i] in containers;
    }
  }

  /** The poll has restarted exactly the containers that must be restarted. */
  ghost predicate Restarted(poll: Poll, policy: Policy, uid: string, containers: seq<string>, sig: Signals,
                            seen: set<string>, b: Books, b': Books)
  {
    Polled(b, ResetsOf(poll, b, uid, containers, sig.longRunning),
           RestartKeys(poll, seen, b, policy, uid, containers, sig.probeFails, sig.deleting), b')
  }

  /** What the loop over the containers comes to. */
  ghost predicate Outcome(poll: Poll, policy: Policy, uid: string, containers: seq<string>, sig: Signals,
                          seen: set<string>, b: Books, seen': set<string>, b': Books,
                          allExited: bool, allSucceeded: bool)
  {
    && (allExited <==> AllOver(poll, seen, b.busy, policy, uid, containers))
    && (allExited ==> (allSucceeded <==> !AnyFailed(poll, uid, containers)))
    && seen' == seen + RunKeys(poll, uid, containers, b.busy)
    && Restarted(poll, policy, uid, containers, sig, seen, b, b')
  }

  lemma CheckedIsPolled(poll: Poll, policy: Policy, uid: string, containers: seq<string>, sig: Signals,
                        seen: set<string>, b: Books, seen': set<string>, b': Books,
                        allExited: bool, allSucceeded: bool)
    requires AllChecked(poll, policy, uid, containers, sig, seen, b, seen', b', allExited, allSucceeded)
    ensures Outcome(poll, policy, uid, containers, sig, seen, b, seen', b', allExited, allSucceeded)
  {
    AllSettledIsOver(poll, seen, b.busy, policy, uid, containers);
    PollMeans(poll, seen, policy, uid, containers, sig, b);
  }

  // ---- consequences ----

  /** What it takes to be settled, container state by container state. */
  lemma SettledMeans(poll: Poll, seen: set<string>, restarting: set<string>, policy: Policy, key: string)
    ensures Settled(poll, seen, restarting, policy, key) <==> Over(poll, seen, restarting, policy, key)
  {
  }

  /** Under policy Always a container settles exactly when it is reported in state Unknown
      after having been seen running and is not being restarted. */
  lemma AlwaysIsTerminalIff(poll: Poll, seen: set<string>, restarting: set<string>, policy: Policy, key: string)
    requires policy == Always || policy == Unset
    ensures Settled(poll, seen, restarting, policy, key) <==>
            key !in restarting && key in poll.states && poll.states[key] == Unknown && key in seen
  {
    SettledMeans(poll, seen, restarting, policy, key);
  }

  /** So a pod with containers, none of them reported Unknown, never ends under Always. */
  lemma AlwaysNeverEnds(poll: Poll, seen: set<string>, restarting: set<string>, policy: Policy, uid: string,
                        containers: seq<string>)
    requires policy == Always || policy == Unset
    requires containers != [] && forall c :: c in containers ==> StateOf(poll, KeyOf(uid, c)) != Unknown
    ensures !AllSettled(poll, seen, restarting, policy, uid, containers)
  {
    AlwaysIsTerminalIff(poll, seen, restarting, policy, KeyOf(uid, containers[0]));
  }

  /** A container whose machine is gone is reported as completed exactly when checkPod
      would, under policy Never, count it as settled; as failed exactly while it is
      being restarted. */
  lemma LookupOfMissing(poll: Poll, seen: set<string>, restarting: set<string>, key: string)
    requires key !in poll.states
    ensures Lookup(poll, seen, restarting, key) == Exited <==> Settled(poll, seen, restarting, Never, key)
    ensures Lookup(poll, seen, restarting, key) == Failed <==> key in restarting
    ensures Lookup(poll, seen, restarting, key) == Unknown <==> key !in restarting && key !in seen
  {
  }
}
