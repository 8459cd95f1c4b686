/**
 Everything that touches one queue, interleaved: producers that enqueue and
 forget, and workers that take turns waiting for the next item (a semaphore lets
 one wait at a time), handle it outside the lock, and report back.
 */
module QueueSystem {
  import opened Common
  import opened QueueModel

  datatype Worker =
    | Ready                     // before the semaphore
    | Checking                  // holds the semaphore, about to look at the head
    | BlockedEmpty              // saw an empty list; waits for the wakeup token
    | BlockedUntil(at: Time)    // saw a head planned for `at`; waits for a timer or the token
    | Handling(key: Key)        // runs the handler
    | Stopped

  predicate Waiting(w: Worker) {
    w.Checking? || w.BlockedEmpty? || w.BlockedUntil?
  }

  datatype System = System(q: QState, workers: seq<Worker>)

  datatype Event =
    | Enqueue(key: Key, ratelimit: bool, delay: Option<Duration>, limiter: Duration, now: Time)
    | ForgetKey(key: Key)
    | Acquire(w: nat)
    | Look(w: nat, now: Time)
    | WakeByToken(w: nat)
    | WakeByTimer(w: nat, now: Time)
    | Cancel(w: nat)
    | Return(w: nat, failed: bool, decision: Decision, limiter: Duration, now: Time)

  ghost predicate Enabled(s: System, e: Event) {
    match e
    case Enqueue(_, _, _, _, _) => true
    case ForgetKey(_) => true
    case Acquire(w) =>
      w < |s.workers| && s.workers[w].Ready? && forall i :: 0 <= i < |s.workers| ==> !Waiting(s.workers[i])
    case Look(w, _) => w < |s.workers| && s.workers[w].Checking?
    case WakeByToken(w) => w < |s.workers| && (s.workers[w].BlockedEmpty? || s.workers[w].BlockedUntil?) && s.q.token
    case WakeByTimer(w, now) => w < |s.workers| && s.workers[w].BlockedUntil? && s.workers[w].at <= now
    case Cancel(w) => w < |s.workers| && !s.workers[w].Handling? && !s.workers[w].Checking?
    case Return(w, _, _, _, _) => w < |s.workers| && s.workers[w].Handling? && s.workers[w].key in s.q.processing
  }

  function SetWorker(s: System, w: nat, to: Worker): System
    requires w < |s.workers|
  {
    s.(workers := s.workers[w := to])
  }

  ghost function Apply(s: System, e: Event): System
    requires Enabled(s, e)
  {
    match e
    case Enqueue(key, ratelimit, delay, limiter, now) => s.(q := Insert(s.q, key, ratelimit, delay, limiter, now))
    case ForgetKey(key) => s.(q := Forget(s.q, key))
    case Acquire(w) => SetWorker(s, w, Checking)
    case Look(w, now) =>
      if s.q.items == [] then SetWorker(s, w, BlockedEmpty)
      else if s.q.items[0].planned <= now then SetWorker(s.(q := Take(s.q)), w, Handling(s.q.items[0].key))
      else SetWorker(s, w, BlockedUntil(s.q.items[0].planned))
    case WakeByToken(w) => SetWorker(s.(q := s.q.(token := false)), w, Checking)
    case WakeByTimer(w, _) => SetWorker(s, w, Checking)
    case Cancel(w) => SetWorker(s, w, Stopped)
    case Return(w, failed, decision, limiter, now) =>
      SetWorker(s.(q := Finish(s.q, s.workers[w].key, failed, decision, limiter, now)), w, Ready)
  }

  ghost predicate ValidRun(s: System, es: seq<Event>)
    decreases |es|
  {
    es == [] || (Enabled(s, es[0]) && ValidRun(Apply(s, es[0]), es[1..]))
  }

  ghost function Final(s: System, es: seq<Event>): System
    requires ValidRun(s, es)
    decreases |es|
  {
    if es == [] then s else Final(Apply(s, es[0]), es[1..])
  }

  /** A new queue with n workers that have not started waiting. */
  ghost predicate Initial(s: System) {
    s.q == QState([], map[], false) && forall i :: 0 <= i < |s.workers| ==> s.workers[i].Ready?
  }

  // ---- what every step keeps ----

  ghost function Handled(workers: seq<Worker>): set<Key> {
    set i | 0 <= i < |workers| && workers[i].Handling? :: workers[i].key
  }

  /** No key is handled by two workers at once. */
  ghost predicate Exclusive(workers: seq<Worker>) {
    forall i, j :: 0 <= i < j < |workers| && workers[i].Handling? && workers[j].Handling? ==>
      workers[i].key != workers[j].key
  }

  ghost predicate OneWaiter(workers: seq<Worker>) {
    forall i, j :: 0 <= i < j < |workers| ==> !(Waiting(workers[i]) && Waiting(workers[j]))
  }

  /** What a waiter is waiting for is not overtaken by the head of the list,
      unless the wakeup token is pending. */
  ghost predicate WillWake(w: Worker, q: QState) {
    && (w.BlockedEmpty? && q.items != [] ==> q.token)
    && (w.BlockedUntil? && q.items != [] && q.items[0].planned < w.at ==> q.token)
  }

  ghost predicate NoLostWakeup(s: System) {
    forall i :: 0 <= i < |s.workers| ==> WillWake(s.workers[i], s.q)
  }

  ghost predicate SystemInv(s: System) {
    && Inv(s.q)
    && s.q.processing.Keys == Handled(s.workers)
    && Exclusive(s.workers)
    && OneWaiter(s.workers)
    && NoLostWakeup(s)
  }

  lemma WorkerChanges(workers: seq<Worker>, w: nat, to: Worker)
    requires w < |workers| && Exclusive(workers)
    requires to.Handling? ==> !workers[w].Handling? && to.key !in Handled(workers)
    ensures Exclusive(workers[w := to])
    ensures Handled(workers[w := to]) ==
            Handled(workers) - (if workers[w].Handling? then {workers[w].key} else {})
            + (if to.Handling? then {to.key} else {})
  {
    var ws := workers[w := to];
    forall k | k in Handled(workers) && !(workers[w].Handling? && workers[w].key == k) ensures k in Handled(ws) {
      var i :| 0 <= i < |workers| && workers[i].Handling? && workers[i].key == k;
      assert ws[i] == workers[i];
    }
    forall i | 0 <= i < |ws| && i != w && ws[i].Handling?
      ensures ws[i].key in Handled(workers) && !(workers[w].Handling? && workers[w].key == ws[i].key)
    {
      assert ws[i] == workers[i];
    }
    if to.Handling? { assert ws[w].key in Handled(ws); }
  }

  lemma OneWaiterAfter(workers: seq<Worker>, w: nat, to: Worker)
    requires w < |workers| && OneWaiter(workers)
    requires Waiting(to) ==> Waiting(workers[w]) || forall i :: 0 <= i < |workers| ==> !Waiting(workers[i])
    ensures OneWaiter(workers[w := to])
  {
  }

  lemma ForgetKeepsWakeups(s: System, key: Key)
    requires Inv(s.q) && NoLostWakeup(s)
    ensures NoLostWakeup(s.(q := Forget(s.q, key)))
  {
    var q' := Forget(s.q, key);
    if q'.items != [] {
      assert s.q.items[0].planned <= q'.items[0].planned;
    }
    forall i | 0 <= i < |s.workers| ensures WillWake(s.workers[i], q') {
      assert WillWake(s.workers[i], s.q);
    }
  }

  lemma RequestKeepsInv(s: System, e: Event)
    requires SystemInv(s) && Enabled(s, e) && (e.Enqueue? || e.ForgetKey?)
    ensures SystemInv(Apply(s, e))
  {
    match e
    case Enqueue(key, ratelimit, delay, limiter, now) =>
      InsertKeepsInv(s.q, key, ratelimit, delay, limiter, now);
      InsertKeys(s.q, key, ratelimit, delay, limiter, now);
    case ForgetKey(key) =>
      ForgetKeepsInv(s.q, key);
      ForgetKeepsWakeups(s, key);
  }

  lemma LookKeepsInv(s: System, w: nat, now: Time)
    requires SystemInv(s) && Enabled(s, Look(w, now))
    ensures SystemInv(Apply(s, Look(w, now)))
  {
    var s' := Apply(s, Look(w, now));
    OneWaiterAfter(s.workers, w, s'.workers[w]);
    if s.q.items != [] && s.q.items[0].planned <= now {
      TakeKeepsInv(s.q);
      WorkerChanges(s.workers, w, Handling(s.q.items[0].key));
      forall i | 0 <= i < |s'.workers| ensures WillWake(s'.workers[i], s'.q) {
        assert i != w ==> !Waiting(s.workers[i]);
      }
    } else {
      WorkerChanges(s.workers, w, s'.workers[w]);
    }
  }

  lemma WakeKeepsInv(s: System, e: Event)
    requires SystemInv(s) && Enabled(s, e) && (e.Acquire? || e.WakeByToken? || e.WakeByTimer? || e.Cancel?)
    ensures SystemInv(Apply(s, e))
  {
    var s' := Apply(s, e);
    WorkerChanges(s.workers, e.w, s'.workers[e.w]);
    OneWaiterAfter(s.workers, e.w, s'.workers[e.w]);
    forall i | 0 <= i < |s'.workers| ensures WillWake(s'.workers[i], s'.q) {
      assert i != e.w ==> WillWake(s.workers[i], s.q);
      assert e.WakeByToken? && i != e.w ==> !Waiting(s.workers[i]);
    }
  }

  lemma ReturnKeepsInv(s: System, w: nat, failed: bool, decision: Decision, limiter: Duration, now: Time)
    requires SystemInv(s) && Enabled(s, Return(w, failed, decision, limiter, now))
    ensures SystemInv(Apply(s, Return(w, failed, decision, limiter, now)))
  {
    var s' := Apply(s, Return(w, failed, decision, limiter, now));
    FinishKeepsInv(s.q, s.workers[w].key, failed, decision, limiter, now);
    WorkerChanges(s.workers, w, Ready);
    OneWaiterAfter(s.workers, w, Ready);
    forall i | 0 <= i < |s'.workers| ensures WillWake(s'.workers[i], s'.q) {
      assert i != w ==> WillWake(s.workers[i], s.q);
    }
  }

  lemma StepKeepsInv(s: System, e: Event)
    requires SystemInv(s) && Enabled(s, e)
    ensures SystemInv(Apply(s, e))
  {
    match e
    case Enqueue(_, _, _, _, _) => RequestKeepsInv(s, e);
    case ForgetKey(_) => RequestKeepsInv(s, e);
    case Look(w, now) => LookKeepsInv(s, w, now);
    case Return(w, failed, decision, limiter, now) => ReturnKeepsInv(s, w, failed, decision, limiter, now);
    case _ => WakeKeepsInv(s, e);
  }

  lemma {:induction false} RunKeepsInv(s: System, es: seq<Event>)
    requires SystemInv(s) && ValidRun(s, es)
    ensures SystemInv(Final(s, es))
    decreases |es|
  {
    if es != [] {
      StepKeepsInv(s, es[0]);
      RunKeepsInv(Apply(s, es[0]), es[1..]);
    }
  }

  /** Over every interleaving from a new queue: the list is sorted, holds each key once
      and no key that is being handled; a worker's key is handled by it alone; and
      no wakeup is lost. */
  lemma ReachableStatesAreSafe(s: System, es: seq<Event>)
    requires Initial(s) && ValidRun(s, es)
    ensures SystemInv(Final(s, es))
  {
    assert SystemInv(s);
    RunKeepsInv(s, es);
  }

  /** Work that is due is taken: whoever waits (or may start to wait) can reach the
      head in at most two of its own steps, whatever it is blocked on. */
  lemma DueHeadCanBeTaken(s: System, w: nat, now: Time) returns (es: seq<Event>)
    requires SystemInv(s) && w < |s.workers| && s.q.items != [] && s.q.items[0].planned <= now
    requires Waiting(s.workers[w]) || Enabled(s, Acquire(w))
    ensures |es| <= 2 && ValidRun(s, es)
    ensures Final(s, es).workers == s.workers[w := Handling(s.q.items[0].key)]
    ensures Final(s, es).q == Take(s.q).(token := Final(s, es).q.token)
  {
    assert WillWake(s.workers[w], s.q);
    var look := Look(w, now);
    if s.workers[w].Checking? {
      es := [look];
      OneStep(s, look);
    } else {
      var first := if s.workers[w].Ready? then Acquire(w)
                   else if s.q.token then WakeByToken(w) else WakeByTimer(w, now);
      es := [first, look];
      OneStep(Apply(s, first), look);
      assert es[1..] == [look];
      assert Final(s, es) == Apply(Apply(s, first), look);
    }
  }

  /** A worker whose handler has returned may wait for the next item, as soon as nobody else does. */
  lemma WorkerGoesOn(s: System, w: nat, failed: bool, decision: Decision, limiter: Duration, now: Time)
    requires SystemInv(s) && Enabled(s, Return(w, failed, decision, limiter, now))
    ensures var s' := Apply(s, Return(w, failed, decision, limiter, now));
            Enabled(s', Acquire(w)) <==> forall i :: 0 <= i < |s.workers| ==> !Waiting(s.workers[i])
  {
    var s' := Apply(s, Return(w, failed, decision, limiter, now));
    assert forall i :: 0 <= i < |s.workers| && i != w ==> s'.workers[i] == s.workers[i];
  }

  lemma OneStep(s: System, e: Event)
    requires Enabled(s, e)
    ensures ValidRun(s, [e]) && Final(s, [e]) == Apply(s, e)
  {
    assert [e][1..] == [];
  }
}
