/**
 Whole runs of the queue seen from one key: nothing requested while the key is
 handled is lost, and a key that always fails is handled exactly twenty times.
 */
module QueueRuns {
  import opened Common
  import opened QueueModel
  import opened QueueSystem

  /** Event `e` ends the handling of `k`. */
  ghost predicate Completes(s: System, e: Event, k: Key) {
    e.Return? && Enabled(s, e) && s.workers[e.w] == Handling(k)
  }

  ghost predicate InSession(s: System, es: seq<Event>, k: Key)
    requires ValidRun(s, es)
    decreases |es|
  {
    es == [] || (!Completes(s, es[0], k) && InSession(Apply(s, es[0]), es[1..], k))
  }

  datatype Request = NoRequest | Enqueued | Forgotten

  function RequestOf(e: Event, k: Key): Request {
    if e.Enqueue? && e.key == k then Enqueued
    else if e.ForgetKey? && e.key == k then Forgotten
    else NoRequest
  }

  function LastRequest(es: seq<Event>, k: Key): Request {
    if es == [] then NoRequest
    else if LastRequest(es[1..], k) != NoRequest then LastRequest(es[1..], k)
    else RequestOf(es[0], k)
  }

  /** The times asked for by the enqueues of `k`. */
  function Whens(es: seq<Event>, k: Key): seq<Time> {
    if es == [] then []
    else if RequestOf(es[0], k) == Enqueued
    then [es[0].now + if es[0].delay.Some? then es[0].delay.value else 0] + Whens(es[1..], k)
    else Whens(es[1..], k)
  }

  function Earlier(a: Option<Time>, t: Time): Option<Time> {
    if a == None || t < a.value then Some(t) else a
  }

  function Earliest(a: Option<Time>, ts: seq<Time>): Option<Time>
    decreases |ts|
  {
    if ts == [] then a else Earliest(Earlier(a, ts[0]), ts[1..])
  }

  lemma {:induction false} EarliestIsMinimum(a: Option<Time>, ts: seq<Time>)
    ensures var m := Earliest(a, ts);
            && (m == None <==> a == None && ts == [])
            && (m.Some? ==> m == a || m.value in ts)
            && (m.Some? && a.Some? ==> m.value <= a.value)
            && (m.Some? ==> forall t :: t in ts ==> m.value <= t)
    decreases |ts|
  {
    if ts != [] {
      EarliestIsMinimum(Earlier(a, ts[0]), ts[1..]);
      forall t | t in ts ensures Earliest(a, ts).value <= t {
        assert t == ts[0] || t in ts[1..];
      }
    }
  }

  // ---- no lost work ----

  function Requested(it: Item, e: Event, k: Key): Item {
    match RequestOf(e, k)
    case NoRequest => it
    case Enqueued => Redirty(it, e.ratelimit, After(e.now, e.delay))
    case Forgotten => it.(forget := true)
  }

  function AfterRequests(it: Item, es: seq<Event>, k: Key): Item
    decreases |es|
  {
    if es == [] then it else AfterRequests(Requested(it, es[0], k), es[1..], k)
  }

  lemma {:induction false} RequestsMean(it: Item, es: seq<Event>, k: Key)
    ensures var it' := AfterRequests(it, es, k);
            && it'.key == it.key && it'.requeues == it.requeues && it'.originallyAdded == it.originallyAdded
            && it'.redirtiedAt == Earliest(it.redirtiedAt, Whens(es, k))
            && it'.forget == match LastRequest(es, k)
                             case NoRequest => it.forget
                             case Enqueued => false
                             case Forgotten => true
    decreases |es|
  {
    if es != [] {
      RequestsMean(Requested(it, es[0], k), es[1..], k);
      if RequestOf(es[0], k) == Enqueued {
        assert Whens(es, k)[1..] == Whens(es[1..], k);
      }
    }
  }

  /** What one step does to an item that is being handled. */
  lemma StepOnHandled(s: System, e: Event, k: Key)
    requires SystemInv(s) && Enabled(s, e) && !Completes(s, e, k) && k in s.q.processing
    ensures var q' := Apply(s, e).q;
            k in q'.processing && q'.processing[k] == Requested(s.q.processing[k], e, k)
  {
    var p := IndexOf(s.q.items, k);
    assert p == |s.q.items|;
  }

  lemma {:induction false} SessionItem(s: System, es: seq<Event>, k: Key)
    requires SystemInv(s) && ValidRun(s, es) && InSession(s, es, k) && k in s.q.processing
    ensures var q' := Final(s, es).q;
            SystemInv(Final(s, es)) && k in q'.processing && q'.processing[k] == AfterRequests(s.q.processing[k], es, k)
    decreases |es|
  {
    if es != [] {
      StepKeepsInv(s, es[0]);
      StepOnHandled(s, es[0], k);
      SessionItem(Apply(s, es[0]), es[1..], k);
    }
  }

  /** The item of a queued key. */
  ghost function Queued(q: QState, k: Key): Item
    requires k in Keys(q.items)
  {
    q.items[IndexOf(q.items, k)]
  }

  lemma FinishedItem(q: QState, k: Key, failed: bool, decision: Decision, limiter: Duration, now: Time)
    requires Inv(q) && k in q.processing
    ensures var q' := Finish(q, k, failed, decision, limiter, now);
            var back := Requeued(q.processing[k], failed, decision, limiter, now);
            && k !in q'.processing
            && (k in Keys(q'.items) <==> back.Some?)
            && (back.Some? ==> Queued(q', k) == back.value)
  {
    FinishKeepsInv(q, k, failed, decision, limiter, now);
    var back := Requeued(q.processing[k], failed, decision, limiter, now);
    if back.Some? {
      PlaceThenEdit(q.items, back.value, back.value);
    }
  }

  /** How the handling of `item` may end, given the requests `es` made meanwhile:
      a last request to forget wins, a last request to enqueue always brings the key
      back, and without a retry it comes back at the earliest of the times asked for. */
  ghost predicate NothingLost(item: Item, es: seq<Event>, e: Event, q: QState)
    requires e.Return?
  {
    var k := item.key;
    var retried := e.failed && e.decision.Retry?;
    && k !in q.processing
    && (match LastRequest(es, k)
        case Forgotten => k !in Keys(q.items)
        case NoRequest => k in Keys(q.items) <==> retried
        case Enqueued => k in Keys(q.items) && (!retried ==> ComesBackAtMinimum(Queued(q, k), Whens(es, k))))
    && (LastRequest(es, k) != Forgotten && retried ==>
          && Queued(q, k).requeues == item.requeues + 1
          && Queued(q, k).originallyAdded == item.originallyAdded
          && Queued(q, k).planned == e.now + (if e.decision.delay.Some? then e.decision.delay.value else e.limiter))
  }

  ghost predicate ComesBackAtMinimum(it: Item, whens: seq<Time>) {
    it.requeues == 0 && it.planned in whens && forall u :: u in whens ==> it.planned <= u
  }

  lemma EndOfSession(q: QState, item: Item, es: seq<Event>, e: Event)
    requires Inv(q) && Clean(item) && item.key in q.processing && e.Return?
    requires q.processing[item.key] == AfterRequests(item, es, item.key)
    ensures NothingLost(item, es, e, Finish(q, item.key, e.failed, e.decision, e.limiter, e.now))
  {
    var k := item.key;
    RequestsMean(item, es, k);
    EarliestIsMinimum(None, Whens(es, k));
    EnqueuedHasWhen(es, k);
    FinishedItem(q, k, e.failed, e.decision, e.limiter, e.now);
  }

  /** From the moment a worker takes a key to the moment its handler returns, in any
      interleaving, no request is lost. */
  lemma NoLostWork(s: System, w: nat, taken: Time, es: seq<Event>, e: Event)
    requires SystemInv(s) && Enabled(s, Look(w, taken)) && s.q.items != [] && s.q.items[0].planned <= taken
    requires var s1 := Apply(s, Look(w, taken)); var k := s.q.items[0].key;
             ValidRun(s1, es) && InSession(s1, es, k) && Completes(Final(s1, es), e, k)
    ensures NothingLost(s.q.items[0], es, e, Apply(Final(Apply(s, Look(w, taken)), es), e).q)
  {
    var s1, k := Apply(s, Look(w, taken)), s.q.items[0].key;
    StepKeepsInv(s, Look(w, taken));
    SessionItem(s1, es, k);
    EndOfSession(Final(s1, es).q, s.q.items[0], es, e);
  }

  lemma {:induction false} EnqueuedHasWhen(es: seq<Event>, k: Key)
    ensures LastRequest(es, k) == Enqueued ==> Whens(es, k) != []
    ensures LastRequest(es, k) == NoRequest ==> Whens(es, k) == []
  {
    if es != [] {
      EnqueuedHasWhen(es[1..], k);
    }
  }

  // ---- bounded retries ----

  /** Every return of a handler is judged by the default retry function. */
  ghost predicate DefaultRetries(s: System, es: seq<Event>)
    requires ValidRun(s, es)
    decreases |es|
  {
    es == [] ||
    (&& (es[0].Return? ==> es[0].decision == DefaultRetry(s.q.processing[s.workers[es[0].w].key].requeues + 1))
     && DefaultRetries(Apply(s, es[0]), es[1..]))
  }

  ghost predicate AllBelow(items: seq<Item>) {
    forall i :: 0 <= i < |items| ==> items[i].requeues < MAX_RETRIES
  }

  ghost predicate BelowLimit(q: QState) {
    AllBelow(q.items) && forall k :: k in q.processing ==> q.processing[k].requeues < MAX_RETRIES
  }

  lemma PlaceBelow(items: seq<Item>, it: Item)
    requires AllBelow(items) && it.requeues < MAX_RETRIES
    ensures AllBelow(Place(items, it))
  {
    var s, r := Slot(items, it.planned), Place(items, it);
    forall i | 0 <= i < |r| ensures r[i].requeues < MAX_RETRIES {
      if i != s { assert r[i] == items[if i < s then i else i - 1]; }
    }
  }

  lemma RequestBelow(q: QState, e: Event)
    requires BelowLimit(q) && e.Enqueue?
    ensures BelowLimit(Insert(q, e.key, e.ratelimit, e.delay, e.limiter, e.now))
  {
    var p, at := IndexOf(q.items, e.key), After(e.now, e.delay);
    if e.key in q.processing {
    } else if p < |q.items| {
      PlaceBelow(RemoveAt(q.items, p), q.items[p].(planned := at));
    } else {
      PlaceBelow(q.items, FreshItem(e.key, e.ratelimit, e.delay, e.limiter, e.now));
    }
  }

  lemma ReturnBelow(q: QState, k: Key, failed: bool, limiter: Duration, now: Time)
    requires BelowLimit(q) && k in q.processing
    ensures BelowLimit(Finish(q, k, failed, DefaultRetry(q.processing[k].requeues + 1), limiter, now))
  {
    var back := Requeued(q.processing[k], failed, DefaultRetry(q.processing[k].requeues + 1), limiter, now);
    if back.Some? {
      PlaceBelow(q.items, back.value);
    }
  }

  lemma StepKeepsLimit(s: System, e: Event)
    requires Enabled(s, e) && BelowLimit(s.q)
    requires e.Return? ==> e.decision == DefaultRetry(s.q.processing[s.workers[e.w].key].requeues + 1)
    ensures BelowLimit(Apply(s, e).q)
  {
    match e
    case Enqueue(_, _, _, _, _) => RequestBelow(s.q, e);
    case Return(w, failed, _, limiter, now) => ReturnBelow(s.q, s.workers[w].key, failed, limiter, now);
    case _ =>
  }

  /** With the default retry function no item ever reaches MAX_RETRIES requeues. */
  lemma {:induction false} RetriesStayBelowLimit(s: System, es: seq<Event>)
    requires ValidRun(s, es) && DefaultRetries(s, es) && BelowLimit(s.q)
    ensures BelowLimit(Final(s, es).q)
    decreases |es|
  {
    if es != [] {
      StepKeepsLimit(s, es[0]);
      RetriesStayBelowLimit(Apply(s, es[0]), es[1..]);
    }
  }

  /** In particular in every state that is reachable from a new queue. */
  lemma ReachableStaysBelowLimit(s: System, es: seq<Event>)
    requires Initial(s) && ValidRun(s, es) && DefaultRetries(s, es)
    ensures BelowLimit(Final(s, es).q)
  {
    RetriesStayBelowLimit(s, es);
  }

  /** `k` waits or is handled after `n` failures, and nobody asked for it since. */
  ghost predicate Pending(q: QState, k: Key, n: nat) {
    if k in q.processing then Clean(q.processing[k]) && q.processing[k].requeues == n
    else k in Keys(q.items) && Queued(q, k).requeues == n
  }

  ghost predicate Absent(q: QState, k: Key) {
    k !in q.processing && k !in Keys(q.items)
  }

  /** In this run nobody enqueues or forgets `k` and its handler always fails. */
  ghost predicate OnlyFails(s: System, es: seq<Event>, k: Key)
    requires ValidRun(s, es)
    decreases |es|
  {
    es == [] ||
    (&& RequestOf(es[0], k) == NoRequest
     && (Completes(s, es[0], k) ==>
           es[0].failed && es[0].decision == DefaultRetry(s.q.processing[k].requeues + 1))
     && OnlyFails(Apply(s, es[0]), es[1..], k))
  }

  ghost function Attempts(s: System, es: seq<Event>, k: Key): nat
    requires ValidRun(s, es)
    decreases |es|
  {
    if es == [] then 0
    else (if Completes(s, es[0], k) then 1 else 0) + Attempts(Apply(s, es[0]), es[1..], k)
  }

  /** Where an item with a key of its own is found. */
  lemma FoundAt(items: seq<Item>, k: Key, i: nat)
    requires DistinctKeys(items) && i < |items| && items[i].key == k
    ensures k in Keys(items) && IndexOf(items, k) == i
  {
  }

  lemma QueuedAfterPlace(items: seq<Item>, it: Item, k: Key)
    requires DistinctKeys(items) && it.key !in Keys(items) && k in Keys(items)
    ensures k in Keys(Place(items, it)) && Place(items, it)[IndexOf(Place(items, it), k)] == items[IndexOf(items, k)]
  {
    var s, i := Slot(items, it.planned), IndexOf(items, k);
    InsertAtDistinct(items, s, it);
    InsertAtKeepsItem(items, s, it, i);
    FoundAt(Place(items, it), k, if i < s then i else i + 1);
  }

  lemma QueuedAfterRemove(items: seq<Item>, p: nat, k: Key)
    requires DistinctKeys(items) && p < |items| && k in Keys(items) && items[p].key != k
    ensures var r := RemoveAt(items, p); k in Keys(r) && r[IndexOf(r, k)] == items[IndexOf(items, k)]
  {
    var i := IndexOf(items, k);
    RemoveAtKeys(items, p);
    FoundAt(RemoveAt(items, p), k, if i < p then i else i - 1);
  }

  /** A queued item is untouched by requests for other keys. */
  lemma OtherInsert(q: QState, e: Event, k: Key)
    requires Inv(q) && e.Enqueue? && e.key != k && k in Keys(q.items)
    ensures var q' := Insert(q, e.key, e.ratelimit, e.delay, e.limiter, e.now);
            k in Keys(q'.items) && Queued(q', k) == Queued(q, k)
  {
    var p, at := IndexOf(q.items, e.key), After(e.now, e.delay);
    if e.key in q.processing {
    } else if p < |q.items| {
      if at <= q.items[p].planned {
        RemoveKeepsOk(q.items, q.processing, p);
        QueuedAfterRemove(q.items, p, k);
        QueuedAfterPlace(RemoveAt(q.items, p), q.items[p].(planned := at), k);
      }
    } else {
      QueuedAfterPlace(q.items, FreshItem(e.key, e.ratelimit, e.delay, e.limiter, e.now), k);
    }
  }

  lemma OtherReturn(q: QState, e: Event, key: Key, k: Key)
    requires Inv(q) && e.Return? && key in q.processing && k in Keys(q.items)
    ensures var q' := Finish(q, key, e.failed, e.decision, e.limiter, e.now);
            k in Keys(q'.items) && Queued(q', k) == Queued(q, k)
  {
    var back := Requeued(q.processing[key], e.failed, e.decision, e.limiter, e.now);
    if back.Some? {
      QueuedAfterPlace(q.items, back.value, k);
    }
  }

  lemma OtherTake(q: QState, k: Key, n: nat)
    requires Inv(q) && k in Keys(q.items) && Queued(q, k).requeues == n
    ensures Pending(Take(q), k, n)
  {
    if q.items[0].key != k {
      assert q.items[1..] == RemoveAt(q.items, 0);
      QueuedAfterRemove(q.items, 0, k);
    }
  }

  lemma StepOnQueued(s: System, e: Event, k: Key, n: nat)
    requires SystemInv(s) && Enabled(s, e) && RequestOf(e, k) == NoRequest
    requires k in Keys(s.q.items) && Queued(s.q, k).requeues == n
    ensures Pending(Apply(s, e).q, k, n)
  {
    match e
    case Enqueue(key, ratelimit, delay, limiter, now) =>
      OtherInsert(s.q, e, k);
      InsertKeys(s.q, key, ratelimit, delay, limiter, now);
    case ForgetKey(key) =>
      var p := IndexOf(s.q.items, key);
      if p < |s.q.items| { QueuedAfterRemove(s.q.items, p, k); }
    case Look(w, now) =>
      if s.q.items[0].planned <= now { OtherTake(s.q, k, n); }
    case Return(w, _, _, _, _) => OtherReturn(s.q, e, s.workers[w].key, k);
    case _ =>
  }

  lemma CompletionOfFailing(s: System, e: Event, k: Key, n: nat)
    requires SystemInv(s) && Completes(s, e, k) && Pending(s.q, k, n) && n < MAX_RETRIES
    requires e.failed && e.decision == DefaultRetry(n + 1)
    ensures if n + 1 < MAX_RETRIES then Pending(Apply(s, e).q, k, n + 1) else Absent(Apply(s, e).q, k)
  {
    FinishedItem(s.q, k, e.failed, e.decision, e.limiter, e.now);
  }

  lemma AbsentStaysAbsent(s: System, e: Event, k: Key)
    requires SystemInv(s) && Enabled(s, e) && RequestOf(e, k) == NoRequest && Absent(s.q, k)
    ensures Absent(Apply(s, e).q, k) && !Completes(s, e, k)
  {
    match e
    case Enqueue(key, ratelimit, delay, limiter, now) => InsertKeys(s.q, key, ratelimit, delay, limiter, now);
    case ForgetKey(key) => ForgetKeepsInv(s.q, key);
    case Look(w, now) => if s.q.items != [] { TakeKeepsInv(s.q); }
    case Return(w, failed, decision, limiter, now) =>
      FinishKeepsInv(s.q, s.workers[w].key, failed, decision, limiter, now);
    case _ =>
  }

  /** The state of an always failing key after `n` completed attempts. */
  ghost predicate Failing(q: QState, k: Key, n: nat) {
    n <= MAX_RETRIES && if n < MAX_RETRIES then Pending(q, k, n) else Absent(q, k)
  }

  lemma FailingStep(s: System, e: Event, k: Key, n: nat)
    requires SystemInv(s) && Enabled(s, e) && RequestOf(e, k) == NoRequest && Failing(s.q, k, n)
    requires Completes(s, e, k) ==>
               e.failed && e.decision == DefaultRetry(s.q.processing[k].requeues + 1)
    ensures Failing(Apply(s, e).q, k, if Completes(s, e, k) then n + 1 else n)
  {
    if n == MAX_RETRIES {
      AbsentStaysAbsent(s, e, k);
    } else if Completes(s, e, k) {
      CompletionOfFailing(s, e, k, n);
    } else if k in s.q.processing {
      StepOnHandled(s, e, k);
    } else {
      StepOnQueued(s, e, k, n);
    }
  }

  lemma {:induction false} FailingRun(s: System, es: seq<Event>, k: Key, n: nat)
    requires SystemInv(s) && ValidRun(s, es) && OnlyFails(s, es, k) && Failing(s.q, k, n)
    ensures Failing(Final(s, es).q, k, n + Attempts(s, es, k))
    decreases |es|
  {
    if es != [] {
      var n' := if Completes(s, es[0], k) then n + 1 else n;
      StepKeepsInv(s, es[0]);
      FailingStep(s, es[0], k, n);
      FailingRun(Apply(s, es[0]), es[1..], k, n');
    }
  }

  /** A key that is enqueued once, by anyone, and whose handler always fails is tried
      until its 20th attempt and never after: in every interleaving the number of
      completed attempts is the item's retry count while the key is known, and is 20
      exactly when the key has been dropped. */
  lemma AlwaysFailingKeyIsDropped(s: System, first: Event, es: seq<Event>, k: Key)
    requires SystemInv(s) && Absent(s.q, k) && first.Enqueue? && first.key == k
    requires ValidRun(Apply(s, first), es) && OnlyFails(Apply(s, first), es, k)
    ensures var n := Attempts(Apply(s, first), es, k); var q := Final(Apply(s, first), es).q;
            && n <= 20
            && (Absent(q, k) <==> n == 20)
            && (n < 20 ==> Pending(q, k, n))
  {
    var s1, it := Apply(s, first), FreshItem(k, first.ratelimit, first.delay, first.limiter, first.now);
    StepKeepsInv(s, first);
    InsertKeys(s.q, k, first.ratelimit, first.delay, first.limiter, first.now);
    PlaceThenEdit(s.q.items, it, it);
    FailingRun(s1, es, k, 0);
  }
}
