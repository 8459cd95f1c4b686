/**
 What each locked section of the queue does, key by key and field by field: the times, flags
 and counts that the source promises, written out.  Positions in the list follow from these,
 because the list is sorted and holds each key once.
 */
module QueueSteps {
  import opened Common
  import opened QueueModel
  import opened QueueRuns

  /** Keys other than `key` are not touched. */
  ghost predicate OthersStay(q: QState, q': QState, key: Key) {
    && (forall k :: k != key ==> (k in q.processing <==> k in q'.processing))
    && (forall k :: k != key && k in q.processing ==> q'.processing[k] == q.processing[k])
    && (forall k :: k != key ==> (k in Keys(q.items) <==> k in Keys(q'.items)))
    && (forall k :: k != key && k in Keys(q.items) ==> k in Keys(q'.items) && Queued(q', k) == Queued(q, k))
  }

  lemma PlaceOthers(items: seq<Item>, it: Item, q: QState, q': QState)
    requires DistinctKeys(items) && it.key !in Keys(items) && q.items == items && q'.items == Place(items, it)
    requires forall k :: k != it.key ==> (k in q.processing <==> k in q'.processing)
    requires forall k :: k != it.key && k in q.processing ==> q'.processing[k] == q.processing[k]
    ensures OthersStay(q, q', it.key) && it.key in Keys(q'.items) && Queued(q', it.key) == it
  {
    var s := Slot(items, it.planned);
    InsertAtKeys(items, s, it);
    FoundAt(q'.items, it.key, s);
    forall k | k != it.key && k in Keys(items) ensures k in Keys(q'.items) && Queued(q', k) == Queued(q, k) {
      QueuedAfterPlace(items, it, k);
    }
  }

  lemma RemoveOthers(q: QState, p: nat, q': QState)
    requires DistinctKeys(q.items) && p < |q.items| && q'.items == RemoveAt(q.items, p)
    requires forall k :: k != q.items[p].key ==> (k in q.processing <==> k in q'.processing)
    requires forall k :: k != q.items[p].key && k in q.processing ==> q'.processing[k] == q.processing[k]
    ensures OthersStay(q, q', q.items[p].key) && q.items[p].key !in Keys(q'.items)
  {
    RemoveAtKeys(q.items, p);
    forall k | k != q.items[p].key && k in Keys(q.items) ensures k in Keys(q'.items) && Queued(q', k) == Queued(q, k) {
      QueuedAfterRemove(q.items, p, k);
    }
  }

  lemma OthersStayTwice(q: QState, m: QState, q': QState, key: Key)
    requires OthersStay(q, m, key) && OthersStay(m, q', key)
    ensures OthersStay(q, q', key)
  {
  }

  /** The item of a queued key is replaced by `it`, and nothing else changes. */
  ghost predicate Becomes(q: QState, q': QState, key: Key, it: Item) {
    OthersStay(q, q', key) && key in Keys(q'.items) && Queued(q', key) == it
  }

  lemma MoveOthers(q: QState, p: nat, at: Time, q': QState)
    requires Inv(q) && p < |q.items| && q'.processing == q.processing
    requires q'.items == Place(RemoveAt(q.items, p), q.items[p].(planned := at))
    ensures Becomes(q, q', q.items[p].key, q.items[p].(planned := at))
  {
    var rest := q.(items := RemoveAt(q.items, p));
    RemoveOthers(q, p, rest);
    RemoveKeepsOk(q.items, q.processing, p);
    PlaceOthers(rest.items, q.items[p].(planned := at), rest, q');
    OthersStayTwice(q, rest, q', q.items[p].key);
  }

  lemma ForwardMeans(q: QState, p: nat, at: Time, q': QState)
    requires Inv(q) && p < |q.items| && q'.processing == q.processing && q'.items == Forward(q.items, p, at)
    ensures Becomes(q, q', q.items[p].key, q.items[p].(planned := Min(q.items[p].planned, at)))
  {
    if at <= q.items[p].planned {
      MoveOthers(q, p, at, q');
    } else {
      FoundAt(q.items, q.items[p].key, p);
    }
  }

  lemma InsertForwards(q: QState, key: Key, ratelimit: bool, delay: Option<Duration>, limiter: Duration, now: Time)
    requires Inv(q) && key in Keys(q.items)
    ensures IndexOf(q.items, key) < |q.items| && q.items[IndexOf(q.items, key)] == Queued(q, key)
    ensures var asked := now + if delay.Some? then delay.value else 0;
            Insert(q, key, ratelimit, delay, limiter, now) ==
            q.(items := Forward(q.items, IndexOf(q.items, key), asked), token := true)
  {
  }

  // ---- requests ----

  /** A request for a key being processed asks for it again at the earliest time asked for so
      far, with the rate limiting of the request that asked for that time, and undoes a Forget. */
  lemma RequestWhileProcessed(q: QState, key: Key, ratelimit: bool, delay: Option<Duration>, limiter: Duration,
                              now: Time)
    requires Inv(q) && key in q.processing
    ensures var q' := Insert(q, key, ratelimit, delay, limiter, now);
            var it := q.processing[key];
            var asked := now + if delay.Some? then delay.value else 0;
            var first := it.redirtiedAt.None? || asked < it.redirtiedAt.value;
            && q'.items == q.items && q'.token && OthersStay(q, q', key) && key in q'.processing
            && q'.processing[key] == Item(key, it.planned, Some(if first then asked else it.redirtiedAt.value),
                                          if first then ratelimit else it.redirtiedWithRatelimit, false, it.requeues,
                                          it.originallyAdded, it.addedViaRedirty, it.delayedViaRateLimit)
  {
  }

  /** A request for a queued key plans it for the minimum of its time and the time asked for. */
  lemma RequestWhileQueued(q: QState, key: Key, ratelimit: bool, delay: Option<Duration>, limiter: Duration, now: Time)
    requires Inv(q) && key in Keys(q.items)
    ensures var q' := Insert(q, key, ratelimit, delay, limiter, now);
            var asked := now + if delay.Some? then delay.value else 0;
            && q'.processing == q.processing && q'.token
            && Becomes(q, q', key, Queued(q, key).(planned := Min(Queued(q, key).planned, asked)))
  {
    InsertForwards(q, key, ratelimit, delay, limiter, now);
    ForwardMeans(q, IndexOf(q.items, key), now + if delay.Some? then delay.value else 0,
                 Insert(q, key, ratelimit, delay, limiter, now));
  }

  /** A request for an unknown key queues it: after the delay asked for, else after what the
      rate limiter says if it is asked, else at once. */
  lemma RequestWhenUnknown(q: QState, key: Key, ratelimit: bool, delay: Option<Duration>, limiter: Duration, now: Time)
    requires Inv(q) && key !in q.processing && key !in Keys(q.items)
    ensures var q' := Insert(q, key, ratelimit, delay, limiter, now);
            var wait := if delay.Some? then delay.value else if ratelimit then limiter else 0;
            && q'.processing == q.processing && q'.token
            && Becomes(q, q', key, Item(key, now + wait, None, false, false, 0, now, false,
                                        if ratelimit then Some(wait) else None))
  {
    var it := FreshItem(key, ratelimit, delay, limiter, now);
    assert IndexOf(q.items, key) == |q.items|;
    PlaceOthers(q.items, it, q, Insert(q, key, ratelimit, delay, limiter, now));
  }

  /** Forget drops a queued key, marks a processed one and ignores an unknown one. */
  lemma ForgetMeans(q: QState, key: Key)
    requires Inv(q)
    ensures var q' := Forget(q, key);
            && q'.token == q.token && OthersStay(q, q', key) && key !in Keys(q'.items)
            && (key in q'.processing <==> key in q.processing)
            && (key in q.processing ==> q'.processing[key] == q.processing[key].(forget := true))
  {
    var p := IndexOf(q.items, key);
    if p < |q.items| {
      RemoveOthers(q, p, Forget(q, key));
    }
  }

  /** Taking the head moves it, as it is, to the processed items. */
  lemma TakeMeans(q: QState)
    requires Inv(q) && q.items != []
    ensures var q', key := Take(q), q.items[0].key;
            && q'.token == q.token && OthersStay(q, q', key) && key !in Keys(q'.items)
            && key in q'.processing && q'.processing[key] == q.items[0]
  {
    assert q.items[1..] == RemoveAt(q.items, 0);
    RemoveOthers(q, 0, Take(q));
  }

  // ---- the end of processing ----

  /** When a handler returns its key is no longer processed.  It comes back exactly when it was
      not forgotten and it may be retried or was requested meanwhile. */
  lemma ReturnMeans(q: QState, key: Key, failed: bool, decision: Decision, limiter: Duration, now: Time)
    requires Inv(q) && key in q.processing
    ensures var q' := Finish(q, key, failed, decision, limiter, now);
            var it := q.processing[key];
            var back := !it.forget && ((failed && decision.Retry?) || it.redirtiedAt.Some?);
            && key !in q'.processing && OthersStay(q, q', key)
            && (key in Keys(q'.items) <==> back) && (q'.token <==> q.token || back)
  {
    var back := Requeued(q.processing[key], failed, decision, limiter, now);
    if back.Some? {
      PlaceOthers(q.items, back.value, q, Finish(q, key, failed, decision, limiter, now));
    }
  }

  /** After a failure that may be retried it comes back rate limited, with one requeue more. */
  lemma RetryMeans(q: QState, key: Key, decision: Decision, limiter: Duration, now: Time)
    requires Inv(q) && key in q.processing && !q.processing[key].forget && decision.Retry?
    ensures var it := q.processing[key];
            var wait := if decision.delay.Some? then decision.delay.value else limiter;
            Becomes(q, Finish(q, key, true, decision, limiter, now), key,
                    Item(key, now + wait, None, false, false, it.requeues + 1, it.originallyAdded, false, Some(wait)))
  {
    var back := Requeued(q.processing[key], true, decision, limiter, now);
    PlaceOthers(q.items, back.value, q, Finish(q, key, true, decision, limiter, now));
  }

  /** Otherwise it comes back at the time asked for, as a new item. */
  lemma AgainMeans(q: QState, key: Key, failed: bool, decision: Decision, limiter: Duration, now: Time)
    requires Inv(q) && key in q.processing && !q.processing[key].forget && !(failed && decision.Retry?)
    requires q.processing[key].redirtiedAt.Some?
    ensures var it := q.processing[key]; var at := it.redirtiedAt.value;
            Becomes(q, Finish(q, key, failed, decision, limiter, now), key,
                    Item(key, at, None, false, false, 0, now, true,
                         if it.redirtiedWithRatelimit then Some(at - now) else None))
  {
    var back := Requeued(q.processing[key], failed, decision, limiter, now);
    PlaceOthers(q.items, back.value, q, Finish(q, key, failed, decision, limiter, now));
  }
}
