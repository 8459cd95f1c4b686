/**
 The delayed work queue of internal/queue/queue.go as a value: what every
 locked section does to the time-ordered list, the items being processed and
 the one-slot wakeup channel.  `Queue` (Queue.dfy) implements these sections
 with the walks of the source; `QueueSystem` interleaves them.
 */
module QueueModel {
  import opened Common

  type Key = string

  const MAX_RETRIES := 20

  datatype Item = Item(
    key: Key,
    planned: Time,
    redirtiedAt: Option<Time>,
    redirtiedWithRatelimit: bool,
    forget: bool,
    requeues: nat,
    originallyAdded: Time,
    addedViaRedirty: bool,
    delayedViaRateLimit: Option<Duration>)

  /** `token` says whether the wakeup channel holds its one element. */
  datatype QState = QState(items: seq<Item>, processing: map<Key, Item>, token: bool)

  /** What a retry function answers: try again (perhaps after a delay) or give up. */
  datatype Decision = Retry(delay: Option<Duration>) | GiveUp

  function DefaultRetry(timesTried: nat): Decision {
    if timesTried < MAX_RETRIES then Retry(None) else GiveUp
  }

  // ---- the list ----

  ghost predicate Sorted(items: seq<Item>) {
    forall i, j :: 0 <= i < j < |items| ==> items[i].planned <= items[j].planned
  }

  ghost predicate DistinctKeys(items: seq<Item>) {
    forall i, j :: 0 <= i < j < |items| ==> items[i].key != items[j].key
  }

  ghost function Keys(items: seq<Item>): set<Key> {
    set i | 0 <= i < |items| :: items[i].key
  }

  /** Position of the first item with the given key, or the length if there is none. */
  function IndexOf(items: seq<Item>, key: Key): (r: nat)
    ensures r <= |items|
    ensures r < |items| ==> items[r].key == key
    ensures forall i :: 0 <= i < r ==> items[i].key != key
  {
    if items == [] then 0
    else if items[0].key == key then 0
    else 1 + IndexOf(items[1..], key)
  }

  function RemoveAt(items: seq<Item>, p: nat): (r: seq<Item>)
    requires p < |items|
    ensures |r| == |items| - 1
    ensures forall i :: 0 <= i < p ==> r[i] == items[i]
    ensures forall i :: p <= i < |r| ==> r[i] == items[i + 1]
  {
    items[..p] + items[p + 1..]
  }

  function InsertAt(items: seq<Item>, p: nat, it: Item): (r: seq<Item>)
    requires p <= |items|
    ensures |r| == |items| + 1 && r[p] == it
    ensures forall i :: 0 <= i < p ==> r[i] == items[i]
    ensures forall i :: p <= i < |items| ==> r[i + 1] == items[i]
  {
    items[..p] + [it] + items[p..]
  }

  /** The place of a planned time: just before the first item that is not earlier. */
  function Slot(items: seq<Item>, at: Time): (p: nat)
    ensures p <= |items|
    ensures forall i :: 0 <= i < p ==> items[i].planned < at
    ensures p < |items| ==> at <= items[p].planned
  {
    if items == [] || at <= items[0].planned then 0 else 1 + Slot(items[1..], at)
  }

  function Place(items: seq<Item>, it: Item): seq<Item> {
    InsertAt(items, Slot(items, it.planned), it)
  }

  /** In a sorted list the slot is the only cut between the earlier items and the
      rest, so a walk from the back that stops at the first earlier item finds it too. */
  lemma SlotIsUnique(items: seq<Item>, at: Time, p: nat)
    requires Sorted(items) && p <= |items|
    requires p == 0 || items[p - 1].planned < at
    requires forall i :: p <= i < |items| ==> at <= items[i].planned
    ensures p == Slot(items, at)
  {
    assert forall i :: 0 <= i < p ==> items[i].planned < at;
  }

  lemma InsertAtKeepsOrder(items: seq<Item>, p: nat, it: Item)
    requires Sorted(items) && p <= |items|
    requires forall i :: 0 <= i < p ==> items[i].planned <= it.planned
    requires p < |items| ==> it.planned <= items[p].planned
    ensures Sorted(InsertAt(items, p, it))
  {
    var r := InsertAt(items, p, it);
    forall i, j | 0 <= i < j < |r| ensures r[i].planned <= r[j].planned {
      if j < p {
        assert r[i] == items[i] && r[j] == items[j];
      } else if j == p {
        assert r[i] == items[i];
      } else {
        assert r[j] == items[j - 1];
        assert items[p].planned <= items[j - 1].planned;
        if i < p { assert r[i] == items[i]; }
        if i > p { assert r[i] == items[i - 1]; }
      }
    }
  }

  /** Where an item of the longer list comes from. */
  lemma InsertAtFrom(items: seq<Item>, p: nat, it: Item, i: nat)
    requires p <= |items| && i <= |items| && i != p
    ensures var j := if i < p then i else i - 1; InsertAt(items, p, it)[i] == items[j]
  {
  }

  lemma InsertAtKeepsItem(items: seq<Item>, p: nat, it: Item, i: nat)
    requires p <= |items| && i < |items|
    ensures InsertAt(items, p, it)[if i < p then i else i + 1] == items[i]
  {
  }

  lemma InsertAtHasKeys(items: seq<Item>, p: nat, it: Item)
    requires p <= |items|
    ensures Keys(items) + {it.key} <= Keys(InsertAt(items, p, it))
  {
    var r := InsertAt(items, p, it);
    assert r[p].key in Keys(r);
    forall i | 0 <= i < |items| ensures items[i].key in Keys(r) {
      assert r[if i < p then i else i + 1].key in Keys(r);
    }
  }

  lemma InsertAtHasNoOthers(items: seq<Item>, p: nat, it: Item)
    requires p <= |items|
    ensures Keys(InsertAt(items, p, it)) <= Keys(items) + {it.key}
  {
    var r := InsertAt(items, p, it);
    forall i | 0 <= i < |r| && i != p ensures r[i].key in Keys(items) {
      InsertAtFrom(items, p, it, i);
    }
  }

  lemma InsertAtDistinct(items: seq<Item>, p: nat, it: Item)
    requires p <= |items| && DistinctKeys(items) && it.key !in Keys(items)
    ensures DistinctKeys(InsertAt(items, p, it))
  {
    var r := InsertAt(items, p, it);
    forall i, j | 0 <= i < j < |r| ensures r[i].key != r[j].key {
      if i != p { InsertAtFrom(items, p, it, i); }
      if j != p { InsertAtFrom(items, p, it, j); }
    }
  }

  lemma InsertAtKeys(items: seq<Item>, p: nat, it: Item)
    requires p <= |items|
    ensures Keys(InsertAt(items, p, it)) == Keys(items) + {it.key}
    ensures DistinctKeys(items) && it.key !in Keys(items) ==> DistinctKeys(InsertAt(items, p, it))
  {
    InsertAtHasKeys(items, p, it);
    InsertAtHasNoOthers(items, p, it);
    if DistinctKeys(items) && it.key !in Keys(items) { InsertAtDistinct(items, p, it); }
  }

  lemma RemoveAtKeys(items: seq<Item>, p: nat)
    requires DistinctKeys(items) && p < |items|
    ensures DistinctKeys(RemoveAt(items, p))
    ensures Keys(RemoveAt(items, p)) == Keys(items) - {items[p].key}
  {
    var r := RemoveAt(items, p);
    forall i | 0 <= i < |items| && i != p ensures items[i].key in Keys(r) {
      assert r[if i < p then i else i - 1] == items[i];
    }
    forall i | 0 <= i < |r| ensures r[i].key in Keys(items) - {items[p].key} {
      assert r[i] == items[if i < p then i else i + 1];
    }
  }

  lemma InsertAtMultiset(items: seq<Item>, p: nat, it: Item)
    requires p <= |items|
    ensures multiset(InsertAt(items, p, it)) == multiset(items) + multiset{it}
  {
    assert items == items[..p] + items[p..];
  }

  lemma RemoveAtMultiset(items: seq<Item>, p: nat)
    requires p < |items|
    ensures multiset(items) == multiset(RemoveAt(items, p)) + multiset{items[p]}
  {
    assert items == items[..p] + [items[p]] + items[p + 1..];
  }

  lemma {:induction false} KeysCount(items: seq<Item>)
    requires DistinctKeys(items)
    ensures |Keys(items)| == |items|
  {
    if items != [] {
      var n := |items| - 1;
      KeysCount(items[..n]);
      assert Keys(items) == Keys(items[..n]) + {items[n].key};
      assert items[n].key !in Keys(items[..n]);
    }
  }

  // ---- locked sections ----

  function FreshItem(key: Key, ratelimit: bool, delay: Option<Duration>, limiter: Duration, now: Time): Item {
    var d := if delay.Some? then delay.value else if ratelimit then limiter else 0;
    Item(key, now + d, None, false, false, 0, now, false, if ratelimit then Some(d) else None)
  }

  /** A request for a key that is being processed. */
  function Redirty(it: Item, ratelimit: bool, at: Time): Item {
    if it.redirtiedAt == None || at < it.redirtiedAt.value
    then it.(redirtiedAt := Some(at), redirtiedWithRatelimit := ratelimit, forget := false)
    else it.(forget := false)
  }

  /** Bring a queued item forward, never back. */
  function Forward(items: seq<Item>, p: nat, at: Time): seq<Item>
    requires p < |items|
  {
    if at > items[p].planned then items
    else Place(RemoveAt(items, p), items[p].(planned := at))
  }

  /** The time a delay asks for; no delay means now. */
  function After(now: Time, delay: Option<Duration>): Time {
    if delay.Some? then now + delay.value else now
  }

  function Insert(q: QState, key: Key, ratelimit: bool, delay: Option<Duration>, limiter: Duration, now: Time): QState {
    var at := After(now, delay);
    if key in q.processing then
      q.(processing := q.processing[key := Redirty(q.processing[key], ratelimit, at)], token := true)
    else
      var p := IndexOf(q.items, key);
      if p < |q.items| then q.(items := Forward(q.items, p, at), token := true)
      else q.(items := Place(q.items, FreshItem(key, ratelimit, delay, limiter, now)), token := true)
  }

  function Forget(q: QState, key: Key): QState {
    var p := IndexOf(q.items, key);
    if p < |q.items| then q.(items := RemoveAt(q.items, p))
    else if key in q.processing then q.(processing := q.processing[key := q.processing[key].(forget := true)])
    else q
  }

  /** Move the head of the list to the items being processed. */
  function Take(q: QState): QState
    requires q.items != []
  {
    q.(items := q.items[1..], processing := q.processing[q.items[0].key := q.items[0]])
  }

  /** The item queued after a failure that may be retried. */
  function RetryItem(it: Item, delay: Option<Duration>, limiter: Duration, now: Time): Item {
    FreshItem(it.key, true, delay, limiter, now).(requeues := it.requeues + 1, originallyAdded := it.originallyAdded)
  }

  /** The item queued for a key that was requested again while it was handled. */
  function AgainItem(it: Item, limiter: Duration, now: Time): Item
    requires it.redirtiedAt.Some?
  {
    FreshItem(it.key, it.redirtiedWithRatelimit, Some(it.redirtiedAt.value - now), limiter, now)
    .(addedViaRedirty := true)
  }

  /** The item that goes back on the list when the handler of `it` returns. */
  function Requeued(it: Item, failed: bool, decision: Decision, limiter: Duration, now: Time): Option<Item> {
    if it.forget then None
    else if failed && decision.Retry? then Some(RetryItem(it, decision.delay, limiter, now))
    else if it.redirtiedAt.Some? then Some(AgainItem(it, limiter, now))
    else None
  }

  function Finish(q: QState, key: Key, failed: bool, decision: Decision, limiter: Duration, now: Time): QState
    requires key in q.processing
  {
    var back := Requeued(q.processing[key], failed, decision, limiter, now);
    var rest := q.(processing := q.processing - {key});
    if back == None then rest
    else rest.(items := Place(q.items, back.value), token := true)
  }

  /** Moving an item forward: the place found by walking back from its old
      neighbour is its slot among the other items. */
  lemma ForwardSlot(items: seq<Item>, p: nat, at: Time, s: nat)
    requires Sorted(items) && s <= p < |items| && at <= items[p].planned
    requires s == 0 || items[s - 1].planned < at
    requires forall i :: s <= i < p ==> at <= items[i].planned
    ensures s == Slot(RemoveAt(items, p), at)
  {
    var rest := RemoveAt(items, p);
    forall i | s <= i < |rest| ensures at <= rest[i].planned {
      if i >= p { assert rest[i] == items[i + 1]; }
    }
    SlotIsUnique(rest, at, s);
  }

  /** A queued key that is requested again is planned for the earlier of the two times;
      its retry count and every other item stay as they were. */
  lemma ForwardIsMinimum(items: seq<Item>, p: nat, at: Time)
    requires p < |items|
    ensures multiset(Forward(items, p, at)) ==
            multiset(items) - multiset{items[p]} + multiset{items[p].(planned := Min(items[p].planned, at))}
  {
    RemoveAtMultiset(items, p);
    if at <= items[p].planned {
      InsertAtMultiset(RemoveAt(items, p), Slot(RemoveAt(items, p), at), items[p].(planned := at));
    }
  }

  /** Editing a freshly placed item, but not its planned time, is placing the edited item. */
  lemma PlaceThenEdit(items: seq<Item>, it: Item, it': Item)
    requires it.key !in Keys(items) && it'.planned == it.planned
    ensures var s := Slot(items, it.planned);
            IndexOf(Place(items, it), it.key) == s && Place(items, it)[s := it'] == Place(items, it')
  {
    var s, r := Slot(items, it.planned), Place(items, it);
    forall i | 0 <= i < s ensures r[i].key != it.key {
      assert items[i].key in Keys(items);
    }
    assert r[s].key == it.key;
  }

  // ---- the invariant of the shared structure ----

  ghost predicate Clean(it: Item) {
    !it.forget && it.redirtiedAt == None
  }

  ghost predicate Ok(items: seq<Item>, processing: map<Key, Item>) {
    && Sorted(items)
    && DistinctKeys(items)
    && (forall i :: 0 <= i < |items| ==> Clean(items[i]) && items[i].key !in processing)
    && (forall k :: k in processing ==> processing[k].key == k)
  }

  ghost predicate Inv(q: QState) {
    Ok(q.items, q.processing)
  }

  lemma InsertKeepsClean(items: seq<Item>, processing: map<Key, Item>, p: nat, it: Item)
    requires p <= |items| && Clean(it) && it.key !in processing
    requires forall i :: 0 <= i < |items| ==> Clean(items[i]) && items[i].key !in processing
    ensures var r := InsertAt(items, p, it); forall i :: 0 <= i < |r| ==> Clean(r[i]) && r[i].key !in processing
  {
    var r := InsertAt(items, p, it);
    forall i | 0 <= i < |r| ensures Clean(r[i]) && r[i].key !in processing {
      if i != p { InsertAtFrom(items, p, it, i); }
    }
  }

  lemma PlaceKeepsOk(items: seq<Item>, processing: map<Key, Item>, it: Item)
    requires Ok(items, processing) && Clean(it) && it.key !in processing && it.key !in Keys(items)
    ensures Ok(Place(items, it), processing)
    ensures Keys(Place(items, it)) == Keys(items) + {it.key}
  {
    var s := Slot(items, it.planned);
    InsertAtKeepsOrder(items, s, it);
    InsertAtKeys(items, s, it);
    InsertKeepsClean(items, processing, s, it);
  }

  lemma RemoveKeepsOk(items: seq<Item>, processing: map<Key, Item>, p: nat)
    requires Ok(items, processing) && p < |items|
    ensures Ok(RemoveAt(items, p), processing)
    ensures Keys(RemoveAt(items, p)) == Keys(items) - {items[p].key}
  {
    RemoveAtKeys(items, p);
  }

  lemma ForwardKeepsOk(items: seq<Item>, processing: map<Key, Item>, p: nat, at: Time)
    requires Ok(items, processing) && p < |items|
    ensures Ok(Forward(items, p, at), processing)
    ensures Keys(Forward(items, p, at)) == Keys(items)
  {
    assert items[p].key in Keys(items);
    if at <= items[p].planned {
      RemoveKeepsOk(items, processing, p);
      PlaceKeepsOk(RemoveAt(items, p), processing, items[p].(planned := at));
    }
  }

  lemma InsertKeepsInv(q: QState, key: Key, ratelimit: bool, delay: Option<Duration>, limiter: Duration, now: Time)
    requires Inv(q)
    ensures Inv(Insert(q, key, ratelimit, delay, limiter, now))
  {
    var p := IndexOf(q.items, key);
    if key in q.processing {
    } else if p < |q.items| {
      ForwardKeepsOk(q.items, q.processing, p, After(now, delay));
    } else {
      PlaceKeepsOk(q.items, q.processing, FreshItem(key, ratelimit, delay, limiter, now));
    }
  }

  lemma InsertKeys(q: QState, key: Key, ratelimit: bool, delay: Option<Duration>, limiter: Duration, now: Time)
    requires Inv(q)
    ensures var q' := Insert(q, key, ratelimit, delay, limiter, now);
            q'.token && q'.processing.Keys == q.processing.Keys &&
            Keys(q'.items) == Keys(q.items) + (if key in q.processing then {} else {key})
  {
    var p := IndexOf(q.items, key);
    if key in q.processing {
    } else if p < |q.items| {
      assert key in Keys(q.items);
      ForwardKeepsOk(q.items, q.processing, p, After(now, delay));
    } else {
      PlaceKeepsOk(q.items, q.processing, FreshItem(key, ratelimit, delay, limiter, now));
    }
  }

  lemma ForgetKeepsInv(q: QState, key: Key)
    requires Inv(q)
    ensures var q' := Forget(q, key);
            Inv(q') && Keys(q'.items) == Keys(q.items) - {key} && q'.processing.Keys == q.processing.Keys
  {
    var p := IndexOf(q.items, key);
    if p < |q.items| {
      RemoveKeepsOk(q.items, q.processing, p);
    }
  }

  lemma TakeKeepsInv(q: QState)
    requires Inv(q) && q.items != []
    ensures Inv(Take(q)) && Keys(Take(q).items) == Keys(q.items) - {q.items[0].key}
  {
    assert q.items[1..] == RemoveAt(q.items, 0);
    RemoveKeepsOk(q.items, q.processing, 0);
  }

  lemma FinishKeepsInv(q: QState, key: Key, failed: bool, decision: Decision, limiter: Duration, now: Time)
    requires Inv(q) && key in q.processing
    ensures var q' := Finish(q, key, failed, decision, limiter, now);
            Inv(q') && q'.processing.Keys == q.processing.Keys - {key} &&
            Keys(q'.items) == Keys(q.items) +
              (if Requeued(q.processing[key], failed, decision, limiter, now).Some? then {key} else {})
  {
    var back := Requeued(q.processing[key], failed, decision, limiter, now);
    assert Ok(q.items, q.processing - {key});
    if back.Some? {
      PlaceKeepsOk(q.items, q.processing - {key}, back.value);
    }
  }
}
