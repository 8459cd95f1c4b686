/**
 The queue object of internal/queue/queue.go.  Each method is one section under
 the queue's lock and is proved against the section of the same name in
 `QueueModel`; `Valid` is what the lock protects.
 */
module Queue {
  import opened Common
  import M = QueueModel

  type Key = M.Key
  type Item = M.Item

  /** What a look at the head of the list tells the waiting worker. */
  datatype Look = Empty | NotBefore(at: Time) | Got(item: Item)

  class Queue {
    var items: seq<Item>
    // The keys of the source's map from keys to list elements; an element is the
    // position of its key in `items`.
    var itemsInQueue: set<Key>
    var itemsBeingProcessed: map<Key, Item>
    var wakeup: bool
    const retryFunc: (nat, Time) -> M.Decision

    ghost function View(): (q: M.QState)
      reads this
    {
      M.QState(items, itemsBeingProcessed, wakeup)
    }

    ghost predicate Valid()
      reads this
    {
      itemsInQueue == M.Keys(items) && M.Inv(View())
    }

    constructor (retryFunc: (nat, Time) -> M.Decision)
      ensures Valid() && View() == M.QState([], map[], false)
      ensures this.retryFunc == retryFunc
    {
      items, itemsInQueue, itemsBeingProcessed, wakeup := [], {}, map[], false;
      this.retryFunc := retryFunc;
    }

    /** The list element of a queued key. */
    method Element(key: Key) returns (p: nat)
      requires Valid() && key in itemsInQueue
      ensures p < |items| && items[p].key == key && p == M.IndexOf(items, key)
    {
      p := 0;
      while items[p].key != key
        invariant p < |items|
        invariant forall i :: 0 <= i < p ==> items[i].key != key
        invariant exists i :: p <= i < |items| && items[i].key == key
        decreases |items| - p
      {
        p := p + 1;
      }
    }

    /** Walk back from position `from` to just behind the nearest item planned before `at`. */
    method WalkBack(from: nat, at: Time) returns (p: nat)
      requires from <= |items|
      ensures p <= from
      ensures p == 0 || items[p - 1].planned < at
      ensures forall i :: p <= i < from ==> at <= items[i].planned
    {
      p := from;
      while p > 0 && items[p - 1].planned >= at
        invariant p <= from
        invariant forall i :: p <= i < from ==> at <= items[i].planned
      {
        p := p - 1;
      }
    }

    /** Bring the item at position `p` forward to `at`; never delay it. */
    method AdjustPosition(p: nat, at: Time)
      requires Valid() && p < |items|
      modifies this`items
      ensures Valid()
      ensures items == M.Forward(old(items), p, at)
    {
      if at > items[p].planned {
        return;
      }
      M.ForwardKeepsOk(items, itemsBeingProcessed, p, at);
      var s := WalkBack(p, at);
      M.ForwardSlot(items, p, at, s);
      var item, rest := items[p].(planned := at), items[..p] + items[p + 1..];
      items := rest[..s] + [item] + rest[s..];
    }

    /** Put a new item behind the last queued item that is planned earlier. */
    method Link(item: Item)
      requires Valid() && M.Clean(item) && item.key !in itemsInQueue && item.key !in itemsBeingProcessed
      modifies this`items, this`itemsInQueue
      ensures Valid()
      ensures items == M.Place(old(items), item)
    {
      M.PlaceKeepsOk(items, itemsBeingProcessed, item);
      var p := WalkBack(|items|, item.planned);
      M.SlotIsUnique(items, item.planned, p);
      items := items[..p] + [item] + items[p..];
      itemsInQueue := itemsInQueue + {item.key};
    }

    /** insert, for a key the queue does not know. */
    method Add(key: Key, ratelimit: bool, delay: Option<Duration>, limiter: Duration, now: Time)
      requires Valid() && key !in itemsInQueue && key !in itemsBeingProcessed
      modifies this`items, this`itemsInQueue
      ensures Valid()
      ensures items == M.Place(old(items), M.FreshItem(key, ratelimit, delay, limiter, now))
    {
      var planned: Time, viaLimiter: Option<Duration> := now, None;
      if ratelimit {
        var actualDelay := limiter;
        if delay.Some? {
          actualDelay := delay.value;
        }
        planned, viaLimiter := now + actualDelay, Some(actualDelay);
      } else if delay.Some? {
        planned := now + delay.value;
      }
      var item := M.Item(key, planned, None, false, false, 0, now, false, viaLimiter);
      assert item == M.FreshItem(key, ratelimit, delay, limiter, now);
      Link(item);
    }

    /** insert; `limiter` is the rate limiter's answer for this key. */
    method Insert(key: Key, ratelimit: bool, delay: Option<Duration>, limiter: Duration, now: Time)
      requires Valid()
      modifies this
      ensures Valid()
      ensures View() == M.Insert(old(View()), key, ratelimit, delay, limiter, now)
    {
      wakeup := true;
      if key in itemsBeingProcessed {
        var item := itemsBeingProcessed[key];
        var at := M.After(now, delay);
        if item.redirtiedAt == None || at < item.redirtiedAt.value {
          item := item.(redirtiedAt := Some(at), redirtiedWithRatelimit := ratelimit);
        }
        itemsBeingProcessed := itemsBeingProcessed[key := item.(forget := false)];
      } else if key in itemsInQueue {
        var p := Element(key);
        AdjustPosition(p, M.After(now, delay));
      } else {
        assert M.IndexOf(items, key) == |items|;
        Add(key, ratelimit, delay, limiter, now);
      }
    }

    method Forget(key: Key)
      requires Valid()
      modifies this
      ensures Valid()
      ensures View() == M.Forget(old(View()), key)
    {
      M.ForgetKeepsInv(View(), key);
      if key in itemsInQueue {
        var p := Element(key);
        items := items[..p] + items[p + 1..];
        itemsInQueue := itemsInQueue - {key};
      } else if key in itemsBeingProcessed {
        itemsBeingProcessed := itemsBeingProcessed[key := itemsBeingProcessed[key].(forget := true)];
      }
    }

    /** One look of getNextItem at the head of the list. */
    method LookAtHead(now: Time) returns (r: Look)
      requires Valid()
      modifies this
      ensures Valid()
      ensures r.Empty? <==> old(items) == []
      ensures r.NotBefore? ==> r.at == old(items)[0].planned && r.at > now
      ensures r.Got? ==> r.item == old(items)[0] && r.item.planned <= now && r.item.key !in old(itemsBeingProcessed)
      ensures View() == if r.Got? then M.Take(old(View())) else old(View())
    {
      if items == [] {
        return Empty;
      }
      var item := items[0];
      if item.planned - now > 0 {
        return NotBefore(item.planned);
      }
      M.TakeKeepsInv(View());
      itemsBeingProcessed := itemsBeingProcessed[item.key := item];
      items := items[1..];
      itemsInQueue := itemsInQueue - {item.key};
      return Got(item);
    }

    /** Requeue after a failure that the retry function lets pass. */
    method RetryLater(qi: Item, delay: Option<Duration>, limiter: Duration, now: Time)
      requires Valid() && qi.key !in itemsInQueue && qi.key !in itemsBeingProcessed
      modifies this
      ensures wakeup && itemsBeingProcessed == old(itemsBeingProcessed) && itemsInQueue == old(itemsInQueue) + {qi.key}
      ensures items == M.Place(old(items), M.RetryItem(qi, delay, limiter, now))
    {
      var p := InsertBack(qi.key, true, delay, limiter, now);
      items := items[p := items[p].(requeues := qi.requeues + 1, originallyAdded := qi.originallyAdded)];
    }

    /** Requeue a key that was requested again while it was handled. */
    method RunAgain(qi: Item, limiter: Duration, now: Time)
      requires Valid() && qi.key !in itemsInQueue && qi.key !in itemsBeingProcessed && qi.redirtiedAt.Some?
      modifies this
      ensures wakeup && itemsBeingProcessed == old(itemsBeingProcessed) && itemsInQueue == old(itemsInQueue) + {qi.key}
      ensures items == M.Place(old(items), M.AgainItem(qi, limiter, now))
    {
      var p := InsertBack(qi.key, qi.redirtiedWithRatelimit, Some(qi.redirtiedAt.value - now), limiter, now);
      items := items[p := items[p].(addedViaRedirty := true)];
    }

    /** The end of handleQueueItemObject, after the handler has returned.  `forgotten`
        says that the key was dropped with an error, which is when OnForget fires. */
    method Done(key: Key, failed: bool, limiter: Duration, now: Time) returns (forgotten: bool)
      requires Valid() && key in itemsBeingProcessed
      modifies this
      ensures Valid()
      ensures var it := old(itemsBeingProcessed)[key]; var d := retryFunc(it.requeues + 1, it.originallyAdded);
              && View() == M.Finish(old(View()), key, failed, d, limiter, now)
              && (forgotten <==> failed && d.GiveUp? && !it.forget)
    {
      var qi := itemsBeingProcessed[key];
      var decision := retryFunc(qi.requeues + 1, qi.originallyAdded);
      M.FinishKeepsInv(View(), key, failed, decision, limiter, now);
      itemsBeingProcessed := itemsBeingProcessed - {key};
      forgotten := false;
      if qi.forget {
      } else if failed && decision.Retry? {
        RetryLater(qi, decision.delay, limiter, now);
      } else {
        forgotten := failed;
        if qi.redirtiedAt.Some? {
          RunAgain(qi, limiter, now);
        }
      }
    }

    /** insert, for a key whose handler has just returned; gives the new item's place. */
    method InsertBack(key: Key, ratelimit: bool, delay: Option<Duration>, limiter: Duration, now: Time)
      returns (p: nat)
      requires Valid() && key !in itemsInQueue && key !in itemsBeingProcessed
      modifies this
      ensures wakeup && itemsBeingProcessed == old(itemsBeingProcessed) && itemsInQueue == old(itemsInQueue) + {key}
      ensures var it := M.FreshItem(key, ratelimit, delay, limiter, now);
              && items == M.Place(old(items), it)
              && p < |items| && items[p] == it
              && forall it': Item :: it'.planned == it.planned ==> items[p := it'] == M.Place(old(items), it')
    {
      ghost var it := M.FreshItem(key, ratelimit, delay, limiter, now);
      forall it': Item | it'.planned == it.planned
        ensures M.Place(items, it)[M.Slot(items, it.planned) := it'] == M.Place(items, it')
      {
        M.PlaceThenEdit(items, it, it');
      }
      M.PlaceThenEdit(items, it, it);
      M.InsertKeys(View(), key, ratelimit, delay, limiter, now);
      Insert(key, ratelimit, delay, limiter, now);
      p := Element(key);
    }

    /** The length check that panics on an inconsistent state never does. */
    method Len() returns (n: nat)
      requires Valid()
      ensures n == |M.Keys(items) + itemsBeingProcessed.Keys|
    {
      M.KeysCount(items);
      if |items| != |itemsInQueue| {
        assert false;
      }
      n := |items| + |itemsBeingProcessed|;
      assert M.Keys(items) !! itemsBeingProcessed.Keys;
    }

    method UnprocessedLen() returns (n: nat)
      requires Valid()
      ensures n == |items|
    {
      M.KeysCount(items);
      if |items| != |itemsInQueue| {
        assert false;
      }
      n := |itemsInQueue|;
    }
  }
}
