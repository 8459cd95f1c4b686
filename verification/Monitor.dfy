/**
 The versioned monitor variable of internal/lock/monitor.go.  A channel only ever changes
 from open to closed, and closing it twice would panic.  The protocol is first stated on
 values, with channels numbered in the order they are made, and proved over all
 interleavings; the objects are then proved to take its steps.
 */
module Monitor {
  import opened Common

  // ---- all interleavings ----

  datatype Sub = Sub(lastVersionRead: nat, channel: nat)

  datatype State = State(version: nat, channel: nat, made: nat, closed: set<nat>, subs: seq<Sub>)

  const START := State(0, 0, 1, {}, [])

  datatype Event = SetValue | NewSubscription | ReadValue(i: nat)

  predicate Enabled(s: State, e: Event) {
    e.ReadValue? ==> e.i < |s.subs|
  }

  /** Would this step close a channel that is closed already? */
  predicate Panics(s: State, e: Event) {
    e.SetValue? && s.channel in s.closed
  }

  function Apply(s: State, e: Event): State
    requires Enabled(s, e)
  {
    match e
    case SetValue =>
      s.(version := s.version + 1, closed := s.closed + {s.channel}, channel := s.made, made := s.made + 1)
    case NewSubscription =>
      if s.version > 0
      then s.(closed := s.closed + {s.made}, made := s.made + 1, subs := s.subs + [Sub(0, s.made)])
      else s.(subs := s.subs + [Sub(0, s.channel)])
    case ReadValue(i) => s.(subs := s.subs[i := Sub(s.version, s.channel)])
  }

  ghost predicate ValidRun(s: State, es: seq<Event>)
    decreases |es|
  {
    es == [] || (Enabled(s, es[0]) && ValidRun(Apply(s, es[0]), es[1..]))
  }

  ghost predicate NeverPanics(s: State, es: seq<Event>)
    requires ValidRun(s, es)
    decreases |es|
  {
    es == [] || (!Panics(s, es[0]) && NeverPanics(Apply(s, es[0]), es[1..]))
  }

  ghost function Final(s: State, es: seq<Event>): State
    requires ValidRun(s, es)
    decreases |es|
  {
    if es == [] then s else Final(Apply(s, es[0]), es[1..])
  }

  /** A subscription's channel is closed exactly when there is a newer value than it read. */
  ghost predicate Fresh(s: State, sub: Sub) {
    && sub.lastVersionRead <= s.version && sub.channel < s.made
    && (sub.channel in s.closed <==> sub.lastVersionRead < s.version)
    && (sub.lastVersionRead == s.version ==> sub.channel == s.channel)
  }

  ghost predicate Inv(s: State) {
    && s.channel < s.made && s.channel !in s.closed && (forall c :: c in s.closed ==> c < s.made)
    && forall i :: 0 <= i < |s.subs| ==> Fresh(s, s.subs[i])
  }

  lemma StepKeepsInv(s: State, e: Event)
    requires Inv(s) && Enabled(s, e)
    ensures Inv(Apply(s, e)) && !Panics(s, e)
  {
    var s' := Apply(s, e);
    forall i | 0 <= i < |s'.subs| ensures Fresh(s', s'.subs[i]) {
      if i < |s.subs| { assert Fresh(s, s.subs[i]); }
    }
  }

  /** In every interleaving of Set, Subscribe and Value, each subscription's channel is
      closed exactly when a newer version exists than the one it last read, and no
      channel is closed twice. */
  lemma {:induction false} ChannelsTellNews(s: State, es: seq<Event>)
    requires Inv(s) && ValidRun(s, es)
    ensures Inv(Final(s, es)) && NeverPanics(s, es)
    decreases |es|
  {
    if es != [] {
      StepKeepsInv(s, es[0]);
      ChannelsTellNews(Apply(s, es[0]), es[1..]);
    }
  }

  /** The same from a new variable, spelled out for one subscription. */
  lemma EveryInterleaving(es: seq<Event>, i: nat)
    requires ValidRun(START, es) && i < |Final(START, es).subs|
    ensures NeverPanics(START, es)
    ensures var s := Final(START, es);
            s.subs[i].channel in s.closed <==> s.subs[i].lastVersionRead < s.version
  {
    ChannelsTellNews(START, es);
    assert Fresh(Final(START, es), Final(START, es).subs[i]);
  }

  // ---- the objects ----

  class Channel {
    var closed: bool

    constructor ()
      ensures !closed
    {
      closed := false;
    }

    method Close()
      requires !closed   // otherwise the program panics
      modifies this
      ensures closed
    {
      closed := true;
    }
  }

  class Subscription {
    var lastVersionRead: nat
    var channel: Channel
    ghost var number: nat   // of its channel

    constructor (channel: Channel, ghost number: nat)
      ensures lastVersionRead == 0 && this.channel == channel && this.number == number
    {
      lastVersionRead := 0;
      this.channel := channel;
      this.number := number;
    }
  }

  class MonitorVariable<T> {
    var currentValue: Option<T>
    var currentVersion: nat
    var channel: Channel
    ghost var number: nat   // of its channel
    ghost var channels: seq<Channel>
    ghost var subscriptions: seq<Subscription>

    ghost function View(): State
      reads this, channels, subscriptions
    {
      State(currentVersion, number, |channels|, set c: nat | c < |channels| && channels[c].closed,
            seq(|subscriptions|, i requires 0 <= i < |subscriptions| reads this, subscriptions =>
                  Sub(subscriptions[i].lastVersionRead, subscriptions[i].number)))
    }

    /** Numbers and objects correspond, and the value protocol's invariant holds. */
    ghost predicate Valid()
      reads this, channels, subscriptions
    {
      && number < |channels| && channels[number] == channel
      && (forall i, j :: 0 <= i < j < |channels| ==> channels[i] != channels[j])
      && (forall i, j :: 0 <= i < j < |subscriptions| ==> subscriptions[i] != subscriptions[j])
      && (forall i :: 0 <= i < |subscriptions| ==>
            subscriptions[i].number < |channels| && channels[subscriptions[i].number] == subscriptions[i].channel)
      && (currentVersion == 0 <==> currentValue == None)
      && Inv(View())
    }

    constructor ()
      ensures Valid() && View() == START
    {
      currentValue, currentVersion, subscriptions := None, 0, [];
      var ch := new Channel();
      channel, number, channels := ch, 0, [ch];
    }

    /** Every subscription is told: none is up to date any more. */
    method Set(value: T)
      requires Valid()
      modifies this, channel
      ensures Valid() && View() == Apply(old(View()), SetValue)
      ensures currentValue == Some(value) && currentVersion == old(currentVersion) + 1
      ensures subscriptions == old(subscriptions)
    {
      StepKeepsInv(View(), SetValue);
      currentValue := Some(value);
      currentVersion := currentVersion + 1;
      channel.Close();
      channel := new Channel();
      number, channels := |channels|, channels + [channel];
      assert View().closed == old(View()).closed + {old(number)} && View().subs == old(View()).subs;
    }

    /** A channel that is closed from the start. */
    method ClosedChannel() returns (ch: Channel)
      requires Valid()
      modifies this`channels
      ensures Valid() && channels == old(channels) + [ch] && fresh(ch)
      ensures var v := old(View()); View() == v.(closed := v.closed + {v.made}, made := v.made + 1)
    {
      ghost var v := View();
      ch := new Channel();
      ch.Close();
      channels := channels + [ch];
      assert View().closed == v.closed + {v.made} && View().subs == v.subs;
      forall i | 0 <= i < |v.subs| ensures Fresh(View(), v.subs[i]) {
        assert Fresh(v, v.subs[i]);
      }
    }

    method AddSubscription(ch: Channel, ghost n: nat) returns (s: Subscription)
      requires Valid() && n < |channels| && channels[n] == ch && Fresh(View(), Sub(0, n))
      modifies this`subscriptions
      ensures Valid() && View() == old(View()).(subs := old(View()).subs + [Sub(0, n)])
      ensures fresh(s) && subscriptions == old(subscriptions) + [s]
    {
      ghost var v := View();
      s := new Subscription(ch, n);
      subscriptions := subscriptions + [s];
      assert View().subs == v.subs + [Sub(0, n)];
    }

    method Subscribe() returns (s: Subscription)
      requires Valid()
      modifies this`subscriptions, this`channels
      ensures Valid() && View() == Apply(old(View()), NewSubscription)
      ensures fresh(s) && subscriptions == old(subscriptions) + [s] && s.lastVersionRead == 0
      ensures s.channel.closed <==> currentVersion > 0   // a value that was set is news
    {
      if currentVersion > 0 {
        var closedCh := ClosedChannel();
        s := AddSubscription(closedCh, |channels| - 1);
      } else {
        s := AddSubscription(channel, number);
      }
      assert Fresh(View(), View().subs[|subscriptions| - 1]);
    }

    /** NewValueReady of the i-th subscription: the channel to wait on. */
    method NewValueReady(s: Subscription, ghost i: nat) returns (ch: Channel)
      requires Valid() && i < |subscriptions| && subscriptions[i] == s
      ensures ch.closed <==> s.lastVersionRead < currentVersion
    {
      assert Fresh(View(), View().subs[i]);
      ch := s.channel;
    }

    /** Value of the i-th subscription: read the value and be told of newer ones only. */
    method Value(s: Subscription, ghost i: nat) returns (value: Option<T>, version: nat)
      requires Valid() && i < |subscriptions| && subscriptions[i] == s
      modifies s
      ensures Valid() && View() == Apply(old(View()), ReadValue(i))
      ensures value == currentValue && version == currentVersion && !s.channel.closed
    {
      StepKeepsInv(View(), ReadValue(i));
      value, version := currentValue, currentVersion;
      s.lastVersionRead := currentVersion;
      s.channel := channel;
      s.number := number;
      assert View().subs == old(View()).subs[i := Sub(currentVersion, number)];
    }
  }
}
