/** The fact loop of internal/syzygy/syzygy.go, which owns the state of every pod. */
module Syzygy {
  import opened Common
  import opened FociState
  import opened FociReduce
  import opened FociRuns

  type States = map<string, PodState>

  /** Every tracked pod is stored under its own uid. */
  ghost predicate Keyed(states: States) {
    forall u :: u in states ==> u != "" && states[u].uid == u && StateInv(states[u])
  }

  function Current(states: States, uid: string): PodState {
    if uid in states then states[uid] else UNTRACKED
  }

  function Process(states: States, x: Input): States {
    if x.fact.uid == "" then states
    else
      var s := Step(Current(states, x.fact.uid), x);
      if s.uid == "" then states - {x.fact.uid} else states[x.fact.uid := s]
  }

  class Loop {
    var states: States

    method ProcessFact(x: Input) returns (effects: seq<Effect>)
      modifies this
      ensures states == Process(old(states), x)
      ensures effects == if x.fact.uid == "" then [] else Reduce(Current(old(states), x.fact.uid), x.fact, x.now).1
    {
      if x.fact.uid == "" {
        return [];
      }
      var current := if x.fact.uid in states then states[x.fact.uid] else UNTRACKED;
      var (s, e) := Reduce(current, x.fact, x.now);
      if s.uid == "" {
        states := states - {x.fact.uid};
      } else {
        states := states[x.fact.uid := s];
      }
      effects := e;
    }
  }

  function ProcessAll(states: States, xs: seq<Input>): States
    decreases |xs|
  {
    if xs == [] then states else ProcessAll(Process(states, xs[0]), xs[1..])
  }

  function FactsFor(xs: seq<Input>, uid: string): seq<Input> {
    if xs == [] then []
    else if xs[0].fact.uid == uid then [xs[0]] + FactsFor(xs[1..], uid)
    else FactsFor(xs[1..], uid)
  }

  lemma StepUid(s: PodState, x: Input)
    requires StateInv(s)
    ensures Step(s, x).uid == s.uid || Step(s, x) == UNTRACKED
    ensures s.uid == "" ==> Step(s, x) == s
  {
    if s.uid != "" && !x.fact.PodEvictFact? {
      PlanKeepsInv(s, x.fact, x.now);
    }
  }

  /** A fact is a step of its own pod and of no other. */
  lemma ProcessStepsOne(states: States, x: Input, u: string)
    requires Keyed(states) && u != ""
    ensures Current(Process(states, x), u) ==
              if x.fact.uid == u then Step(Current(states, u), x) else Current(states, u)
  {
    StepUid(Current(states, x.fact.uid), x);
  }

  lemma ProcessKeepsKeyed(states: States, x: Input)
    requires Keyed(states)
    ensures Keyed(Process(states, x))
    ensures Process(states, x).Keys <= states.Keys
  {
    var s := Current(states, x.fact.uid);
    StepUid(s, x);
    StepKeepsInv(s, x);
  }

  /** However the facts of many pods are interleaved, each pod goes through the run of
      its own facts, as if it were alone. */
  lemma {:induction false} PodsAreIndependent(states: States, xs: seq<Input>, uid: string)
    requires Keyed(states) && uid != ""
    ensures Keyed(ProcessAll(states, xs))
    ensures Current(ProcessAll(states, xs), uid) == Run(Current(states, uid), FactsFor(xs, uid))
    decreases |xs|
  {
    if xs != [] {
      ProcessKeepsKeyed(states, xs[0]);
      ProcessStepsOne(states, xs[0], uid);
      PodsAreIndependent(Process(states, xs[0]), xs[1..], uid);
      if xs[0].fact.uid == uid {
        assert FactsFor(xs, uid)[1..] == FactsFor(xs[1..], uid);
      }
    }
  }

  /** No fact starts tracking a pod, not even its admission: the loop's pods are
      among those it started with. */
  lemma {:induction false} NothingIsEverAdmitted(states: States, xs: seq<Input>)
    requires Keyed(states)
    ensures ProcessAll(states, xs).Keys <= states.Keys
    decreases |xs|
  {
    if xs != [] {
      ProcessKeepsKeyed(states, xs[0]);
      NothingIsEverAdmitted(Process(states, xs[0]), xs[1..]);
    }
  }
}
