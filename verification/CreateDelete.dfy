/**
 The handshake between CreatePod, DeletePod and the creation goroutine of
 node/lifecycle.go for one pod uid, with every call interleaved freely.  CreatePod is
 called from one work queue, which lets one call per pod run at a time.  DeletePod is
 called from that queue too, but also from the eviction loop (node/eviction.go), so any
 number of deletes may overlap each other and a create; and the reconciler
 (node/reconciler.go) tests whether a pod is in flight some time before it evicts it.
 */
module CreateDelete {
  import opened Common

  /** Where a creation goroutine stands. */
  datatype Place =
    | WaitingForSlot    // createSem
    | Syncing           // in syncPodSandboxAndContainers, before PromoteRunning
    | BackingOff        // between two attempts
    | Leaving           // promoted or marked failed; only has to return
    | Gone              // its done channel is closed

  datatype Goroutine = Goroutine(place: Place, cancelled: bool)

  /** The store's entry for the uid: the handle of the creation in flight, if any. */
  datatype Entry = Entry(inFlight: Option<nat>)

  datatype Create =
    | Idle
    | NotInFlight       // not in flight; next, is it registered?
    | NotRegistered     // not registered; next, register and go

  datatype Delete =
    | Marked            // marked deleting; next, read the handle
    | Cancelling(h: nat) // holds handle h
    | Waiting(h: nat)   // cancelled h; waits for its done channel
    | Stopping          // preStop hooks
    | TearingDown       // teardownPodIdempotent
    | Finished

  datatype Eviction = Tested | Evicted

  datatype World = World(entry: Option<Entry>, goroutines: seq<Goroutine>,
                         create: Create, deletes: seq<Delete>, evictions: seq<Eviction>)

  datatype Event =
    | CreatePod | CheckRegistered | RegisterAndGo
    | DeletePod | ReadHandle(d: nat) | CancelHandle(d: nat) | HandleDone(d: nat)
    | BeginTeardown(d: nat) | Unregister(d: nat)
    | GetSlot(g: nat) | GiveUp(g: nat) | Launch(g: nat) | AttemptFails(g: nat, final: bool)
    | Retry(g: nat) | Promote(g: nat) | Return(g: nat)
    | TestGhost | EvictGhost(i: nat)

  predicate At(w: World, g: nat, place: Place) {
    g < |w.goroutines| && w.goroutines[g].place == place
  }

  predicate DeleteAt(w: World, d: nat, at: Delete) {
    d < |w.deletes| && w.deletes[d] == at
  }

  predicate InFlight(w: World) {
    w.entry.Some? && w.entry.value.inFlight.Some?
  }

  predicate Enabled(w: World, e: Event) {
    match e
    case CreatePod => w.create == Idle
    case CheckRegistered => w.create == NotInFlight
    case RegisterAndGo => w.create == NotRegistered
    case DeletePod => true
    case ReadHandle(d) => DeleteAt(w, d, Marked)
    case CancelHandle(d) => d < |w.deletes| && w.deletes[d].Cancelling? && w.deletes[d].h < |w.goroutines|
    case HandleDone(d) => d < |w.deletes| && w.deletes[d].Waiting? && At(w, w.deletes[d].h, Gone)
    case BeginTeardown(d) => DeleteAt(w, d, Stopping)
    case Unregister(d) => DeleteAt(w, d, TearingDown)
    case GetSlot(g) => At(w, g, WaitingForSlot)
    case GiveUp(g) => (At(w, g, WaitingForSlot) || At(w, g, BackingOff)) && w.goroutines[g].cancelled
    case Launch(g) => At(w, g, Syncing)
    case AttemptFails(g, _) => At(w, g, Syncing)
    case Retry(g) => At(w, g, BackingOff)   // the timer may win even after a cancellation
    case Promote(g) => At(w, g, Syncing)
    case Return(g) => At(w, g, Leaving)
    case TestGhost => !InFlight(w)
    case EvictGhost(i) => i < |w.evictions| && w.evictions[i].Tested?
  }

  function Move(w: World, g: nat, place: Place): World
    requires g < |w.goroutines|
  {
    w.(goroutines := w.goroutines[g := w.goroutines[g].(place := place)])
  }

  function SetDelete(w: World, d: nat, to: Delete): World
    requires d < |w.deletes|
  {
    w.(deletes := w.deletes[d := to])
  }

  function Apply(w: World, e: Event): World
    requires Enabled(w, e)
  {
    match e
    case CreatePod => if InFlight(w) then w else w.(create := NotInFlight)
    case CheckRegistered => w.(create := if w.entry.Some? then Idle else NotRegistered)
    case RegisterAndGo =>
      w.(entry := Some(Entry(Some(|w.goroutines|))), goroutines := w.goroutines + [Goroutine(WaitingForSlot, false)],
         create := Idle)
    case DeletePod => w.(deletes := w.deletes + [Marked])
    case ReadHandle(d) =>
      SetDelete(w, d, if InFlight(w) then Cancelling(w.entry.value.inFlight.value) else Stopping)
    case CancelHandle(d) =>
      var h := w.deletes[d].h;
      SetDelete(w, d, Waiting(h)).(goroutines := w.goroutines[h := w.goroutines[h].(cancelled := true)])
    case HandleDone(d) => SetDelete(w, d, Stopping)
    case BeginTeardown(d) => SetDelete(w, d, TearingDown)
    case Unregister(d) => SetDelete(w, d, Finished).(entry := None)
    case GetSlot(g) => Move(w, g, Syncing)
    case GiveUp(g) => Move(w, g, Gone)
    case Launch(g) => w
    case AttemptFails(g, final) => Move(w, g, if final then Leaving else BackingOff)
    case Retry(g) => Move(w, g, Syncing)
    case Promote(g) =>
      var w' := Move(w, g, Leaving);
      if w.entry.Some? then w'.(entry := Some(Entry(None))) else w'
    case Return(g) => Move(w, g, Gone)
    case TestGhost => w.(evictions := w.evictions + [Tested])
    case EvictGhost(i) => w.(evictions := w.evictions[i := Evicted], entry := None)
  }

  /** At start there may be a pod restored from disk, and nothing is running. */
  predicate Initial(w: World) {
    !InFlight(w) && w.goroutines == [] && w.create == Idle && w.deletes == [] && w.evictions == []
  }

  ghost predicate ValidRun(w: World, es: seq<Event>)
    decreases |es|
  {
    es == [] || (Enabled(w, es[0]) && ValidRun(Apply(w, es[0]), es[1..]))
  }

  ghost function Final(w: World, es: seq<Event>): World
    requires ValidRun(w, es)
    decreases |es|
  {
    if es == [] then w else Final(Apply(w, es[0]), es[1..])
  }

  lemma OneStep(w: World, e: Event, es: seq<Event>)
    requires Enabled(w, e) && ValidRun(Apply(w, e), es)
    ensures ValidRun(w, [e] + es) && Final(w, [e] + es) == Final(Apply(w, e), es)
  {
    assert ([e] + es)[1..] == es;
  }

  // ---- what holds in every run ----

  /** Handles are those of goroutines, a waiting delete has cancelled its own, and a pod about
      to be registered is not registered yet. */
  ghost predicate HandlesOk(w: World) {
    && (InFlight(w) ==> w.entry.value.inFlight.value < |w.goroutines|)
    && (w.create == NotRegistered ==> w.entry == None)
    && forall d :: 0 <= d < |w.deletes| ==> HandleOk(w.goroutines, w.deletes[d])
  }

  ghost predicate HandleOk(gs: seq<Goroutine>, delete: Delete) {
    && (delete.Cancelling? ==> delete.h < |gs|)
    && (delete.Waiting? ==> delete.h < |gs| && gs[delete.h].cancelled)
  }

  lemma StepKeepsHandles(w: World, e: Event)
    requires HandlesOk(w) && Enabled(w, e)
    ensures HandlesOk(Apply(w, e))
  {
    var w' := Apply(w, e);
    forall d | 0 <= d < |w'.deletes| ensures HandleOk(w'.goroutines, w'.deletes[d]) {
      if d < |w.deletes| { assert HandleOk(w.goroutines, w.deletes[d]); }
    }
  }

  lemma {:induction false} RunKeepsHandles(w: World, es: seq<Event>)
    requires HandlesOk(w) && ValidRun(w, es)
    ensures HandlesOk(Final(w, es))
    decreases |es|
  {
    if es != [] {
      StepKeepsHandles(w, es[0]);
      RunKeepsHandles(Apply(w, es[0]), es[1..]);
    }
  }

  /** May this goroutine still launch a container? */
  predicate CanLaunch(g: Goroutine) {
    g.place == WaitingForSlot || g.place == Syncing || g.place == BackingOff
  }

  ghost predicate NoneCanLaunch(w: World) {
    forall g :: 0 <= g < |w.goroutines| ==> !CanLaunch(w.goroutines[g])
  }

  /** Goroutines are never forgotten, and one that cannot launch never can again. */
  ghost predicate StaysQuiet(w: World, w': World) {
    && |w.goroutines| <= |w'.goroutines|
    && forall g: nat :: g < |w.goroutines| && !CanLaunch(w.goroutines[g]) ==> !CanLaunch(w'.goroutines[g])
  }

  lemma StepStaysQuiet(w: World, e: Event)
    requires Enabled(w, e)
    ensures StaysQuiet(w, Apply(w, e))
  {
  }

  lemma {:induction false} RunStaysQuiet(w: World, es: seq<Event>)
    requires ValidRun(w, es)
    ensures StaysQuiet(w, Final(w, es))
    decreases |es|
  {
    if es != [] {
      StepStaysQuiet(w, es[0]);
      RunStaysQuiet(Apply(w, es[0]), es[1..]);
    }
  }

  predicate NoRegistration(es: seq<Event>) {
    RegisterAndGo !in es
  }

  /** Whatever a goroutine is doing when its handle is cancelled, it can return within two of
      its own steps, and the waiting delete goes on. */
  lemma DeleteIsNotStuck(w: World, d: nat) returns (es: seq<Event>)
    requires HandlesOk(w) && d < |w.deletes| && w.deletes[d].Waiting?
    ensures |es| <= 2 && NoRegistration(es) && ValidRun(w, es) && Enabled(Final(w, es), HandleDone(d))
    ensures Final(w, es) == w.(goroutines := w.goroutines[w.deletes[d].h := Goroutine(Gone, true)])
  {
    var h := w.deletes[d].h;
    assert HandleOk(w.goroutines, w.deletes[d]);
    es := [];
    if At(w, h, Leaving) {
      OneStep(w, Return(h), []);
      es := [Return(h)];
    } else if At(w, h, WaitingForSlot) || At(w, h, BackingOff) {
      OneStep(w, GiveUp(h), []);
      es := [GiveUp(h)];
    } else if At(w, h, Syncing) {
      var w1 := Apply(w, AttemptFails(h, false));
      OneStep(w1, GiveUp(h), []);
      OneStep(w, AttemptFails(h, false), [GiveUp(h)]);
      es := [AttemptFails(h, false), GiveUp(h)];
    }
  }

  /** Whenever a creation succeeds in a clean run, its pod is no longer in flight, and a delete
      that starts then has nothing to wait for. */
  lemma PromotionEndsFlight(w: World, g: nat)
    requires Known(w) && Enabled(w, Promote(g))
    ensures var w' := Apply(w, Promote(g)); var d := |w.deletes|;
            && w'.entry == Some(Entry(None)) && NoneCanLaunch(w')
            && Apply(Apply(w', DeletePod), ReadHandle(d)).deletes[d] == Stopping
  {
    assert CanLaunch(w.goroutines[g]);
  }

  /** A goroutine ends only when it is cancelled while it waits, or when it has nothing more to
      do; and only a delete cancels it. */
  lemma EndsOnlyWhen(w: World, e: Event, g: nat)
    requires Enabled(w, e) && g < |w.goroutines|
    ensures Apply(w, e).goroutines[g].place == Gone && w.goroutines[g].place != Gone ==>
              || (w.goroutines[g].place == Leaving && e == Return(g))
              || (w.goroutines[g].cancelled && e == GiveUp(g))
    ensures Apply(w, e).goroutines[g].cancelled && !w.goroutines[g].cancelled ==>
              e.CancelHandle? && w.deletes[e.d] == Cancelling(g)
  {
  }

  /** An attempt that fails goes back to syncing after its delay, unless it was the last one,
      and then the goroutine ends; in both cases the pod stays in flight. */
  lemma FailedAttemptGoesOn(w: World, g: nat)
    requires Enabled(w, AttemptFails(g, false))
    ensures var again := Apply(w, AttemptFails(g, false)); Apply(again, Retry(g)).goroutines == w.goroutines
    ensures var last := Apply(w, AttemptFails(g, true)); At(Apply(last, Return(g)), g, Gone)
    ensures forall final :: Apply(w, AttemptFails(g, final)).entry == w.entry
  {
    var again := Apply(Apply(w, AttemptFails(g, false)), Retry(g));
    assert again.goroutines == w.goroutines;
  }

  /** A pod that is not registered can be created: first it is registered in flight... */
  lemma CreationRegisters(w: World)
    requires w.entry == None && w.create == Idle
    ensures Apply(Apply(Apply(w, CreatePod), CheckRegistered), RegisterAndGo) ==
            w.(entry := Some(Entry(Some(|w.goroutines|))),
               goroutines := w.goroutines + [Goroutine(WaitingForSlot, false)])
  {
  }

  /** ...then its goroutine launches any number of containers and promotes it. */
  lemma CreationGoesThrough(w: World, g: nat)
    requires At(w, g, WaitingForSlot) && w.entry.Some?
    ensures var w' := Apply(w, GetSlot(g));
            && Enabled(w', Launch(g)) && Apply(w', Launch(g)) == w'
            && Apply(Apply(w', Promote(g)), Return(g)) ==
               w.(entry := Some(Entry(None)), goroutines := w.goroutines[g := w.goroutines[g].(place := Gone)])
  {
    var w' := Apply(w, GetSlot(g));
    assert Apply(Apply(w', Promote(g)), Return(g)).goroutines == w.goroutines[g := w.goroutines[g].(place := Gone)];
  }

  /** A pod that is in flight or registered is not created again. */
  lemma CreationIsNotRepeated(w: World)
    requires w.entry.Some? && w.create == Idle
    ensures InFlight(w) ==> Apply(w, CreatePod) == w
    ensures !InFlight(w) ==> Apply(Apply(w, CreatePod), CheckRegistered) == w
  {
  }

  /** A delete reads the handle, cancels its goroutine and waits for it, if there is one... */
  lemma DeletionWaits(w: World)
    ensures var d, w1 := |w.deletes|, Apply(w, DeletePod);
            && w1 == w.(deletes := w.deletes + [Marked])
            && (!InFlight(w) ==> Apply(w1, ReadHandle(d)) == w.(deletes := w.deletes + [Stopping]))
            && (InFlight(w) ==>
                  var h := w.entry.value.inFlight.value;
                  Apply(w1, ReadHandle(d)).deletes == w.deletes + [Cancelling(h)])
  {
  }

  lemma DeletionCancels(w: World, d: nat)
    requires Enabled(w, CancelHandle(d))
    ensures var h, w' := w.deletes[d].h, Apply(w, CancelHandle(d));
            && w'.deletes == w.deletes[d := Waiting(h)] && w'.entry == w.entry
            && w'.goroutines == w.goroutines[h := Goroutine(w.goroutines[h].place, true)]
            && (Enabled(w', HandleDone(d)) <==> w.goroutines[h].place == Gone)
  {
  }

  /** ...and then tears the pod down and unregisters it. */
  lemma DeletionGoesThrough(w: World, d: nat)
    requires DeleteAt(w, d, Stopping)
    ensures Apply(Apply(w, BeginTeardown(d)), Unregister(d)) == w.(entry := None, deletes := w.deletes[d := Finished])
  {
    assert w.deletes[d := TearingDown][d := Finished] == w.deletes[d := Finished];
  }

  // ---- when deletes are safe ----

  /** Past reading the handle, a delete acts on what it read. */
  predicate Committed(delete: Delete) {
    delete.Cancelling? || delete.Waiting? || delete.Stopping? || delete.TearingDown?
  }

  /** A registration made now goes unseen by a delete or an eviction that has done its test. */
  ghost predicate Exposed(w: World) {
    || (exists d :: 0 <= d < |w.deletes| && Committed(w.deletes[d]))
    || (exists i :: 0 <= i < |w.evictions| && w.evictions[i].Tested?)
  }

  /** What a delete that is past its test knows about the goroutines. */
  ghost predicate Knows(gs: seq<Goroutine>, delete: Delete) {
    match delete
    case Cancelling(h) => forall g: nat :: g < |gs| && CanLaunch(gs[g]) ==> g == h
    case Waiting(h) => forall g: nat :: g < |gs| && CanLaunch(gs[g]) ==> g == h
    case Stopping => forall g: nat :: g < |gs| ==> !CanLaunch(gs[g])
    case TearingDown => forall g: nat :: g < |gs| ==> !CanLaunch(gs[g])
    case _ => true
  }

  /** A goroutine that can launch is the one whose handle the store has; committed deletes
      know it; and while an eviction is under way there is none. */
  ghost predicate Known(w: World) {
    && (forall g: nat :: g < |w.goroutines| && CanLaunch(w.goroutines[g]) ==> w.entry == Some(Entry(Some(g))))
    && (forall d :: 0 <= d < |w.deletes| ==> Knows(w.goroutines, w.deletes[d]))
    && ((exists i :: 0 <= i < |w.evictions| && w.evictions[i].Tested?) ==> NoneCanLaunch(w))
  }

  ghost predicate Inv(w: World) {
    HandlesOk(w) && Known(w)
  }

  /** Every registration of the run is made while nothing is exposed to it. */
  ghost predicate Clean(w: World, es: seq<Event>)
    requires ValidRun(w, es)
    decreases |es|
  {
    es == [] || ((es[0].RegisterAndGo? ==> !Exposed(w)) && Clean(Apply(w, es[0]), es[1..]))
  }

  ghost predicate QuietWhile(gs: seq<Goroutine>, gs': seq<Goroutine>) {
    |gs| == |gs'| && forall g :: 0 <= g < |gs| && CanLaunch(gs'[g]) ==> CanLaunch(gs[g])
  }

  /** What is known stays known while no goroutine is added. */
  lemma StillKnows(gs: seq<Goroutine>, gs': seq<Goroutine>, delete: Delete)
    requires QuietWhile(gs, gs') && Knows(gs, delete)
    ensures Knows(gs', delete)
  {
  }

  lemma GoroutineKeepsKnown(w: World, e: Event)
    requires Inv(w) && Enabled(w, e)
    requires e.GetSlot? || e.GiveUp? || e.Launch? || e.AttemptFails? || e.Retry? || e.Promote? || e.Return?
    ensures Known(Apply(w, e))
  {
    var w' := Apply(w, e);
    assert QuietWhile(w.goroutines, w'.goroutines);
    forall d | 0 <= d < |w'.deletes| ensures Knows(w'.goroutines, w'.deletes[d]) {
      StillKnows(w.goroutines, w'.goroutines, w.deletes[d]);
    }
  }

  lemma DeleteKeepsKnown(w: World, e: Event)
    requires Inv(w) && Enabled(w, e)
    requires e.ReadHandle? || e.CancelHandle? || e.HandleDone? || e.BeginTeardown? || e.Unregister?
    ensures Known(Apply(w, e))
  {
    var w' := Apply(w, e);
    assert Knows(w.goroutines, w.deletes[e.d]);
    assert QuietWhile(w.goroutines, w'.goroutines);
    forall d | 0 <= d < |w'.deletes| ensures Knows(w'.goroutines, w'.deletes[d]) {
      if d != e.d {
        StillKnows(w.goroutines, w'.goroutines, w.deletes[d]);
      }
    }
  }

  lemma EvictionKeepsKnown(w: World, e: Event)
    requires Inv(w) && Enabled(w, e) && (e.TestGhost? || e.EvictGhost?)
    ensures Known(Apply(w, e))
  {
    if e.TestGhost? {
      assert NoneCanLaunch(w);
    } else {
      assert w.evictions[e.i].Tested?;
    }
  }

  lemma RegistrationKeepsKnown(w: World)
    requires Inv(w) && Enabled(w, RegisterAndGo) && !Exposed(w)
    ensures Known(Apply(w, RegisterAndGo))
  {
    var w' := Apply(w, RegisterAndGo);
    assert NoneCanLaunch(w);
    forall d | 0 <= d < |w'.deletes| ensures Knows(w'.goroutines, w'.deletes[d]) {
      assert !Committed(w.deletes[d]);
    }
  }

  lemma StepKeepsInv(w: World, e: Event)
    requires Inv(w) && Enabled(w, e) && (e.RegisterAndGo? ==> !Exposed(w))
    ensures Inv(Apply(w, e))
  {
    StepKeepsHandles(w, e);
    match e
    case CreatePod =>
    case CheckRegistered =>
    case RegisterAndGo => RegistrationKeepsKnown(w);
    case DeletePod =>
    case TestGhost => EvictionKeepsKnown(w, e);
    case EvictGhost(_) => EvictionKeepsKnown(w, e);
    case ReadHandle(_) => DeleteKeepsKnown(w, e);
    case CancelHandle(_) => DeleteKeepsKnown(w, e);
    case HandleDone(_) => DeleteKeepsKnown(w, e);
    case BeginTeardown(_) => DeleteKeepsKnown(w, e);
    case Unregister(_) => DeleteKeepsKnown(w, e);
    case _ => GoroutineKeepsKnown(w, e);
  }

  /** In every clean interleaving, a goroutine that can still launch is the one whose handle
      the store has, and every delete past its test knows it. */
  lemma {:induction false} RunKeepsInv(w: World, es: seq<Event>)
    requires Inv(w) && ValidRun(w, es) && Clean(w, es)
    ensures Inv(Final(w, es))
    decreases |es|
  {
    if es != [] {
      StepKeepsInv(w, es[0]);
      RunKeepsInv(Apply(w, es[0]), es[1..]);
    }
  }

  /** Goroutine g existed when delete d began its teardown, and launches afterwards. */
  ghost predicate LaunchAfterTeardown(w: World, before: seq<Event>, d: nat, after: seq<Event>, g: nat) {
    && ValidRun(w, before) && Enabled(Final(w, before), BeginTeardown(d))
    && g < |Final(w, before).goroutines|
    && var w1 := Apply(Final(w, before), BeginTeardown(d));
       ValidRun(w1, after) && Enabled(Final(w1, after), Launch(g))
  }

  /** Once a delete has begun its teardown, no goroutine that existed by then ever launches a
      container again, provided every registration up to then was made while no delete or
      eviction was past its test; what happens afterwards does not matter. */
  lemma NoLaunchAfterTeardown(w: World, before: seq<Event>, d: nat, after: seq<Event>, g: nat)
    requires Inv(w) && ValidRun(w, before) && Clean(w, before)
    ensures !LaunchAfterTeardown(w, before, d, after, g)
  {
    if LaunchAfterTeardown(w, before, d, after, g) {
      var w0 := Final(w, before);
      RunKeepsInv(w, before);
      assert Knows(w0.goroutines, w0.deletes[d]);
      RunStaysQuiet(Apply(w0, BeginTeardown(d)), after);
    }
  }

  lemma InitialIsOk(w: World)
    requires Initial(w)
    ensures Inv(w)
  {
  }

  /** At most one goroutine per uid can launch at any time. */
  lemma OneCreatorAtATime(w: World, es: seq<Event>, g: nat, g': nat)
    requires Initial(w) && ValidRun(w, es) && Clean(w, es)
    requires var w' := Final(w, es);
             && g < |w'.goroutines| && g' < |w'.goroutines|
             && CanLaunch(w'.goroutines[g]) && CanLaunch(w'.goroutines[g'])
    ensures g == g'
  {
    RunKeepsInv(w, es);
  }

  // ---- and when they are not ----

  lemma {:induction false} NoRegistrationIsClean(w: World, es: seq<Event>)
    requires ValidRun(w, es) && NoRegistration(es)
    ensures Clean(w, es)
    decreases |es|
  {
    if es != [] {
      NoRegistrationIsClean(Apply(w, es[0]), es[1..]);
    }
  }

  /** One more step in front. */
  lemma StepBefore(w: World, e: Event, before: seq<Event>, d: nat, after: seq<Event>, g: nat)
    requires Enabled(w, e) && LaunchAfterTeardown(Apply(w, e), before, d, after, g)
    ensures LaunchAfterTeardown(w, [e] + before, d, after, g)
  {
    OneStep(w, e, before);
  }

  lemma {:induction false} StepsBefore(w: World, es: seq<Event>, before: seq<Event>, d: nat, after: seq<Event>, g: nat)
    requires ValidRun(w, es) && LaunchAfterTeardown(Final(w, es), before, d, after, g)
    ensures LaunchAfterTeardown(w, es + before, d, after, g)
    decreases |es|
  {
    if es == [] {
      assert es + before == before;
    } else {
      StepsBefore(Apply(w, es[0]), es[1..], before, d, after, g);
      StepBefore(w, es[0], es[1..] + before, d, after, g);
      assert es + before == [es[0]] + (es[1..] + before);
    }
  }

  lemma FromStopping(w: World, d: nat, g: nat)
    requires DeleteAt(w, d, Stopping) && At(w, g, WaitingForSlot)
    ensures LaunchAfterTeardown(w, [], d, [GetSlot(g)], g)
  {
    OneStep(Apply(w, BeginTeardown(d)), GetSlot(g), []);
  }

  lemma FromWaiting(w: World, d: nat, g: nat) returns (before: seq<Event>)
    requires HandlesOk(w) && d < |w.deletes| && w.deletes[d].Waiting? && w.deletes[d].h != g
    requires At(w, g, WaitingForSlot)
    ensures NoRegistration(before) && LaunchAfterTeardown(w, before, d, [GetSlot(g)], g)
  {
    var es := DeleteIsNotStuck(w, d);
    var w1 := Final(w, es);
    FromStopping(Apply(w1, HandleDone(d)), d, g);
    StepBefore(w1, HandleDone(d), [], d, [GetSlot(g)], g);
    assert [HandleDone(d)] + [] == [HandleDone(d)];
    StepsBefore(w, es, [HandleDone(d)], d, [GetSlot(g)], g);
    before := es + [HandleDone(d)];
  }

  /** A goroutine that the store has lost is not seen by a delete that starts afterwards. */
  lemma FromLost(w: World, g: nat)
    requires w.entry == None && At(w, g, WaitingForSlot)
    ensures LaunchAfterTeardown(w, [DeletePod, ReadHandle(|w.deletes|)], |w.deletes|, [GetSlot(g)], g)
  {
    var d := |w.deletes|;
    var w1 := Apply(w, DeletePod);
    var w2 := Apply(w1, ReadHandle(d));
    FromStopping(w2, d, g);
    StepBefore(w1, ReadHandle(d), [], d, [GetSlot(g)], g);
    assert [ReadHandle(d)] + [] == [ReadHandle(d)];
    StepBefore(w, DeletePod, [ReadHandle(d)], d, [GetSlot(g)], g);
    assert [DeletePod] + [ReadHandle(d)] == [DeletePod, ReadHandle(d)];
  }

  /** After a registration that a committed delete cannot see. */
  lemma FromCommitted(w: World, d: nat, g: nat) returns (before: seq<Event>, d': nat)
    requires HandlesOk(w) && d < |w.deletes| && Committed(w.deletes[d]) && At(w, g, WaitingForSlot)
    requires w.deletes[d].Cancelling? || w.deletes[d].Waiting? ==> w.deletes[d].h != g
    ensures NoRegistration(before) && LaunchAfterTeardown(w, before, d', [GetSlot(g)], g)
  {
    d' := d;
    match w.deletes[d]
    case Cancelling(h) =>
      assert HandleOk(w.goroutines, w.deletes[d]);
      var w1 := Apply(w, CancelHandle(d));
      StepKeepsHandles(w, CancelHandle(d));
      var rest := FromWaiting(w1, d, g);
      StepBefore(w, CancelHandle(d), rest, d, [GetSlot(g)], g);
      before := [CancelHandle(d)] + rest;
    case Waiting(h) => before := FromWaiting(w, d, g);
    case Stopping =>
      FromStopping(w, d, g);
      before := [];
    case TearingDown =>
      var w1 := Apply(w, Unregister(d));
      FromLost(w1, g);
      d' := |w.deletes|;
      StepBefore(w, Unregister(d), [DeletePod, ReadHandle(d')], d', [GetSlot(g)], g);
      before := [Unregister(d)] + [DeletePod, ReadHandle(d')];
  }

  /** A registration while something is exposed to it can be followed, without another
      registration, by a launch after a teardown. */
  lemma ExposedIsUnsafe(w: World) returns (before: seq<Event>, d: nat, after: seq<Event>, g: nat)
    requires HandlesOk(w) && Enabled(w, RegisterAndGo) && Exposed(w)
    ensures NoRegistration(before) && LaunchAfterTeardown(Apply(w, RegisterAndGo), before, d, after, g)
  {
    var w1 := Apply(w, RegisterAndGo);
    StepKeepsHandles(w, RegisterAndGo);
    g := |w.goroutines|;
    after := [GetSlot(g)];
    if c :| 0 <= c < |w.deletes| && Committed(w.deletes[c]) {
      assert HandleOk(w.goroutines, w.deletes[c]);
      before, d := FromCommitted(w1, c, g);
    } else {
      var i :| 0 <= i < |w.evictions| && w.evictions[i].Tested?;
      var w2 := Apply(w1, EvictGhost(i));
      FromLost(w2, g);
      d := |w.deletes|;
      StepBefore(w1, EvictGhost(i), [DeletePod, ReadHandle(d)], d, after, g);
      before := [EvictGhost(i)] + [DeletePod, ReadHandle(d)];
    }
  }

  /** After a clean run, a registration is safe exactly when no delete is between its reading of
      the handle and its end, and no eviction between its test and its removal. */
  lemma RegistrationIsSafeIff(w: World)
    requires Inv(w) && Enabled(w, RegisterAndGo)
    ensures Exposed(w) <==>
            exists before, d, after, g ::
              NoRegistration(before) && LaunchAfterTeardown(Apply(w, RegisterAndGo), before, d, after, g)
  {
    var w1 := Apply(w, RegisterAndGo);
    if Exposed(w) {
      var before, d, after, g := ExposedIsUnsafe(w);
    } else {
      StepKeepsInv(w, RegisterAndGo);
      forall before, d, after, g | NoRegistration(before) && ValidRun(w1, before)
        ensures !LaunchAfterTeardown(w1, before, d, after, g)
      {
        NoRegistrationIsClean(w1, before);
        NoLaunchAfterTeardown(w1, before, d, after, g);
      }
    }
  }

  /** A running pod restored from disk. */
  const RESTORED := World(Some(Entry(None)), [], Idle, [], [])

  /** One delete has read that nothing is in flight, another has gone all the way. */
  const OVERTAKEN := World(None, [], Idle, [Stopping, Finished], [])

  lemma OvertakenIsUnsafe() returns (before: seq<Event>, d: nat, after: seq<Event>, g: nat)
    ensures LaunchAfterTeardown(OVERTAKEN, before, d, after, g)
  {
    var w1 := Apply(OVERTAKEN, CreatePod);
    var w2 := Apply(w1, CheckRegistered);
    assert Committed(w2.deletes[0]);
    before, d, after, g := ExposedIsUnsafe(w2);
    StepBefore(w2, RegisterAndGo, before, d, after, g);
    before := [RegisterAndGo] + before;
    StepBefore(w1, CheckRegistered, before, d, after, g);
    before := [CheckRegistered] + before;
    StepBefore(OVERTAKEN, CreatePod, before, d, after, g);
    before := [CreatePod] + before;
  }

  /** So overlapping deletes, which the eviction loop makes possible, can be unsafe. */
  lemma OverlappingDeletesCanFail() returns (before: seq<Event>, d: nat, after: seq<Event>, g: nat)
    ensures Initial(RESTORED) && LaunchAfterTeardown(RESTORED, before, d, after, g)
  {
    var w1 := Apply(RESTORED, DeletePod);
    var w2 := Apply(w1, ReadHandle(0));
    var w3 := Apply(w2, DeletePod);
    var w4 := Apply(w3, ReadHandle(1));
    var w5 := Apply(w4, BeginTeardown(1));
    assert Apply(w5, Unregister(1)) == OVERTAKEN;
    before, d, after, g := OvertakenIsUnsafe();
    StepBefore(w5, Unregister(1), before, d, after, g);
    before := [Unregister(1)] + before;
    StepBefore(w4, BeginTeardown(1), before, d, after, g);
    before := [BeginTeardown(1)] + before;
    StepBefore(w3, ReadHandle(1), before, d, after, g);
    before := [ReadHandle(1)] + before;
    StepBefore(w2, DeletePod, before, d, after, g);
    before := [DeletePod] + before;
    StepBefore(w1, ReadHandle(0), before, d, after, g);
    before := [ReadHandle(0)] + before;
    StepBefore(RESTORED, DeletePod, before, d, after, g);
    before := [DeletePod] + before;
  }

  /** A create does not overlap a delete, and no eviction is under way when a create starts or
      goes on. */
  ghost predicate Serialised(w: World, es: seq<Event>)
    requires ValidRun(w, es)
    decreases |es|
  {
    && (w.create != Idle ==>
          && (forall d :: 0 <= d < |w.deletes| ==> w.deletes[d].Finished?)
          && (forall i :: 0 <= i < |w.evictions| ==> w.evictions[i].Evicted?))
    && (es == [] || Serialised(Apply(w, es[0]), es[1..]))
  }

  /** Under a queue that serialises creates and deletes, every run is clean. */
  lemma {:induction false} SerialisedIsClean(w: World, es: seq<Event>)
    requires ValidRun(w, es) && Serialised(w, es)
    ensures Clean(w, es)
    decreases |es|
  {
    if es != [] { SerialisedIsClean(Apply(w, es[0]), es[1..]); }
  }
}
