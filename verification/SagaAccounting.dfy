/** Counting laws of the saga: saves per updateStatus call and status events per version. */
module SagaAccounting {
  import opened Orders
  import opened SagaProtocol
  import opened SagaSafety

  // ------------------------------------------------------- saves per update

  /** Saves tried by the k-th updateStatus call of thread t. */
  function Tries(saves: seq<SaveTry>, t: nat, k: nat): nat {
    if saves == [] then 0
    else
      var s := saves[|saves| - 1];
      Tries(saves[..|saves| - 1], t, k) + if s.caller == t && s.update == k then 1 else 0
  }

  function Commits(saves: seq<SaveTry>, t: nat, k: nat): nat {
    if saves == [] then 0
    else
      var s := saves[|saves| - 1];
      Commits(saves[..|saves| - 1], t, k) + if s.caller == t && s.update == k && s.ok then 1 else 0
  }

  /** All that thread t has tried so far, with what it may still try. */
  ghost predicate TriesOk(saves: seq<SaveTry>, t: nat, th: Thread) {
    && (forall k :: Tries(saves, t, k) <= MAX_RETRIES && Commits(saves, t, k) <= 1)
    && (th.Reading? ==> forall k :: Tries(saves, t, k) == 0 == Commits(saves, t, k))
    && (th.Working? ==>
          && (forall k | k > th.updates :: Tries(saves, t, k) == 0 == Commits(saves, t, k))
          && (th.at.Saving? ==> Tries(saves, t, th.updates) == th.at.up.attempt && Commits(saves, t, th.updates) == 0)
          && (th.at.Reloading? ==>
                Tries(saves, t, th.updates) == th.at.up.attempt + 1 && Commits(saves, t, th.updates) == 0))
  }

  lemma TriesAppend(saves: seq<SaveTry>, s: SaveTry, t: nat, k: nat)
    ensures Tries(saves + [s], t, k) == Tries(saves, t, k) + (if s.caller == t && s.update == k then 1 else 0)
    ensures Commits(saves + [s], t, k) == Commits(saves, t, k)
            + (if s.caller == t && s.update == k && s.ok then 1 else 0)
  {
    assert (saves + [s])[..|saves|] == saves;
  }

  /** A fresh updateStatus call has the next ordinal, which has tried nothing yet. */
  lemma EnterCountsUp(th: Thread, target: OrderStatus, next: Then)
    requires th.Working?
    ensures var r := Enter(th, target, next);
            r.Working? ==> r.updates >= th.updates && (r.at.Saving? ==> r.updates > th.updates)
    ensures var r := Continue(th, next);
            r.Working? ==> r.updates >= th.updates && (r.at.Saving? ==> r.updates > th.updates)
  {
  }

  lemma StepTries(saves: seq<SaveTry>, hist: seq<Order>, t: nat, th: Thread, r: Reply)
    requires TriesOk(saves, t, th) && CopyOk(hist, th)
    ensures var e := Step(t, th, hist, r); TriesOk(saves + e.tried, t, e.thread)
  {
    var e := Step(t, th, hist, r);
    if e.tried == [] {
      assert saves + e.tried == saves;
      if th.Working? && !th.at.Saving? && !th.at.Reloading? { StepCountsUp(hist, t, th, r); }
    } else {
      assert saves + e.tried == saves + [e.tried[0]];
      forall k: nat { TriesAppend(saves, e.tried[0], t, k); }
    }
  }

  lemma StepCountsUp(hist: seq<Order>, t: nat, th: Thread, r: Reply)
    requires th.Working? && !th.at.Saving? && !th.at.Reloading?
    ensures var e := Step(t, th, hist, r);
            && e.tried == []
            && (e.thread.Working? ==>
                 && e.thread.updates >= th.updates && !e.thread.at.Reloading?
                 && (e.thread.at.Saving? ==> e.thread.updates > th.updates && e.thread.at.up.attempt == 0))
  {
    match th.at
    case Reserving => EnterCountsUp(th, Reserved, ThenPay); EnterCountsUp(th, Canceled, ThenEmit(SagaFailed));
    case Paying => EnterCountsUp(th, Paid, ThenConfirm);
    case ReleasingAfterFailure => EnterCountsUp(th, Canceled, ThenEmit(SagaFailed));
    case ReleasingForCancel => EnterCountsUp(th, Canceled, ThenEmit(OrderCanceled));
    case RefundingForCancel => EnterCountsUp(th, Canceled, ThenEmit(OrderCanceled));
    case ReleasingAfterRefund(amount) => EnterCountsUp(th, Refunded, ThenEmit(OrderRefunded(amount)));
    case EmittingStatus(up) => EnterCountsUp(th, Pending, up.next);
    case _ =>
  }

  ghost predicate SavesOk(w: World) {
    && (forall t | t in w.threads :: TriesOk(w.saves, t, w.threads[t]))
    && (forall t, k | t !in w.threads :: Tries(w.saves, t, k) == 0 == Commits(w.saves, t, k))
  }

  lemma NextSaves(w: World, a: Action)
    requires Safe(w) && SavesOk(w)
    ensures SavesOk(Next(w, a))
  {
    if a.Act? && a.thread in w.threads {
      var t, w' := a.thread, Next(w, a);
      var e := Step(t, w.threads[t], w.hist, a.reply);
      StepTries(w.saves, w.hist, t, w.threads[t], a.reply);
      forall u: nat, k: nat | u != t
        ensures Tries(w'.saves, u, k) == Tries(w.saves, u, k) && Commits(w'.saves, u, k) == Commits(w.saves, u, k)
      {
        OtherTries(w.saves, t, w.threads[t], w.hist, a.reply, u, k);
      }
    }
  }

  /** A step tries no save for another call. */
  lemma OtherTries(saves: seq<SaveTry>, t: nat, th: Thread, hist: seq<Order>, r: Reply, u: nat, k: nat)
    requires u != t
    ensures var saves' := saves + Step(t, th, hist, r).tried;
            Tries(saves', u, k) == Tries(saves, u, k) && Commits(saves', u, k) == Commits(saves, u, k)
  {
    var tried := Step(t, th, hist, r).tried;
    if tried == [] {
      assert saves + tried == saves;
    } else {
      assert tried == [tried[0]] && tried[0].caller == t;
      TriesAppend(saves, tried[0], u, k);
    }
  }

  // ------------------------------------------------ one event per version

  predicate Announces(e: Event, v: int) {
    e.StatusChanged? && e.version == v
  }

  predicate Emitting(th: Thread) {
    th.Working? && th.at.EmittingStatus?
  }

  predicate Emits(th: Thread, v: int) {
    Emitting(th) && th.order.version == v
  }

  function EmittingThreads(threads: map<nat, Thread>): set<nat> {
    set t | t in threads && Emitting(threads[t])
  }

  function StatusEvents(events: seq<Event>): nat {
    if events == [] then 0
    else StatusEvents(events[..|events| - 1]) + (if events[|events| - 1].StatusChanged? then 1 else 0)
  }

  /** Each announced version is stored, announced once, and announced with its status. */
  ghost predicate EventsOk(hist: seq<Order>, events: seq<Event>) {
    && (forall i | 0 <= i < |events| && events[i].StatusChanged? ::
          1 <= events[i].version < |hist| && events[i].status == hist[events[i].version].status)
    && (forall i, j | 0 <= i < j < |events| && events[i].StatusChanged? && events[j].StatusChanged? ::
          events[i].version != events[j].version)
  }

  /** A version still to be announced belongs to one thread, and no event has announced it. */
  ghost predicate PendingOk(w: World) {
    && (forall t, i | t in w.threads && Emitting(w.threads[t]) && 0 <= i < |w.events| ::
          !Announces(w.events[i], w.threads[t].order.version))
    && (forall t, u | t in w.threads && u in w.threads && t != u && Emitting(w.threads[t]) && Emitting(w.threads[u]) ::
          w.threads[t].order.version != w.threads[u].order.version)
  }

  ghost predicate Covered(w: World, v: int) {
    || (exists i :: 0 <= i < |w.events| && Announces(w.events[i], v))
    || (exists t :: t in w.threads && Emits(w.threads[t], v))
  }

  ghost predicate Accounted(w: World) {
    && EventsOk(w.hist, w.events)
    && PendingOk(w)
    && (forall v | 1 <= v < |w.hist| :: Covered(w, v))
    && (w.hist == [] ==> w.events == [] && EmittingThreads(w.threads) == {})
    && (w.hist != [] ==> |w.hist| - 1 == StatusEvents(w.events) + |EmittingThreads(w.threads)|)
  }

  lemma StatusEventsAppend(events: seq<Event>, e: Event)
    ensures StatusEvents(events + [e]) == StatusEvents(events) + (if e.StatusChanged? then 1 else 0)
  {
    assert (events + [e])[..|events|] == events;
  }

  /** How a step changes who is emitting: a save adds its thread, a status event removes it. */
  ghost predicate EmitShape(th: Thread, hist: seq<Order>, e: Effect) {
    && |e.stored| <= 1 && |e.emitted| <= 1
    && (Emitting(e.thread) <==> e.stored != [])
    && (e.stored != [] ==>
          e.emitted == [] && !Emitting(th) && e.thread.order == e.stored[0] && e.stored[0].version == |hist|)
    && (Emitting(th) ==>
          && e.emitted == [StatusChanged(th.order.status, th.order.version)]
          && 1 <= th.order.version < |hist| && hist[th.order.version].status == th.order.status)
    && (!Emitting(th) && e.emitted != [] ==> e.emitted[0].Outcome?)
  }

  lemma StepEmits(t: nat, th: Thread, hist: seq<Order>, r: Reply)
    requires HistoryOk(hist) && CopyOk(hist, th)
    ensures EmitShape(th, hist, Step(t, th, hist, r))
  {
  }

  lemma EmittingUpdate(threads: map<nat, Thread>, t: nat, th: Thread)
    ensures var s, s' := EmittingThreads(threads), EmittingThreads(threads[t := th]);
            s' == if Emitting(th) then s + {t} else s - {t}
  {
  }

  lemma ActCounts(w: World, t: nat, e: Effect)
    requires t in w.threads && EmitShape(w.threads[t], w.hist, e)
    requires |w.hist| - 1 == StatusEvents(w.events) + |EmittingThreads(w.threads)|
    ensures var w' := Apply(w, t, e); |w'.hist| - 1 == StatusEvents(w'.events) + |EmittingThreads(w'.threads)|
  {
    EmittingUpdate(w.threads, t, e.thread);
    assert Emitting(w.threads[t]) <==> t in EmittingThreads(w.threads);
    if e.emitted == [] {
      assert w.events + e.emitted == w.events;
    } else {
      assert w.events + e.emitted == w.events + [e.emitted[0]];
      StatusEventsAppend(w.events, e.emitted[0]);
    }
  }

  lemma ActEvents(w: World, t: nat, e: Effect)
    requires t in w.threads && EmitShape(w.threads[t], w.hist, e)
    requires EventsOk(w.hist, w.events) && PendingOk(w)
    ensures EventsOk(w.hist + e.stored, w.events + e.emitted)
  {
    var events := w.events + e.emitted;
    assert forall i | 0 <= i < |w.events| :: events[i] == w.events[i];
    if Emitting(w.threads[t]) {
      assert forall i | 0 <= i < |w.events| :: !Announces(w.events[i], w.threads[t].order.version);
    }
  }

  lemma ActPending(w: World, t: nat, e: Effect)
    requires t in w.threads && EmitShape(w.threads[t], w.hist, e)
    requires EventsOk(w.hist, w.events) && PendingOk(w)
    requires forall u | u in w.threads && Emitting(w.threads[u]) :: w.threads[u].order.version < |w.hist|
    ensures PendingOk(Apply(w, t, e))
  {
  }

  lemma ActCovers(w: World, t: nat, e: Effect, v: int)
    requires t in w.threads && EmitShape(w.threads[t], w.hist, e)
    requires v < |w.hist| ==> Covered(w, v)
    requires v < |w.hist + e.stored|
    ensures Covered(Apply(w, t, e), v)
  {
    var w' := Apply(w, t, e);
    if v >= |w.hist| {
      assert Emits(w'.threads[t], v);
    } else if i :| 0 <= i < |w.events| && Announces(w.events[i], v) {
      assert Announces(w'.events[i], v);
    } else {
      var u :| u in w.threads && Emits(w.threads[u], v);
      if u == t { assert Announces(w'.events[|w.events|], v); } else { assert Emits(w'.threads[u], v); }
    }
  }

  lemma ActAccounted(w: World, t: nat, e: Effect)
    requires t in w.threads && EmitShape(w.threads[t], w.hist, e) && Accounted(w)
    requires w.hist == [] ==> e.stored == [] && e.emitted == []
    requires forall u | u in w.threads && Emitting(w.threads[u]) :: w.threads[u].order.version < |w.hist|
    ensures Accounted(Apply(w, t, e))
  {
    var w' := Apply(w, t, e);
    EmittingUpdate(w.threads, t, e.thread);
    ActEvents(w, t, e);
    ActPending(w, t, e);
    if w.hist != [] { ActCounts(w, t, e); }
    forall v | 1 <= v < |w'.hist| ensures Covered(w', v) { ActCovers(w, t, e, v); }
  }

  lemma SpawnAccounted(w: World, t: nat, request: Request)
    requires Accounted(w) && t !in w.threads
    ensures Accounted(w.(threads := w.threads[t := Reading(request)]))
  {
    var w' := w.(threads := w.threads[t := Reading(request)]);
    EmittingUpdate(w.threads, t, Reading(request));
    assert PendingOk(w');
    forall v | 1 <= v < |w'.hist| ensures Covered(w', v) { CoveredAfterSpawn(w, t, request, v); }
  }

  lemma NextAccounted(w: World, a: Action)
    requires Safe(w) && Accounted(w)
    ensures Accounted(Next(w, a))
  {
    match a
    case Create(o) =>
      assert StatusEvents([]) == 0;
    case Spawn(t, request) =>
      if t !in w.threads { SpawnAccounted(w, t, request); }
    case Act(t, r) =>
      if t in w.threads {
        StepEmits(t, w.threads[t], w.hist, r);
        ActAccounted(w, t, Step(t, w.threads[t], w.hist, r));
      }
  }

  lemma CoveredAfterSpawn(w: World, t: nat, request: Request, v: int)
    requires Covered(w, v) && t !in w.threads
    ensures Covered(w.(threads := w.threads[t := Reading(request)]), v)
  {
    if i :| 0 <= i < |w.events| && Announces(w.events[i], v) {
    } else {
      var u :| u in w.threads && Emits(w.threads[u], v);
      assert Emits(w.threads[t := Reading(request)][u], v);
    }
  }

  lemma {:induction false} RunAccounted(w: World, actions: seq<Action>)
    requires Safe(w) && Accounted(w) && SavesOk(w)
    ensures Accounted(Run(w, actions)) && SavesOk(Run(w, actions))
    decreases |actions|
  {
    if actions != [] {
      NextSafe(w, actions[0]);
      NextAccounted(w, actions[0]);
      NextSaves(w, actions[0]);
      RunAccounted(Next(w, actions[0]), actions[1..]);
    }
  }

  /** On every interleaving each updateStatus call tries at most three saves and commits at most one. */
  lemma SavesPerUpdate(actions: seq<Action>, t: nat, k: nat)
    ensures var w := Run(EMPTY, actions);
            Tries(w.saves, t, k) <= 3 && Commits(w.saves, t, k) <= 1
  {
    RunAccounted(EMPTY, actions);
  }

  /** A save turned away by a newer version is the last one exactly when it is the third. */
  lemma ThirdRejectionIsFinal(actions: seq<Action>, t: nat, r: Reply)
    requires var w := Run(EMPTY, actions);
             && t in w.threads && w.threads[t].Working? && w.threads[t].at.Saving? && r.ok && w.hist != []
             && !Terminal(w.threads[t].order.status) && Current(w.hist).version != w.threads[t].order.version
    ensures var w := Run(EMPTY, actions);
            var w' := Next(w, Act(t, r));
            w'.threads[t].Finished? <==> Tries(w'.saves, t, w.threads[t].updates) == 3
  {
    var w := Run(EMPTY, actions);
    RunAccounted(EMPTY, actions);
    RunSafe(EMPTY, actions);
    assert TriesOk(w.saves, t, w.threads[t]) && CopyOk(w.hist, w.threads[t]);
    TriesAppend(w.saves, SaveTry(t, w.threads[t].updates, false), t, w.threads[t].updates);
  }

  /**
    On every interleaving the version of an order is the number of its status events
    plus the number of calls that saved and have not emitted yet.
   */
  lemma VersionCountsEvents(actions: seq<Action>)
    ensures var w := Run(EMPTY, actions);
            w.hist != [] ==> Current(w.hist).version == StatusEvents(w.events) + |EmittingThreads(w.threads)|
  {
    RunSafe(EMPTY, actions);
    RunAccounted(EMPTY, actions);
  }

  /**
    Once no call is between its save and its event, every stored version after the
    first has been announced by exactly one event, which carries that version's status.
   */
  lemma EveryVersionAnnouncedOnce(actions: seq<Action>, v: int)
    ensures var w := Run(EMPTY, actions);
            EmittingThreads(w.threads) == {} && 1 <= v < |w.hist| ==>
              exists i :: 0 <= i < |w.events| && w.events[i] == StatusChanged(w.hist[v].status, v)
                && forall j | 0 <= j < |w.events| && j != i :: !Announces(w.events[j], v)
  {
    var w := Run(EMPTY, actions);
    RunSafe(EMPTY, actions);
    RunAccounted(EMPTY, actions);
    if EmittingThreads(w.threads) == {} && 1 <= v < |w.hist| {
      assert Covered(w, v);
      assert forall t | t in w.threads :: Emits(w.threads[t], v) ==> t in EmittingThreads(w.threads);
      var i :| 0 <= i < |w.events| && Announces(w.events[i], v);
      assert w.events[i] == StatusChanged(w.hist[v].status, v);
    }
  }
}
