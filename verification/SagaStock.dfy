/**
  Where the reservation of an order is, on every interleaving.  Reservations are accounted
  for by what Starts stored, releases by what Cancels read, payments that did not go
  through and refunds that were reported.
 */
module SagaStock {
  import opened Common
  import opened Orders
  import opened SagaProtocol
  import opened SagaSafety
  import opened SagaTrace
  import opened SagaStages
  import opened SagaLedger

  // ---------------------------------------------------------------- what is counted

  function Held(): Call -> bool { (c: Call) => c.ReserveCall? && c.ok }

  function LetGo(): Call -> bool { (c: Call) => c.ReleaseCall? }

  /** A payment that did not go through; its Start releases what it had reserved. */
  function Declined(): Call -> bool {
    (c: Call) => c.PayCall? && !(c.ok && (c.status.Captured? || c.status.Authorized?))
  }

  /** A Refund request whose refund was reported; it releases what was reserved. */
  function PaidBack(): Answer -> bool { (a: Answer) => !a.forCancel && a.reported }

  function Unkept(): Thread -> bool { (th: Thread) => SavingReserved(th) }

  /** A call that has yet to ask for a release. */
  function Releasing(): Thread -> bool {
    (th: Thread) =>
      th.Working? && (th.at.ReleasingForCancel? || th.at.ReleasingAfterFailure? || th.at.ReleasingAfterRefund?)
  }

  /** A Cancel that releases because of what it read. */
  function Releaser(): Read -> bool {
    (r: Read) => r.request.Cancel? && (r.status.Reserved? || PaidFor(r.status))
  }

  // ------------------------------------------------------------------------ one step

  /** Reservations that went through: stored as reserved, still to be stored, or given up on. */
  lemma StepHeld(t: nat, th: Thread, hist: seq<Order>, r: Reply)
    requires Stage(th)
    ensures var e := Step(t, th, hist, r);
            (if e.called == [] then 0 else Bit(Held()(e.called[0]))) + Bit(Unkept()(th))
            == Bit(Unkept()(e.thread)) + (if e.stored == [] then 0 else Bit(Is(Reserved)(e.stored[0])))
               + Bit(SavingReserved(th) && e.thread.Finished?)
  {
    if th.Working? && th.at.EmittingStatus? && th.at.up.next.ThenConfirm? { EnterStage(th, Confirmed, ThenReturn); }
  }

  /** Releases: asked for, or owed, for every reason to release. */
  lemma StepLetGo(t: nat, th: Thread, hist: seq<Order>, r: Reply)
    requires Stage(th)
    ensures var e, read, answer := Step(t, th, hist, r), NewReads(t, th, hist, r), NewAnswers(t, th, r);
            (if e.called == [] then 0 else Bit(LetGo()(e.called[0]))) + Bit(Releasing()(e.thread))
            == Bit(Releasing()(th)) + (if read == [] then 0 else Bit(Releaser()(read[0])))
               + (if e.called == [] then 0 else Bit(Declined()(e.called[0])))
               + (if answer == [] then 0 else Bit(PaidBack()(answer[0])))
  {
    if th.Working? && th.at.EmittingStatus? && th.at.up.next.ThenConfirm? { EnterStage(th, Confirmed, ThenReturn); }
  }

  // ---------------------------------------------------------------------- whole runs

  ghost predicate HeldCounted(w: World, n: Notes) {
    Count(w.calls, Held()) == Count(w.hist, Is(Reserved)) + |Standing(w.threads, Unkept())| + |n.unreserved|
  }

  ghost predicate LetGoCounted(w: World, n: Notes) {
    Count(w.calls, LetGo()) + |Standing(w.threads, Releasing())|
    == Count(n.firstReads, Releaser()) + Count(w.calls, Declined()) + Count(n.answers, PaidBack())
  }

  ghost predicate Stocked(w: World, n: Notes) {
    && (w.hist == [] ==> w.calls == [] && n == BLANK)
    && HeldCounted(w, n) && LetGoCounted(w, n)
  }

  lemma ActHeld(w: World, n: Notes, t: nat, r: Reply)
    requires t in w.threads && Stage(w.threads[t]) && HeldCounted(w, n)
    ensures HeldCounted(Apply(w, t, Step(t, w.threads[t], w.hist, r)), Observe(n, t, w.threads[t], w.hist, r))
  {
    var e := Step(t, w.threads[t], w.hist, r);
    StepPays(t, w.threads[t], w.hist, r);
    StepHeld(t, w.threads[t], w.hist, r);
    CountMore(w.calls, e.called, Held());
    CountMore(w.hist, e.stored, Is(Reserved));
    StandingUpdate(w.threads, t, e.thread, Unkept());
  }

  lemma ActLetGo(w: World, n: Notes, t: nat, r: Reply)
    requires t in w.threads && Stage(w.threads[t]) && LetGoCounted(w, n)
    ensures LetGoCounted(Apply(w, t, Step(t, w.threads[t], w.hist, r)), Observe(n, t, w.threads[t], w.hist, r))
  {
    var th := w.threads[t];
    var e, read, answer := Step(t, th, w.hist, r), NewReads(t, th, w.hist, r), NewAnswers(t, th, r);
    StepPays(t, th, w.hist, r);
    StepLetGo(t, th, w.hist, r);
    CountMore(w.calls, e.called, LetGo());
    CountMore(w.calls, e.called, Declined());
    CountMore(n.firstReads, read, Releaser());
    CountMore(n.answers, answer, PaidBack());
    StandingUpdate(w.threads, t, e.thread, Releasing());
  }

  lemma CreateStocked(w: World, n: Notes, order: Order)
    requires Safe(w) && Stocked(w, n) && w.hist == [] && NewOrder(order)
    ensures Stocked(w.(hist := [order]), n)
  {
    assert Standing(w.threads, Unkept()) == {} && Standing(w.threads, Releasing()) == {};
    assert Count([order], Is(Reserved)) == 0 by {
      CountMore([], [order], Is(Reserved));
      assert [] + [order] == [order];
    }
  }

  lemma SpawnStocked(w: World, n: Notes, t: nat, request: Request)
    requires Stocked(w, n) && t !in w.threads
    ensures Stocked(w.(threads := w.threads[t := Reading(request)]), n)
  {
    StandingUpdate(w.threads, t, Reading(request), Unkept());
    StandingUpdate(w.threads, t, Reading(request), Releasing());
  }

  lemma NextStocked(w: World, n: Notes, a: Action)
    requires Safe(w) && Staged(w, n) && Stocked(w, n)
    ensures Stocked(Next(w, a), Noted(w, n, a))
  {
    match a
    case Create(order) =>
      if w.hist == [] && NewOrder(order) { CreateStocked(w, n, order); }
    case Spawn(t, request) =>
      if t !in w.threads { SpawnStocked(w, n, t, request); }
    case Act(t, r) =>
      if t in w.threads {
        ActHeld(w, n, t, r);
        ActLetGo(w, n, t, r);
      }
  }

  lemma {:induction false} RunStocked(w: World, n: Notes, actions: seq<Action>)
    requires Safe(w) && Staged(w, n) && Stocked(w, n)
    ensures Stocked(Run(w, actions), NotesOf(w, n, actions))
    decreases |actions|
  {
    if actions != [] {
      NextSafe(w, actions[0]);
      NextStaged(w, n, actions[0]);
      NextStocked(w, n, actions[0]);
      RunStocked(Next(w, actions[0]), Noted(w, n, actions[0]), actions[1..]);
    }
  }

  lemma NothingStocked()
    ensures Safe(EMPTY) && Staged(EMPTY, BLANK) && Stocked(EMPTY, BLANK)
  {
    assert Standing(EMPTY.threads, Unkept()) == {} && Standing(EMPTY.threads, Releasing()) == {};
  }

  // ------------------------------------------------------------- reserved and released

  /** If the order was ever reserved, somebody asked for a release. */
  ghost predicate GivenUp(calls: seq<Call>) {
    HasReserve(calls) ==> exists i :: 0 <= i < |calls| && calls[i].ReleaseCall?
  }

  /** Reserved was never stored, and no Start holds or gave up a reservation that was not stored. */
  ghost predicate NeverReserved(w: World, n: Notes) {
    && (forall v | 0 <= v < |w.hist| :: !w.hist[v].status.Reserved?)
    && (forall t | t in w.threads :: !SavingReserved(w.threads[t]))
    && n.unreserved == []
  }

  /**
    Of the calls with a reason to release, some are past it: Cancels that read the order
    reserved or paid, Starts whose payment did not go through, Refunds that were reported.
   */
  ghost predicate ReleaseMade(w: World, n: Notes) {
    Count(n.firstReads, Releaser()) + Count(w.calls, Declined()) + Count(n.answers, PaidBack())
    > |Standing(w.threads, Releasing())|
  }

  lemma HeldIsReserved(w: World, n: Notes)
    requires HeldCounted(w, n)
    ensures NeverReserved(w, n) <==> !HasReserve(w.calls)
  {
    CountPositive(w.calls, Held());
    CountPositive(w.hist, Is(Reserved));
    assert forall i | 0 <= i < |w.calls| :: Held()(w.calls[i]) <==> GoodReserve(w.calls[i]);
    assert forall v | 0 <= v < |w.hist| :: Is(Reserved)(w.hist[v]) <==> w.hist[v].status.Reserved?;
    var s := Standing(w.threads, Unkept());
    assert forall t | t in w.threads :: t in s <==> SavingReserved(w.threads[t]);
    assert |s| == 0 <==> s == {};
  }

  lemma LetGoIsReleased(w: World, n: Notes)
    requires LetGoCounted(w, n)
    ensures ReleaseMade(w, n) <==> exists i :: 0 <= i < |w.calls| && w.calls[i].ReleaseCall?
  {
    CountPositive(w.calls, LetGo());
    assert forall i | 0 <= i < |w.calls| :: LetGo()(w.calls[i]) <==> w.calls[i].ReleaseCall?;
  }

  /**
    On every interleaving an order that was reserved has had a release asked for by
    somebody exactly when it was never reserved at all or a call with a reason to release
    is past it.
   */
  lemma ReleasedWhen(actions: seq<Action>)
    ensures var w, n := Run(EMPTY, actions), NotesOf(EMPTY, BLANK, actions);
            GivenUp(w.calls) <==> NeverReserved(w, n) || ReleaseMade(w, n)
  {
    NothingStocked();
    RunStocked(EMPTY, BLANK, actions);
    var w, n := Run(EMPTY, actions), NotesOf(EMPTY, BLANK, actions);
    HeldIsReserved(w, n);
    LetGoIsReleased(w, n);
  }
}
