/**
  When a canceled order that was paid has been refunded and one that was reserved has
  been released, whoever canceled it, and the ways in which they have not.
 */
module SagaCompensation {
  import opened Orders
  import opened SagaProtocol
  import opened SagaSafety
  import opened SagaTrace
  import opened SagaStages
  import opened SagaLedger
  import opened SagaStock
  import opened SagaOverlap

  /** A step that stores status canceled. */
  ghost predicate Cancels(w: World, t: nat, r: Reply) {
    && t in w.threads && Step(t, w.threads[t], w.hist, r).stored != []
    && Step(t, w.threads[t], w.hist, r).stored[0].status == Canceled
  }

  /** The Cancel asked for the refund because it first read the order paid. */
  predicate ReadPaid(th: Thread) {
    th.Working? && th.request.Cancel? && PaidFor(th.seen)
  }

  /**
    Every commit of status canceled is made by a Cancel or a failing Start.  When it is a
    Cancel that first read the order paid, its refund was answered without error, and the
    order has been refunded exactly when that answer was reported refunded or some other
    call's was.  For every other committing call the order, if it was paid, has been
    refunded exactly when paid was never stored and no Start stands or gave up between its
    payment and the save of it, or some call that read the order paid had its refund
    reported.
   */
  lemma CanceledIsRepaidWhen(actions: seq<Action>, t: nat, r: Reply)
    requires Cancels(Run(EMPTY, actions), t, r)
    ensures var w, n := Run(EMPTY, actions), NotesOf(EMPTY, BLANK, actions);
            var th, w' := w.threads[t], Next(w, Act(t, r));
            && th.Working? && !th.request.Refund? && w'.hist != [] && Current(w'.hist).status == Canceled
            && (ReadPaid(th) ==>
                  && FullyRefunded(w'.calls, t, w'.hist[0])
                  && (Repaid(w'.calls, w'.hist[0]) <==>
                        Count(n.answers, UnreportedTo(t)) == 0 || RefundWentThrough(w, n)))
            && (!ReadPaid(th) ==>
                  (Repaid(w'.calls, w'.hist[0]) <==> NeverPaid(w, n) || RefundWentThrough(w, n)))
  {
    var w := Run(EMPTY, actions);
    var th := w.threads[t];
    RunStaged(EMPTY, BLANK, actions);
    assert Stage(th);
    CommitShape(w, t, r);
    RepaidWhen(actions);
    if ReadPaid(th) {
      PaidReaderIsAnswered(actions, t);
      PaidReaderFoundPayment(actions, t);
      ReportedIsRepaid(actions, t);
    }
  }

  /**
    After every commit of status canceled the order, if it was reserved, has had a release
    asked for when the committing call is a Cancel that first read it reserved or paid;
    for every other committing call, exactly when reserved was never stored and no Start
    stands or gave up between its reservation and the save of it, or some call with a
    reason to release is past it.
   */
  lemma CanceledIsReleasedWhen(actions: seq<Action>, t: nat, r: Reply)
    requires Cancels(Run(EMPTY, actions), t, r)
    ensures var w, n := Run(EMPTY, actions), NotesOf(EMPTY, BLANK, actions);
            var th, w' := w.threads[t], Next(w, Act(t, r));
            && th.Working?
            && (th.request.Cancel? && OwesRelease(th.seen) ==> GivenUp(w'.calls))
            && (!(th.request.Cancel? && OwesRelease(th.seen)) ==>
                  (GivenUp(w'.calls) <==> NeverReserved(w, n) || ReleaseMade(w, n)))
  {
    var w := Run(EMPTY, actions);
    var th := w.threads[t];
    CommitShape(w, t, r);
    ReleasedWhen(actions);
    if th.request.Cancel? && OwesRelease(th.seen) { ReaderReleased(actions, t); }
  }

  /** A Cancel that first read the order reserved or paid comes to its save only after its release. */
  lemma ReaderReleased(actions: seq<Action>, t: nat)
    requires var w := Run(EMPTY, actions);
             && w.hist != [] && t in w.threads && w.threads[t].Working? && w.threads[t].at.Saving?
             && w.threads[t].request.Cancel? && OwesRelease(w.threads[t].seen)
    ensures GivenUp(Run(EMPTY, actions).calls)
  {
    var w := Run(EMPTY, actions);
    RunCancels(EMPTY, actions);
    var i :| 0 <= i < |w.calls| && IsRelease(w.calls[i], t);
    assert w.calls[i].ReleaseCall?;
  }

  /** A commit calls nobody and leaves the first value of the history. */
  lemma CommitShape(w: World, t: nat, r: Reply)
    requires t in w.threads && Step(t, w.threads[t], w.hist, r).stored != []
    ensures var th, w' := w.threads[t], Next(w, Act(t, r));
            && th.Working? && th.at.Saving? && w.hist != [] && w'.hist != [] && w'.hist[0] == w.hist[0]
            && w'.calls == w.calls && Current(w'.hist).status == th.at.up.target
            && Step(t, th, w.hist, r).stored[0].status == th.at.up.target
  {
    assert w.calls + [] == w.calls;
  }

  /** A Cancel that first read the order paid comes to its save only with its refund answered without error. */
  lemma PaidReaderIsAnswered(actions: seq<Action>, t: nat)
    requires var w := Run(EMPTY, actions);
             w.hist != [] && t in w.threads && ReadPaid(w.threads[t]) && w.threads[t].at.Saving?
    ensures var w := Run(EMPTY, actions); FullyRefunded(w.calls, t, w.hist[0])
  {
    RunCancels(EMPTY, actions);
  }

  /** If that answer was not left unreported, it was reported refunded. */
  lemma ReportedIsRepaid(actions: seq<Action>, t: nat)
    requires var w := Run(EMPTY, actions);
             w.hist != [] && t in w.threads && ReadPaid(w.threads[t]) && w.threads[t].at.Saving?
    ensures var w, n := Run(EMPTY, actions), NotesOf(EMPTY, BLANK, actions);
            Count(n.answers, UnreportedTo(t)) == 0 ==> Repaid(w.calls, w.hist[0])
  {
    NothingBooked();
    RunReplied(EMPTY, BLANK, actions);
    var w, n := Run(EMPTY, actions), NotesOf(EMPTY, BLANK, actions);
    var m := Amount(w.hist);
    CountPositive(w.calls, ReportedTo(t, m));
    if Count(n.answers, UnreportedTo(t)) == 0 {
      assert RepliedTo(w, n, t) && PastRefund(w.threads[t]);
      assert Count(w.calls, ReportedTo(t, m)) == 1;
      var i :| 0 <= i < |w.calls| && ReportedTo(t, m)(w.calls[i]);
      assert Repayment(w.calls[i], w.hist[0]);
    }
  }

  // ------------------------------------------------------- what a call saw was stored

  ghost predicate Stored(hist: seq<Order>, s: OrderStatus) {
    exists v :: 0 <= v < |hist| && hist[v].status == s
  }

  ghost predicate SeenStored(w: World) {
    forall t | t in w.threads && w.threads[t].Working? :: Stored(w.hist, w.threads[t].seen)
  }

  lemma StoredLonger(hist: seq<Order>, more: seq<Order>, s: OrderStatus)
    requires Stored(hist, s)
    ensures Stored(hist + more, s)
  {
    var v :| 0 <= v < |hist| && hist[v].status == s;
    assert (hist + more)[v].status == s;
  }

  /** A step keeps what its call saw, or takes it from the store. */
  lemma StepSeen(t: nat, th: Thread, hist: seq<Order>, r: Reply)
    ensures var th' := Step(t, th, hist, r).thread;
            th'.Working? ==> if th.Working? then th'.seen == th.seen else hist != [] && th'.seen == Current(hist).status
  {
  }

  lemma ActSeen(w: World, t: nat, r: Reply)
    requires SeenStored(w) && t in w.threads
    ensures SeenStored(Apply(w, t, Step(t, w.threads[t], w.hist, r)))
  {
    var e := Step(t, w.threads[t], w.hist, r);
    var w' := Apply(w, t, e);
    StepSeen(t, w.threads[t], w.hist, r);
    forall u | u in w'.threads && w'.threads[u].Working? ensures Stored(w'.hist, w'.threads[u].seen) {
      if u == t && !w.threads[t].Working? {
        assert w.hist[|w.hist| - 1].status == e.thread.seen;
      }
      StoredLonger(w.hist, e.stored, w'.threads[u].seen);
    }
  }

  lemma {:induction false} RunSeen(w: World, actions: seq<Action>)
    requires SeenStored(w) && (w.hist == [] ==> forall t | t in w.threads :: !w.threads[t].Working?)
    requires Safe(w)
    ensures SeenStored(Run(w, actions))
    decreases |actions|
  {
    if actions != [] {
      var a := actions[0];
      NextSafe(w, a);
      if a.Act? && a.thread in w.threads { ActSeen(w, a.thread, a.reply); }
      RunSeen(Next(w, a), actions[1..]);
    }
  }

  /** So a Cancel that read the order paid finds a payment that went through. */
  lemma PaidReaderFoundPayment(actions: seq<Action>, t: nat)
    requires var w := Run(EMPTY, actions); w.hist != [] && t in w.threads && ReadPaid(w.threads[t])
    ensures !NeverPaid(Run(EMPTY, actions), NotesOf(EMPTY, BLANK, actions))
  {
    var w, n := Run(EMPTY, actions), NotesOf(EMPTY, BLANK, actions);
    NothingBooked();
    RunBooked(EMPTY, BLANK, actions);
    RunSeen(EMPTY, actions);
    var v :| 0 <= v < |w.hist| && w.hist[v].status == w.threads[t].seen;
    assert Evidence(w.calls, w.hist[0], w.hist[v].status);
    TookIsPaid(w, n);
  }

  // ------------------------------------------------------------------------ bad runs

  lemma Do(w: World, t: nat, r: Reply) returns (w': World)
    requires Reachable(w)
    ensures w' == Next(w, Act(t, r)) && Reachable(w')
  {
    Reach(w, Act(t, r));
    w' := Next(w, Act(t, r));
  }

  lemma BothReading(o: Order, second: Request) returns (w: World)
    requires NewOrder(o)
    ensures Reachable(w) && w == World([o], [], [], [], map[0 := Reading(Start), 1 := Reading(second)])
  {
    assert Run(EMPTY, []) == EMPTY;
    Reach(EMPTY, Create(o));
    w := Next(EMPTY, Create(o));
    Reach(w, Spawn(0, Start));
    w := Next(w, Spawn(0, Start));
    Reach(w, Spawn(1, second));
    w := Next(w, Spawn(1, second));
    assert w.threads == map[0 := Reading(Start), 1 := Reading(second)];
  }

  function PaidCall(o: Order): Call { PayCall(0, o.amountMinor, o.currency, true, Captured) }

  lemma ReservedIsRead(o: Order, second: Request) returns (w: World)
    requires NewOrder(o)
    ensures Reachable(w)
    ensures var res := Restamped(o, Reserved);
            && w.hist == [o, res] && w.saves == [SaveTry(0, 1, true)] && w.calls == [ReserveCall(0, true)]
            && w.threads == map[0 := Working(Start, Pending, res, 1, EmittingStatus(Update(Reserved, 0, ThenPay))),
                                1 := Dispatch(second, res)]
  {
    w := BothReading(o, second);
    w := StartUntilReserved(o, w);
    w := Do(w, 1, YES);
  }

  /** Start has its payment and has not stored it; the second call has read the order reserved. */
  lemma PaymentInFlight(o: Order, second: Request) returns (w: World)
    requires NewOrder(o)
    ensures Reachable(w)
    ensures var res := Restamped(o, Reserved);
            && w.hist == [o, res] && w.saves == [SaveTry(0, 1, true)] && w.calls == [ReserveCall(0, true), PaidCall(o)]
            && w.threads == map[0 := Working(Start, Pending, res, 2, Saving(Update(Paid, 0, ThenConfirm))),
               1 := Dispatch(second, res)]
  {
    var res := Restamped(o, Reserved);
    w := ReservedIsRead(o, second);
    w := Do(w, 0, YES);
    assert w.threads[0] == Working(Start, Pending, res, 1, Paying);
    w := Do(w, 0, YES);
    assert w.threads[0] == Working(Start, Pending, res, 2, Saving(Update(Paid, 0, ThenConfirm)));
  }

  /** The Cancel that read the order reserved cancels it at its first attempt. */
  lemma CancelFirst(o: Order) returns (w: World)
    requires NewOrder(o)
    ensures Reachable(w)
    ensures var res := Restamped(o, Reserved);
            && w.hist == [o, res, Restamped(res, Canceled)]
               && w.calls == [ReserveCall(0, true), PaidCall(o), ReleaseCall(1, true)]
            && w.threads == map[0 := Working(Start, Pending, res, 2, Saving(Update(Paid, 0, ThenConfirm))),
               1 := Finished]
  {
    var res := Restamped(o, Reserved);
    w := PaymentInFlight(o, Cancel);
    w := Do(w, 1, YES);
    assert w.threads[1] == Working(Cancel, Reserved, res, 1, Saving(Update(Canceled, 0, ThenEmit(OrderCanceled))));
    w := Do(w, 1, YES);
    assert w.hist == [o, res, Restamped(res, Canceled)];
    w := Do(w, 1, YES);
    assert w.threads[1].at == EmittingOutcome(OrderCanceled);
    w := Do(w, 1, YES);
  }

  /**
    A payment in flight is kept, on every new order: Start has paid, a Cancel that read
    the order reserved commits at its first attempt, and Start then stops at the canceled
    order.  Every call has finished and no refund was ever asked for.
   */
  lemma PaymentInFlightIsKept(o: Order) returns (w: World)
    requires NewOrder(o)
    ensures Reachable(w) && w.hist != [] && w.hist[0] == o && Current(w.hist).status == Canceled
    ensures forall t | t in w.threads :: w.threads[t].Finished?
    ensures !Repaid(w.calls, o) && forall i | 0 <= i < |w.calls| :: !w.calls[i].RefundCall?
  {
    w := CancelFirst(o);
    w := Do(w, 0, YES);
    assert w.threads[0].at == Reloading(Update(Paid, 0, ThenConfirm));
    w := Do(w, 0, YES);
    w := Do(w, 0, YES);
    assert w.threads == map[0 := Finished, 1 := Finished];
    assert GoodPay(w.calls[1], o);
  }

  const DECLINED := Reply(true, PaymentFailed, 0)

  /** The second Start is declined after the first has stored its payment. */
  lemma SecondDeclined(o: Order) returns (w: World)
    requires NewOrder(o)
    ensures Reachable(w)
    ensures var res := Restamped(o, Reserved);
            && w.hist == [o, res, Restamped(res, Paid)]
            && w.calls == [ReserveCall(0, true), PaidCall(o),
               PayCall(1, o.amountMinor, o.currency, true, PaymentFailed), ReleaseCall(1, true)]
            && w.threads.Keys == {0, 1}
            && w.threads[0]
               == Working(Start, Pending, Restamped(res, Paid), 2, EmittingStatus(Update(Paid, 0, ThenConfirm)))
            && w.threads[1] == Working(Start, Reserved, res, 1, Saving(Update(Canceled, 0, ThenEmit(SagaFailed))))
  {
    var res := Restamped(o, Reserved);
    w := PaymentInFlight(o, Start);
    w := Do(w, 0, YES);
    assert w.hist == [o, res, Restamped(res, Paid)];
    w := Do(w, 1, DECLINED);
    assert w.threads[1] == Working(Start, Reserved, res, 0, ReleasingAfterFailure);
    w := Do(w, 1, YES);
  }

  /** The second Start stores the paid order as canceled. */
  lemma SecondCancels(o: Order) returns (w: World)
    requires NewOrder(o)
    ensures Reachable(w)
    ensures var paid := Restamped(Restamped(o, Reserved), Paid); var gone := Restamped(paid, Canceled);
            && w.hist == [o, Restamped(o, Reserved), paid, gone] && w.threads.Keys == {0, 1}
            && w.threads[0] == Working(Start, Pending, paid, 2, EmittingStatus(Update(Paid, 0, ThenConfirm)))
            && w.threads[1]
               == Working(Start, Reserved, gone, 1, EmittingStatus(Update(Canceled, 1, ThenEmit(SagaFailed))))
            && w.calls == [ReserveCall(0, true), PaidCall(o),
                           PayCall(1, o.amountMinor, o.currency, true, PaymentFailed), ReleaseCall(1, true)]
  {
    w := SecondDeclined(o);
    w := Do(w, 1, YES);
    assert w.threads[1].at == Reloading(Update(Canceled, 0, ThenEmit(SagaFailed)));
    w := Do(w, 1, YES);
    w := Do(w, 1, YES);
  }

  /** A further step of a run in which nobody new arrives. */
  lemma Further(w: World, rest: seq<Action>, w': World, t: nat) returns (rest': seq<Action>, w'': World)
    requires w' == Run(w, rest) && forall i | 0 <= i < |rest| :: rest[i].Act?
    ensures w'' == Next(w', Act(t, YES)) && w'' == Run(w, rest') && forall i | 0 <= i < |rest'| :: rest'[i].Act?
  {
    rest', w'' := rest + [Act(t, YES)], Next(w', Act(t, YES));
    RunAppend(w, rest, Act(t, YES));
  }

  /** A call that has stored canceled announces it and is finished. */
  lemma AnnouncesCanceled(w: World, t: nat) returns (rest: seq<Action>, w': World)
    requires t in w.threads && w.threads[t].Working?
    requires w.threads[t].at.EmittingStatus? && w.threads[t].at.up.next.ThenEmit?
    ensures w' == Run(w, rest) && forall i | 0 <= i < |rest| :: rest[i].Act?
    ensures w'.hist == w.hist && w'.calls == w.calls && w'.threads == w.threads[t := Finished]
  {
    rest, w' := [], w;
    rest, w' := Further(w, rest, w', t);
    assert w'.threads[t].at.EmittingOutcome?;
    rest, w' := Further(w, rest, w', t);
  }

  /** A Start that has stored paid finds the order canceled and stops. */
  lemma StopsAtCanceled(w: World, t: nat) returns (rest: seq<Action>, w': World)
    requires t in w.threads && w.threads[t].Working? && w.threads[t].order.status == Paid
    requires w.threads[t].at == EmittingStatus(Update(Paid, 0, ThenConfirm))
    requires w.hist != [] && Current(w.hist).status == Canceled && Current(w.hist).version != w.threads[t].order.version
    ensures w' == Run(w, rest) && forall i | 0 <= i < |rest| :: rest[i].Act?
    ensures w'.hist == w.hist && w'.calls == w.calls && w'.threads == w.threads[t := Finished]
  {
    rest, w' := [], w;
    rest, w' := Further(w, rest, w', t);
    assert w'.threads[t].at == Saving(Update(Confirmed, 0, ThenReturn));
    rest, w' := Further(w, rest, w', t);
    assert w'.threads[t].at == Reloading(Update(Confirmed, 0, ThenReturn));
    rest, w' := Further(w, rest, w', t);
    rest, w' := Further(w, rest, w', t);
  }

  lemma {:induction false} RunOn(w: World, a: seq<Action>, b: seq<Action>)
    ensures Run(w, a + b) == Run(Run(w, a), b)
    decreases |b|
  {
    if b == [] {
      assert a + b == a;
    } else {
      var n := |b| - 1;
      RunOn(w, a, b[..n]);
      RunAppend(w, a + b[..n], b[n]);
      RunAppend(Run(w, a), b[..n], b[n]);
      assert a + b == a + b[..n] + [b[n]] && b == b[..n] + [b[n]];
    }
  }

  /**
    No Cancel is needed, on every new order: with two Starts at work and nobody else, the
    second, whose payment is declined, reloads the paid order and stores it as canceled;
    the history went forward only.  Without anybody new arriving both then finish, and no
    refund was ever asked for.
   */
  lemma FailingStartKeepsMoney(o: Order) returns (w: World, rest: seq<Action>, w': World)
    requires NewOrder(o)
    ensures Reachable(w) && forall t | t in w.threads :: w.threads[t].Working? && w.threads[t].request == Start
    ensures w' == Run(w, rest) && forall i | 0 <= i < |rest| :: rest[i].Act?
    ensures forall t | t in w'.threads :: w'.threads[t].Finished?
    ensures w'.hist != [] && w'.hist[0] == o && Current(w'.hist).status == Canceled && GoesForward(w'.hist)
    ensures !Repaid(w'.calls, o) && forall i | 0 <= i < |w'.calls| :: !w'.calls[i].RefundCall?
  {
    w := SecondCancels(o);
    var first, mid := AnnouncesCanceled(w, 1);
    var second;
    second, w' := StopsAtCanceled(mid, 0);
    rest := first + second;
    RunOn(w, first, second);
    assert GoodPay(w'.calls[1], o);
  }

  /** Start runs to its end before the Cancel has taken a step. */
  lemma StartConfirms(o: Order) returns (w: World)
    requires NewOrder(o)
    ensures Reachable(w)
    ensures var paid := Restamped(Restamped(o, Reserved), Paid);
            && w.hist == [o, Restamped(o, Reserved), paid, Restamped(paid, Confirmed)]
            && w.calls == [ReserveCall(0, true), PaidCall(o)]
            && w.threads == map[0 := Finished, 1 := Reading(Cancel)]
  {
    var paid := Restamped(Restamped(o, Reserved), Paid);
    w := BothReading(o, Cancel);
    w := StartUntilPaid(o, w);
    w := Do(w, 0, YES);
    assert w.threads[0] == Working(Start, Pending, paid, 3, Saving(Update(Confirmed, 0, ThenReturn)));
    w := Do(w, 0, YES);
    assert w.hist == [o, Restamped(o, Reserved), paid, Restamped(paid, Confirmed)];
    w := Do(w, 0, YES);
  }

  /** The Cancel's refund is answered without error, but not as refunded. */
  lemma RefundUnreported(o: Order) returns (w: World)
    requires NewOrder(o)
    ensures Reachable(w)
    ensures var done := Restamped(Restamped(Restamped(o, Reserved), Paid), Confirmed);
            && w.hist == [o, Restamped(o, Reserved), Restamped(Restamped(o, Reserved), Paid), done]
            && w.calls == [ReserveCall(0, true), PaidCall(o), ReleaseCall(1, true),
                           RefundCall(1, o.amountMinor, o.currency, true, PaymentFailed)]
            && w.threads == map[0 := Finished,
                                1 := Working(Cancel, Confirmed, done, 1,
                                             Saving(Update(Canceled, 0, ThenEmit(OrderCanceled))))]
  {
    w := StartConfirms(o);
    w := Do(w, 1, YES);
    assert w.threads[1].at == ReleasingForCancel;
    w := Do(w, 1, YES);
    assert w.threads[1].at == RefundingForCancel;
    w := Do(w, 1, DECLINED);
  }

  /**
    Calls need not even overlap, on every new order: a Cancel after a finished Start takes
    an answer without error for a refund, whatever status it reports.  Every call has
    finished, the order is canceled and paid, and no refund was reported.
   */
  lemma UnreportedRefundKeepsMoney(o: Order) returns (w: World)
    requires NewOrder(o)
    ensures Reachable(w) && w.hist != [] && w.hist[0] == o && Current(w.hist).status == Canceled
    ensures forall t | t in w.threads :: w.threads[t].Finished?
    ensures !Repaid(w.calls, o)
  {
    w := RefundUnreported(o);
    w := Do(w, 1, YES);
    assert Current(w.hist).status == Canceled;
    w := Do(w, 1, YES);
    assert w.threads[1].at == EmittingOutcome(OrderCanceled);
    w := Do(w, 1, YES);
    assert w.threads == map[0 := Finished, 1 := Finished];
    assert GoodPay(w.calls[1], o);
  }

  /** Start has its reservation and has not stored it. */
  lemma ReservationInFlight(o: Order, w0: World) returns (w: World)
    requires NewOrder(o) && Reachable(w0) && w0.hist == [o] && w0.calls == []
    requires 0 in w0.threads && w0.threads[0] == Reading(Start)
    ensures Reachable(w) && w.hist == [o] && w.calls == [ReserveCall(0, true)]
    ensures w.threads == w0.threads[0 := Working(Start, Pending, o, 1, Saving(Update(Reserved, 0, ThenPay)))]
  {
    w := Do(w0, 0, YES);
    assert w.threads[0] == Working(Start, Pending, o, 0, Reserving);
    w := Do(w, 0, YES);
  }

  /** The Cancel that read the order pending cancels it while Start has its reservation unsaved. */
  lemma CancelBeforeReserved(o: Order) returns (w: World)
    requires NewOrder(o)
    ensures Reachable(w)
    ensures w.hist == [o, Restamped(o, Canceled)] && w.calls == [ReserveCall(0, true)]
    ensures w.threads == map[0 := Working(Start, Pending, o, 1, Saving(Update(Reserved, 0, ThenPay))), 1 := Finished]
  {
    w := BothStarted(o, Cancel);
    w := ReservationInFlight(o, w);
    w := Do(w, 1, YES);
    assert w.hist == [o, Restamped(o, Canceled)];
    w := Do(w, 1, YES);
    assert w.threads[1].at == EmittingOutcome(OrderCanceled);
    w := Do(w, 1, YES);
  }

  /**
    A reservation in flight is kept, on every new order: Start has reserved, a Cancel that
    read the order pending commits at its first attempt, and Start then stops at the
    canceled order.  Every call has finished and no release was ever asked for.
   */
  lemma ReservationInFlightIsKept(o: Order) returns (w: World)
    requires NewOrder(o)
    ensures Reachable(w) && w.hist != [] && w.hist[0] == o && Current(w.hist).status == Canceled
    ensures forall t | t in w.threads :: w.threads[t].Finished?
    ensures !GivenUp(w.calls)
  {
    w := CancelBeforeReserved(o);
    w := Do(w, 0, YES);
    assert w.threads[0].at == Reloading(Update(Reserved, 0, ThenPay));
    w := Do(w, 0, YES);
    w := Do(w, 0, YES);
    assert w.threads == map[0 := Finished, 1 := Finished];
    assert GoodReserve(w.calls[0]);
  }

  /** Two payments go through although no save was ever rejected, on every new order. */
  lemma PaidTwiceWithoutConflict(o: Order) returns (w: World)
    requires NewOrder(o)
    ensures Reachable(w) && w.hist != [] && w.hist[0] == o
    ensures forall i | 0 <= i < |w.saves| :: w.saves[i].ok
    ensures exists i, j :: 0 <= i < j < |w.calls| && GoodPay(w.calls[i], o) && GoodPay(w.calls[j], o)
  {
    w := PaymentInFlight(o, Start);
    assert w.threads[1].at == Paying;
    w := Do(w, 1, YES);
    assert GoodPay(w.calls[1], o) && GoodPay(w.calls[2], o);
  }
}
