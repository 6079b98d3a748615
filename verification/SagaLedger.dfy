/**
  Where the money of an order is, on every interleaving.  Payments are accounted for by
  what Starts read and stored, refunds by what Cancels and Refunds read.
 */
module SagaLedger {
  import opened Common
  import opened Orders
  import opened SagaProtocol
  import opened SagaSafety
  import opened SagaTrace
  import opened SagaStages

  // ---------------------------------------------------------------- what is counted

  function Is(s: OrderStatus): Order -> bool { (o: Order) => o.status == s }

  function IsPay(): Call -> bool { (c: Call) => c.PayCall? }

  function PayBy(t: nat): Call -> bool { (c: Call) => c.PayCall? && c.caller == t }

  /** A payment that went through. */
  function Took(): Call -> bool {
    (c: Call) => c.PayCall? && c.ok && (c.status.Captured? || c.status.Authorized?)
  }

  /** A refund of the whole amount that was reported refunded. */
  function GaveBack(amount: int): Call -> bool {
    (c: Call) => c.RefundCall? && c.ok && c.status.PaymentRefunded? && c.amount == amount
  }

  function Refused(amount: int): Answer -> bool { (a: Answer) => a.amount == amount && !a.ok }

  /** Answered without error, but not as refunded. */
  function Unreported(amount: int): Answer -> bool { (a: Answer) => a.amount == amount && a.ok && !a.reported }

  /** A Start that has come to its payment and not yet asked for it. */
  function Due(): Thread -> bool {
    (th: Thread) => th.Working? && (th.at.Paying? || (th.at.EmittingStatus? && th.at.up.next.ThenPay?))
  }

  function Unstored(): Thread -> bool { (th: Thread) => SavingPaid(th) }

  /** A call that has yet to ask for the refund of the whole amount. */
  function Owing(amount: int): Thread -> bool {
    (th: Thread) => th.Working? && (
                      || (th.at.ReleasingForCancel? && PaidFor(th.order.status)) || th.at.RefundingForCancel?
                      || (th.at.Refunding? && th.at.amount == amount))
  }

  /** A Start that has read a new order and not yet stored it as reserved. */
  function Reserves(): Thread -> bool {
    (th: Thread) => th.Working? && (
                      || th.at.Reserving?
                      || ((th.at.Saving? || th.at.Reloading?) && th.at.up.target.Reserved?))
  }

  function StartOnPending(): Read -> bool { (r: Read) => r.request.Start? && r.status.Pending? }

  function StartOnReserved(): Read -> bool { (r: Read) => r.request.Start? && r.status.Reserved? }

  /** A call that refunds the whole amount because of what it read. */
  function FullRefunder(amount: int): Read -> bool {
    (r: Read) => PaidFor(r.status)
                 && (r.request.Cancel? || (r.request.Refund? && (r.request.amount <= 0 || r.request.amount >= amount)))
  }

  // ------------------------------------------------------------------------ one step

  /** Payments: asked for, or due, for every Start that read reserved and every reserved stored. */
  lemma StepPays(t: nat, th: Thread, hist: seq<Order>, r: Reply)
    requires Stage(th)
    ensures var e, read := Step(t, th, hist, r), NewReads(t, th, hist, r);
            && |e.called| <= 1 && |e.stored| <= 1
            && (if e.called == [] then 0 else Bit(IsPay()(e.called[0]))) + Bit(Due()(e.thread))
               == Bit(Due()(th)) + (if read == [] then 0 else Bit(StartOnReserved()(read[0])))
                  + (if e.stored == [] then 0 else Bit(Is(Reserved)(e.stored[0])))
  {
    if th.Working? && th.at.EmittingStatus? && th.at.up.next.ThenConfirm? { EnterStage(th, Confirmed, ThenReturn); }
  }

  /** Reserved is stored at most once by each Start that read a new order. */
  lemma StepReserves(t: nat, th: Thread, hist: seq<Order>, r: Reply)
    requires Stage(th)
    ensures var e, read := Step(t, th, hist, r), NewReads(t, th, hist, r);
            (if e.stored == [] then 0 else Bit(Is(Reserved)(e.stored[0]))) + Bit(Reserves()(e.thread))
            <= Bit(Reserves()(th)) + (if read == [] then 0 else Bit(StartOnPending()(read[0])))
  {
    if th.Working? && th.at.EmittingStatus? && th.at.up.next.ThenConfirm? { EnterStage(th, Confirmed, ThenReturn); }
  }

  /** Payments that went through: stored as paid, still to be stored, or given up on. */
  lemma StepTook(t: nat, th: Thread, hist: seq<Order>, r: Reply)
    requires Stage(th)
    ensures var e := Step(t, th, hist, r);
            (if e.called == [] then 0 else Bit(Took()(e.called[0]))) + Bit(Unstored()(th))
            == Bit(Unstored()(e.thread)) + (if e.stored == [] then 0 else Bit(Is(Paid)(e.stored[0])))
               + Bit(SavingPaid(th) && e.thread.Finished?)
  {
    if th.Working? && th.at.EmittingStatus? && th.at.up.next.ThenConfirm? { EnterStage(th, Confirmed, ThenReturn); }
  }

  /** Refunds of the whole amount: reported, owed, refused or unreported, for every call that read a reason for one. */
  lemma StepGaveBack(t: nat, th: Thread, hist: seq<Order>, r: Reply, amount: int)
    requires Stage(th) && (th.Working? && !th.at.Reloading? ==> th.order.amountMinor == amount)
    requires hist != [] ==> Current(hist).amountMinor == amount
    ensures var e, read, answer := Step(t, th, hist, r), NewReads(t, th, hist, r), NewAnswers(t, th, r);
            (if e.called == [] then 0 else Bit(GaveBack(amount)(e.called[0]))) + Bit(Owing(amount)(e.thread))
            + (if answer == [] then 0 else Bit(Refused(amount)(answer[0])) + Bit(Unreported(amount)(answer[0])))
            == Bit(Owing(amount)(th)) + (if read == [] then 0 else Bit(FullRefunder(amount)(read[0])))
  {
    if th.Working? && th.at.EmittingStatus? && th.at.up.next.ThenConfirm? { EnterStage(th, Confirmed, ThenReturn); }
  }

  // ---------------------------------------------------------------------- whole runs

  function Amount(hist: seq<Order>): int {
    if hist == [] then 0 else hist[0].amountMinor
  }

  ghost predicate PaysCounted(w: World, n: Notes) {
    Count(w.calls, IsPay()) + |Standing(w.threads, Due())|
    == Count(n.firstReads, StartOnReserved()) + Count(w.hist, Is(Reserved))
  }

  /** A Start reads reserved only after it was stored, and stores it only after reading a new order. */
  ghost predicate ReservedCounted(w: World, n: Notes) {
    && (Count(n.firstReads, StartOnReserved()) > 0 ==> Count(w.hist, Is(Reserved)) > 0)
    && Count(w.hist, Is(Reserved)) + |Standing(w.threads, Reserves())| <= Count(n.firstReads, StartOnPending())
  }

  ghost predicate TookCounted(w: World, n: Notes) {
    Count(w.calls, Took()) == Count(w.hist, Is(Paid)) + |Standing(w.threads, Unstored())| + |n.unpaid|
  }

  ghost predicate BackCounted(w: World, n: Notes) {
    var m := Amount(w.hist);
    Count(w.calls, GaveBack(m)) + |Standing(w.threads, Owing(m))|
    + Count(n.answers, Refused(m)) + Count(n.answers, Unreported(m))
    == Count(n.firstReads, FullRefunder(m))
  }

  /** Payments are always of the order's amount and currency. */
  ghost predicate Priced(w: World) {
    forall i | 0 <= i < |w.calls| && w.calls[i].PayCall? ::
      w.hist != [] && w.calls[i].amount == w.hist[0].amountMinor && w.calls[i].currency == w.hist[0].currency
  }

  ghost predicate Booked(w: World, n: Notes) {
    && (w.hist == [] ==> w.calls == [] && n == BLANK)
    && PaysCounted(w, n) && ReservedCounted(w, n) && TookCounted(w, n) && BackCounted(w, n) && Priced(w)
  }

  lemma ActPays(w: World, n: Notes, t: nat, r: Reply)
    requires t in w.threads && Stage(w.threads[t]) && PaysCounted(w, n)
    ensures PaysCounted(Apply(w, t, Step(t, w.threads[t], w.hist, r)), Observe(n, t, w.threads[t], w.hist, r))
  {
    var e, read := Step(t, w.threads[t], w.hist, r), NewReads(t, w.threads[t], w.hist, r);
    StepPays(t, w.threads[t], w.hist, r);
    CountMore(w.calls, e.called, IsPay());
    CountMore(w.hist, e.stored, Is(Reserved));
    CountMore(n.firstReads, read, StartOnReserved());
    StandingUpdate(w.threads, t, e.thread, Due());
  }

  lemma ActReserves(w: World, n: Notes, t: nat, r: Reply)
    requires t in w.threads && Stage(w.threads[t]) && ReservedCounted(w, n)
    ensures ReservedCounted(Apply(w, t, Step(t, w.threads[t], w.hist, r)), Observe(n, t, w.threads[t], w.hist, r))
  {
    var e, read := Step(t, w.threads[t], w.hist, r), NewReads(t, w.threads[t], w.hist, r);
    StepPays(t, w.threads[t], w.hist, r);
    StepReserves(t, w.threads[t], w.hist, r);
    CountMore(w.hist, e.stored, Is(Reserved));
    CountMore(n.firstReads, read, StartOnReserved());
    CountMore(n.firstReads, read, StartOnPending());
    StandingUpdate(w.threads, t, e.thread, Reserves());
    CountPositive(w.hist, Is(Reserved));
    if read != [] && StartOnReserved()(read[0]) {
      assert Is(Reserved)(w.hist[|w.hist| - 1]);
    }
  }

  lemma ActTook(w: World, n: Notes, t: nat, r: Reply)
    requires t in w.threads && Stage(w.threads[t]) && TookCounted(w, n)
    ensures TookCounted(Apply(w, t, Step(t, w.threads[t], w.hist, r)), Observe(n, t, w.threads[t], w.hist, r))
  {
    var e := Step(t, w.threads[t], w.hist, r);
    StepPays(t, w.threads[t], w.hist, r);
    StepTook(t, w.threads[t], w.hist, r);
    CountMore(w.calls, e.called, Took());
    CountMore(w.hist, e.stored, Is(Paid));
    StandingUpdate(w.threads, t, e.thread, Unstored());
  }

  lemma ActBack(w: World, n: Notes, t: nat, r: Reply)
    requires Safe(w) && t in w.threads && Stage(w.threads[t]) && BackCounted(w, n)
    ensures BackCounted(Apply(w, t, Step(t, w.threads[t], w.hist, r)), Observe(n, t, w.threads[t], w.hist, r))
  {
    var th, m := w.threads[t], Amount(w.hist);
    var e, read, answer := Step(t, th, w.hist, r), NewReads(t, th, w.hist, r), NewAnswers(t, th, r);
    assert th.Working? && !th.at.Reloading? ==> SameContents(th.order, w.hist[0]);
    StepPays(t, th, w.hist, r);
    StepGaveBack(t, th, w.hist, r, m);
    CountMore(w.calls, e.called, GaveBack(m));
    CountMore(n.firstReads, read, FullRefunder(m));
    CountMore(n.answers, answer, Refused(m));
    CountMore(n.answers, answer, Unreported(m));
    StandingUpdate(w.threads, t, e.thread, Owing(m));
    assert Amount(w.hist + e.stored) == m;
  }

  lemma ActPriced(w: World, t: nat, r: Reply)
    requires Safe(w) && t in w.threads && Priced(w)
    ensures Priced(Apply(w, t, Step(t, w.threads[t], w.hist, r)))
  {
    var th, e := w.threads[t], Step(t, w.threads[t], w.hist, r);
    var w' := Apply(w, t, e);
    assert th.Working? && !th.at.Reloading? ==> SameContents(th.order, w.hist[0]);
    forall i | 0 <= i < |w'.calls| && w'.calls[i].PayCall?
      ensures w'.hist != [] && w'.calls[i].amount == w'.hist[0].amountMinor
      ensures w'.calls[i].currency == w'.hist[0].currency
    {
      assert if i < |w.calls| then w'.calls[i] == w.calls[i] else w'.calls[i] == e.called[i - |w.calls|];
    }
  }

  lemma NextBooked(w: World, n: Notes, a: Action)
    requires Safe(w) && Staged(w, n) && Booked(w, n)
    ensures Booked(Next(w, a), Noted(w, n, a))
  {
    match a
    case Create(order) =>
      if w.hist == [] && NewOrder(order) { CreateBooked(w, n, order); }
    case Spawn(t, request) =>
      if t !in w.threads { SpawnBooked(w, n, t, request); }
    case Act(t, r) =>
      if t in w.threads {
        ActPays(w, n, t, r);
        ActReserves(w, n, t, r);
        ActTook(w, n, t, r);
        ActBack(w, n, t, r);
        ActPriced(w, t, r);
      }
  }

  lemma CreateBooked(w: World, n: Notes, order: Order)
    requires Safe(w) && Booked(w, n) && w.hist == [] && NewOrder(order)
    ensures Booked(w.(hist := [order]), n)
  {
    var m := order.amountMinor;
    assert Standing(w.threads, Due()) == {} && Standing(w.threads, Unstored()) == {};
    assert Standing(w.threads, Owing(m)) == {} && Standing(w.threads, Reserves()) == {};
    assert Count([order], Is(Reserved)) == 0 && Count([order], Is(Paid)) == 0 by {
      CountMore([], [order], Is(Reserved));
      CountMore([], [order], Is(Paid));
      assert [] + [order] == [order];
    }
  }

  lemma SpawnBooked(w: World, n: Notes, t: nat, request: Request)
    requires Booked(w, n) && t !in w.threads
    ensures Booked(w.(threads := w.threads[t := Reading(request)]), n)
  {
    StandingUpdate(w.threads, t, Reading(request), Due());
    StandingUpdate(w.threads, t, Reading(request), Reserves());
    StandingUpdate(w.threads, t, Reading(request), Unstored());
    StandingUpdate(w.threads, t, Reading(request), Owing(Amount(w.hist)));
  }

  lemma {:induction false} RunBooked(w: World, n: Notes, actions: seq<Action>)
    requires Safe(w) && Staged(w, n) && Booked(w, n)
    ensures Safe(Run(w, actions))
    ensures Staged(Run(w, actions), NotesOf(w, n, actions)) && Booked(Run(w, actions), NotesOf(w, n, actions))
    decreases |actions|
  {
    if actions != [] {
      NextSafe(w, actions[0]);
      NextStaged(w, n, actions[0]);
      NextBooked(w, n, actions[0]);
      RunBooked(Next(w, actions[0]), Noted(w, n, actions[0]), actions[1..]);
    }
  }

  lemma NothingBooked()
    ensures Safe(EMPTY) && Staged(EMPTY, BLANK) && Booked(EMPTY, BLANK)
  {
    assert Standing(EMPTY.threads, Due()) == {} && Standing(EMPTY.threads, Unstored()) == {};
    assert Standing(EMPTY.threads, Owing(0)) == {} && Standing(EMPTY.threads, Reserves()) == {};
  }

  // ------------------------------------------------------------------------ payments

  /** The call has not asked for a payment yet. */
  predicate Unasked(th: Thread) {
    || th.Reading?
    || (th.Working? && (
          || th.at.Reserving? || th.at.Paying?
          || ((th.at.Saving? || th.at.Reloading? || th.at.EmittingStatus?) && th.at.up.next.ThenPay?)))
  }

  ghost predicate PaidOnce(w: World) {
    && (forall t | t in w.threads :: Count(w.calls, PayBy(t)) <= Bit(!Unasked(w.threads[t])))
    && (forall t | t !in w.threads :: Count(w.calls, PayBy(t)) == 0)
  }

  lemma StepAsks(t: nat, th: Thread, hist: seq<Order>, r: Reply)
    requires Stage(th)
    ensures var e := Step(t, th, hist, r);
            && |e.called| <= 1 && (Unasked(e.thread) ==> Unasked(th))
            && (e.called != [] && e.called[0].PayCall? ==> e.called[0].caller == t && Unasked(th) && !Unasked(e.thread))
  {
    if th.Working? && th.at.EmittingStatus? && th.at.up.next.ThenConfirm? { EnterStage(th, Confirmed, ThenReturn); }
  }

  lemma ActPaysOnce(w: World, t: nat, r: Reply)
    requires t in w.threads && Stage(w.threads[t]) && PaidOnce(w)
    ensures PaidOnce(Apply(w, t, Step(t, w.threads[t], w.hist, r)))
  {
    var e := Step(t, w.threads[t], w.hist, r);
    var w' := Apply(w, t, e);
    StepAsks(t, w.threads[t], w.hist, r);
    forall u: nat
      ensures Count(w'.calls, PayBy(u)) == Count(w.calls, PayBy(u))
              + (if e.called == [] then 0 else Bit(PayBy(u)(e.called[0])))
    {
      CountMore(w.calls, e.called, PayBy(u));
    }
  }

  lemma {:induction false} RunPaysOnce(w: World, n: Notes, actions: seq<Action>)
    requires Safe(w) && Staged(w, n) && PaidOnce(w)
    ensures PaidOnce(Run(w, actions))
    decreases |actions|
  {
    if actions != [] {
      var a := actions[0];
      NextSafe(w, a);
      NextStaged(w, n, a);
      if a.Act? && a.thread in w.threads { ActPaysOnce(w, a.thread, a.reply); }
      RunPaysOnce(Next(w, a), Noted(w, n, a), actions[1..]);
    }
  }

  /** On every interleaving each call asks for at most one payment. */
  lemma EachCallPaysOnce(actions: seq<Action>, t: nat)
    ensures Count(Run(EMPTY, actions).calls, PayBy(t)) <= 1
  {
    RunPaysOnce(EMPTY, BLANK, actions);
  }

  /**
    On every interleaving payments, asked for or due, are exactly as many as Starts that
    came to the payment: those that read the order reserved and those that stored it so.
    There is at most one exactly when no Start read reserved and reserved was stored at
    most once, and never more than Starts that read the order new or reserved.
   */
  lemma PaymentsAreCounted(actions: seq<Action>)
    ensures var w, n := Run(EMPTY, actions), NotesOf(EMPTY, BLANK, actions);
            var pays := Count(w.calls, IsPay()) + |Standing(w.threads, Due())|;
            && pays == Count(n.firstReads, StartOnReserved()) + Count(w.hist, Is(Reserved))
            && (pays <= 1 <==> Count(n.firstReads, StartOnReserved()) == 0 && Count(w.hist, Is(Reserved)) <= 1)
            && pays <= Count(n.firstReads, StartOnReserved()) + Count(n.firstReads, StartOnPending())
  {
    NothingBooked();
    RunBooked(EMPTY, BLANK, actions);
  }

  // -------------------------------------------------------------- paid and given back

  /** Only a refund that is reported refunded gives the money back. */
  predicate Repayment(c: Call, o: Order) {
    c.RefundCall? && c.ok && c.status.PaymentRefunded? && c.amount == o.amountMinor
  }

  /** If the order was ever paid, somebody's refund of the whole amount was reported refunded. */
  ghost predicate Repaid(calls: seq<Call>, o: Order) {
    (exists i :: 0 <= i < |calls| && GoodPay(calls[i], o)) ==> exists i :: 0 <= i < |calls| && Repayment(calls[i], o)
  }

  /** Paid was never stored, and no Start holds or gave up a payment that was not stored. */
  ghost predicate NeverPaid(w: World, n: Notes) {
    && (forall v | 0 <= v < |w.hist| :: !w.hist[v].status.Paid?)
    && (forall t | t in w.threads :: !SavingPaid(w.threads[t]))
    && n.unpaid == []
  }

  /**
    Of the calls that refund the whole amount because they read the order paid, some are
    past their refund and were neither refused nor answered as anything but refunded.
   */
  ghost predicate RefundWentThrough(w: World, n: Notes) {
    var m := Amount(w.hist);
    Count(n.firstReads, FullRefunder(m))
    > |Standing(w.threads, Owing(m))| + Count(n.answers, Refused(m)) + Count(n.answers, Unreported(m))
  }

  lemma TookIsPaid(w: World, n: Notes)
    requires w.hist != [] && TookCounted(w, n) && Priced(w)
    ensures NeverPaid(w, n) <==> !exists i :: 0 <= i < |w.calls| && GoodPay(w.calls[i], w.hist[0])
  {
    CountPositive(w.calls, Took());
    CountPositive(w.hist, Is(Paid));
    assert forall i | 0 <= i < |w.calls| :: Took()(w.calls[i]) <==> GoodPay(w.calls[i], w.hist[0]);
    assert forall v | 0 <= v < |w.hist| :: Is(Paid)(w.hist[v]) <==> w.hist[v].status.Paid?;
    var s := Standing(w.threads, Unstored());
    assert forall t | t in w.threads :: t in s <==> SavingPaid(w.threads[t]);
    assert |s| == 0 <==> s == {};
  }

  lemma BackIsRepaid(w: World, n: Notes)
    requires w.hist != [] && BackCounted(w, n)
    ensures RefundWentThrough(w, n) <==> exists i :: 0 <= i < |w.calls| && Repayment(w.calls[i], w.hist[0])
  {
    var m := Amount(w.hist);
    CountPositive(w.calls, GaveBack(m));
    assert forall i | 0 <= i < |w.calls| :: GaveBack(m)(w.calls[i]) <==> Repayment(w.calls[i], w.hist[0]);
  }

  /**
    On every interleaving a paid order has been refunded in full by somebody exactly when
    it was never paid at all or a call that read it paid had its refund reported.
   */
  lemma RepaidWhen(actions: seq<Action>)
    ensures var w, n := Run(EMPTY, actions), NotesOf(EMPTY, BLANK, actions);
            w.hist != [] ==> (Repaid(w.calls, w.hist[0]) <==> NeverPaid(w, n) || RefundWentThrough(w, n))
  {
    NothingBooked();
    RunBooked(EMPTY, BLANK, actions);
    var w, n := Run(EMPTY, actions), NotesOf(EMPTY, BLANK, actions);
    if w.hist != [] {
      TookIsPaid(w, n);
      BackIsRepaid(w, n);
    }
  }

  // ------------------------------------------------------- the reply a Cancel has had

  function ReportedTo(t: nat, amount: int): Call -> bool {
    (c: Call) => c.caller == t && c.RefundCall? && c.ok && c.status.PaymentRefunded? && c.amount == amount
  }

  function UnreportedTo(t: nat): Answer -> bool { (a: Answer) => a.caller == t && a.ok && !a.reported }

  /** A Cancel on its way to its refund. */
  predicate Unrefunded(th: Thread) {
    th.Reading? || (th.Working? && (th.at.ReleasingForCancel? || th.at.RefundingForCancel?))
  }

  /** A Cancel that read the order paid and is past its refund. */
  predicate PastRefund(th: Thread) {
    th.Working? && th.request.Cancel? && PaidFor(th.seen) && (th.at.Saving? || th.at.Reloading?)
  }

  /** A Cancel past its refund had exactly one answer to it, reported or unreported. */
  ghost predicate RepliedTo(w: World, n: Notes, t: nat) {
    var m := Amount(w.hist);
    && (t !in w.threads || Unrefunded(w.threads[t]) ==>
          Count(w.calls, ReportedTo(t, m)) == 0 == Count(n.answers, UnreportedTo(t)))
    && (t in w.threads && PastRefund(w.threads[t]) ==>
          Count(w.calls, ReportedTo(t, m)) + Count(n.answers, UnreportedTo(t)) == 1)
  }

  ghost predicate Replied(w: World, n: Notes) {
    forall t: nat :: RepliedTo(w, n, t)
  }

  lemma StepReplies(t: nat, th: Thread, hist: seq<Order>, r: Reply, amount: int)
    requires Stage(th) && (th.Working? && !th.at.Reloading? ==> th.order.amountMinor == amount)
    ensures var e, answer := Step(t, th, hist, r), NewAnswers(t, th, r);
            var got := (if e.called == [] then 0 else Bit(ReportedTo(t, amount)(e.called[0])))
                       + (if answer == [] then 0 else Bit(UnreportedTo(t)(answer[0])));
            && (Unrefunded(e.thread) ==> Unrefunded(th) && got == 0)
            && (PastRefund(e.thread) ==> if PastRefund(th) then got == 0 else Unrefunded(th) && got == 1)
  {
    if th.Working? && th.at.EmittingStatus? && th.at.up.next.ThenConfirm? { EnterStage(th, Confirmed, ThenReturn); }
  }

  lemma StepRepliesToNobodyElse(t: nat, th: Thread, hist: seq<Order>, r: Reply, u: nat, amount: int)
    requires u != t
    ensures var e, answer := Step(t, th, hist, r), NewAnswers(t, th, r);
            && |e.called| <= 1 && (e.called != [] ==> !ReportedTo(u, amount)(e.called[0]))
            && (answer != [] ==> !UnreportedTo(u)(answer[0]))
  {
  }

  lemma OwnReplied(w: World, n: Notes, t: nat, r: Reply)
    requires Safe(w) && t in w.threads && Stage(w.threads[t]) && RepliedTo(w, n, t)
    ensures RepliedTo(Apply(w, t, Step(t, w.threads[t], w.hist, r)), Observe(n, t, w.threads[t], w.hist, r), t)
  {
    var th, m := w.threads[t], Amount(w.hist);
    var e, answer := Step(t, th, w.hist, r), NewAnswers(t, th, r);
    assert th.Working? && !th.at.Reloading? ==> SameContents(th.order, w.hist[0]);
    StepPays(t, th, w.hist, r);
    StepReplies(t, th, w.hist, r, m);
    assert Amount(w.hist + e.stored) == m;
    CountMore(w.calls, e.called, ReportedTo(t, m));
    CountMore(n.answers, answer, UnreportedTo(t));
  }

  lemma OtherReplied(w: World, n: Notes, t: nat, r: Reply, u: nat)
    requires Safe(w) && t in w.threads && u != t && RepliedTo(w, n, u)
    ensures RepliedTo(Apply(w, t, Step(t, w.threads[t], w.hist, r)), Observe(n, t, w.threads[t], w.hist, r), u)
  {
    var th, e := w.threads[t], Step(t, w.threads[t], w.hist, r);
    StepRepliesToNobodyElse(t, th, w.hist, r, u, Amount(w.hist));
    assert Amount(w.hist + e.stored) == Amount(w.hist);
    StillReplied(w, n, Apply(w, t, e), Observe(n, t, th, w.hist, r), u, e.called, NewAnswers(t, th, r));
  }

  /** Calls and answers of others leave the replies to a call as they were. */
  lemma StillReplied(w: World, n: Notes, w': World, n': Notes, u: nat, called: seq<Call>, answer: seq<Answer>)
    requires RepliedTo(w, n, u) && Amount(w'.hist) == Amount(w.hist) && |called| <= 1 && |answer| <= 1
    requires w'.calls == w.calls + called && n'.answers == n.answers + answer
    requires (u in w'.threads <==> u in w.threads) && (u in w.threads ==> w'.threads[u] == w.threads[u])
    requires called != [] ==> !ReportedTo(u, Amount(w.hist))(called[0])
    requires answer != [] ==> !UnreportedTo(u)(answer[0])
    ensures RepliedTo(w', n', u)
  {
    CountMore(w.calls, called, ReportedTo(u, Amount(w.hist)));
    CountMore(n.answers, answer, UnreportedTo(u));
  }

  lemma NextReplied(w: World, n: Notes, a: Action)
    requires Safe(w) && Staged(w, n) && Booked(w, n) && Replied(w, n)
    ensures Replied(Next(w, a), Noted(w, n, a))
  {
    forall u: nat ensures RepliedTo(Next(w, a), Noted(w, n, a), u) {
      assert RepliedTo(w, n, u);
      if a.Act? && a.thread in w.threads {
        if u == a.thread { OwnReplied(w, n, u, a.reply); } else { OtherReplied(w, n, a.thread, a.reply, u); }
      }
    }
  }

  lemma {:induction false} RunReplied(w: World, n: Notes, actions: seq<Action>)
    requires Safe(w) && Staged(w, n) && Booked(w, n) && Replied(w, n)
    ensures Replied(Run(w, actions), NotesOf(w, n, actions))
    decreases |actions|
  {
    if actions != [] {
      NextSafe(w, actions[0]);
      NextStaged(w, n, actions[0]);
      NextBooked(w, n, actions[0]);
      NextReplied(w, n, actions[0]);
      RunReplied(Next(w, actions[0]), Noted(w, n, actions[0]), actions[1..]);
    }
  }
}
