/**
  What the calls to the payment service ask for and what the closing events say, on every
  interleaving, measured against the requests that were read.
 */
module SagaOutcomes {
  import opened Common
  import opened Orders
  import opened SagaProtocol
  import opened SagaSafety
  import opened SagaTrace
  import opened SagaStages
  import opened SagaLedger

  /** A refund request gives back what it asks for, or everything when it asks for nothing or too much. */
  predicate RefundsAs(request: Request, whole: int, amount: int) {
    && request.Refund?
    && (0 < request.amount <= whole ==> amount == request.amount)
    && (request.amount <= 0 || request.amount > whole ==> amount == whole)
  }

  predicate EmitsAs(request: Request, whole: int, next: Then) {
    next.ThenEmit? && next.kind.OrderRefunded? ==> RefundsAs(request, whole, next.kind.amount)
  }

  /** The amounts a call carries along are those of its request. */
  predicate Carries(th: Thread, whole: int) {
    th.Working? ==>
      match th.at
      case Refunding(a) => RefundsAs(th.request, whole, a)
      case ReleasingAfterRefund(a) => RefundsAs(th.request, whole, a)
      case Saving(up) => EmitsAs(th.request, whole, up.next)
      case Reloading(up) => EmitsAs(th.request, whole, up.next)
      case EmittingStatus(up) => EmitsAs(th.request, whole, up.next)
      case EmittingOutcome(kind) => EmitsAs(th.request, whole, ThenEmit(kind))
      case _ => true
  }

  lemma StepCarries(t: nat, th: Thread, hist: seq<Order>, r: Reply, whole: int)
    requires Stage(th) && Carries(th, whole)
    requires hist != [] ==> Current(hist).amountMinor == whole
    ensures Carries(Step(t, th, hist, r).thread, whole)
  {
    if th.Working? && th.at.EmittingStatus? && th.at.up.next.ThenConfirm? { EnterStage(th, Confirmed, ThenReturn); }
  }

  // ------------------------------------------------------------------ what is asked for

  /** What a first read can lead its call to ask for. */
  predicate Reason(read: Read, c: Call, o: Order) {
    && c.RefundCall? && read.caller == c.caller && c.currency == o.currency && PaidFor(read.status)
    && ((read.request.Cancel? && c.amount == o.amountMinor) || RefundsAs(read.request, o.amountMinor, c.amount))
  }

  ghost predicate Asked(n: Notes, c: Call, o: Order) {
    exists j :: 0 <= j < |n.firstReads| && Reason(n.firstReads[j], c, o)
  }

  /** A call on its way to a refund read the order paid, under the request it still has. */
  ghost predicate OnItsWay(n: Notes, t: nat, th: Thread) {
    AboutToRefund(th) ==> Read(t, th.request, th.seen) in n.firstReads && PaidFor(th.seen)
  }

  predicate AboutToRefund(th: Thread) {
    && th.Working?
    && (th.at.RefundingForCancel? || th.at.Refunding? || (th.at.ReleasingForCancel? && PaidFor(th.seen)))
  }

  lemma StepOnItsWay(n: Notes, t: nat, th: Thread, hist: seq<Order>, r: Reply)
    requires Stage(th) && OnItsWay(n, t, th)
    ensures OnItsWay(Observe(n, t, th, hist, r), t, Step(t, th, hist, r).thread)
  {
    var n' := Observe(n, t, th, hist, r);
    assert forall x | x in n.firstReads :: x in n'.firstReads;
    if th.Reading? && r.ok && hist != [] {
      assert n'.firstReads[|n.firstReads|] == Read(t, th.request, Current(hist).status);
    }
    if th.Working? && th.at.EmittingStatus? && th.at.up.next.ThenConfirm? { EnterStage(th, Confirmed, ThenReturn); }
  }

  lemma AskedKept(n: Notes, n': Notes, c: Call, o: Order)
    requires Asked(n, c, o) && n.firstReads <= n'.firstReads
    ensures Asked(n', c, o)
  {
    var j :| 0 <= j < |n.firstReads| && Reason(n.firstReads[j], c, o);
    assert Reason(n'.firstReads[j], c, o);
  }

  ghost predicate Minded(w: World, n: Notes) {
    && (forall t | t in w.threads :: Carries(w.threads[t], Amount(w.hist)) && OnItsWay(n, t, w.threads[t]))
    && (forall i | 0 <= i < |w.calls| && w.calls[i].RefundCall? :: w.hist != [] && Asked(n, w.calls[i], w.hist[0]))
  }

  lemma StepAsksRefund(n: Notes, t: nat, th: Thread, hist: seq<Order>, r: Reply)
    requires hist != [] && Stage(th) && OnItsWay(n, t, th) && Carries(th, hist[0].amountMinor)
    requires th.Working? && !th.at.Reloading? ==> SameContents(th.order, hist[0])
    ensures var e := Step(t, th, hist, r);
            e.called != [] && e.called[0].RefundCall? ==> Asked(n, e.called[0], hist[0])
  {
    var e := Step(t, th, hist, r);
    if e.called != [] && e.called[0].RefundCall? {
      var j :| 0 <= j < |n.firstReads| && n.firstReads[j] == Read(t, th.request, th.seen);
      assert Reason(n.firstReads[j], e.called[0], hist[0]);
    }
  }

  lemma ActMinded(w: World, n: Notes, t: nat, r: Reply)
    requires Safe(w) && Staged(w, n) && Minded(w, n) && t in w.threads
    ensures Minded(Apply(w, t, Step(t, w.threads[t], w.hist, r)), Observe(n, t, w.threads[t], w.hist, r))
  {
    var th, e := w.threads[t], Step(t, w.threads[t], w.hist, r);
    var w', n' := Apply(w, t, e), Observe(n, t, th, w.hist, r);
    assert w.hist != [] ==> SameContents(Current(w.hist), w.hist[0]) && w'.hist[0] == w.hist[0];
    StepPays(t, th, w.hist, r);
    StepCarries(t, th, w.hist, r, Amount(w.hist));
    StepOnItsWay(n, t, th, w.hist, r);
    assert th.Working? && !th.at.Reloading? ==> SameContents(th.order, w.hist[0]);
    if w.hist != [] { StepAsksRefund(n, t, th, w.hist, r); }
    forall i | 0 <= i < |w'.calls| && w'.calls[i].RefundCall?
      ensures w'.hist != [] && Asked(n', w'.calls[i], w'.hist[0])
    {
      if i < |w.calls| {
        assert w'.calls[i] == w.calls[i];
      } else {
        assert w'.calls[i] == e.called[0];
      }
      AskedKept(n, n', w'.calls[i], w.hist[0]);
    }
  }

  lemma NextMinded(w: World, n: Notes, a: Action)
    requires Safe(w) && Staged(w, n) && Booked(w, n) && Minded(w, n)
    ensures Minded(Next(w, a), Noted(w, n, a))
  {
    if a.Act? && a.thread in w.threads { ActMinded(w, n, a.thread, a.reply); }
  }

  // ----------------------------------------------------------------- what is announced

  function Says(kind: Kind): Event -> bool { (e: Event) => e == Outcome(kind) }

  /** A call that has stored its last status and not yet announced its outcome. */
  function Announcing(kind: Kind): Thread -> bool {
    (th: Thread) => th.Working? && (
                      || (th.at.EmittingStatus? && th.at.up.next == ThenEmit(kind)) || th.at == EmittingOutcome(kind))
  }

  /** The commits that end a call with a kind of outcome. */
  function Closes(kind: Kind, whole: int): Commit -> bool {
    (c: Commit) =>
      match kind
      case SagaFailed => c.target.Canceled? && c.request.Start?
      case OrderCanceled => c.target.Canceled? && c.request.Cancel?
      case OrderRefunded(a) => c.target.Refunded? && RefundsAs(c.request, whole, a)
  }

  lemma StepSays(t: nat, th: Thread, hist: seq<Order>, r: Reply, kind: Kind, whole: int)
    requires Stage(th) && Carries(th, whole)
    ensures var e := Step(t, th, hist, r);
            var c := NewCommits(t, th, e, r);
            && |e.emitted| <= 1
            && (if e.emitted == [] then 0 else Bit(Says(kind)(e.emitted[0]))) + Bit(Announcing(kind)(e.thread))
               == Bit(Announcing(kind)(th)) + (if c == [] then 0 else Bit(Closes(kind, whole)(c[0])))
  {
    if th.Working? && th.at.EmittingStatus? && th.at.up.next.ThenConfirm? { EnterStage(th, Confirmed, ThenReturn); }
  }

  ghost predicate Said(w: World, n: Notes, kind: Kind) {
    Count(w.events, Says(kind)) + |Standing(w.threads, Announcing(kind))|
    == Count(n.commits, Closes(kind, Amount(w.hist)))
  }

  lemma NextSaid(w: World, n: Notes, a: Action, kind: Kind)
    requires Safe(w) && Staged(w, n) && Booked(w, n) && Minded(w, n) && Said(w, n, kind)
    ensures Said(Next(w, a), Noted(w, n, a), kind)
  {
    match a
    case Create(_) =>
    case Spawn(t, request) =>
      if t !in w.threads { StandingUpdate(w.threads, t, Reading(request), Announcing(kind)); }
    case Act(t, r) =>
      if t in w.threads { ActSaid(w, n, t, r, kind); }
  }

  lemma ActSaid(w: World, n: Notes, t: nat, r: Reply, kind: Kind)
    requires t in w.threads && Stage(w.threads[t]) && Carries(w.threads[t], Amount(w.hist)) && Said(w, n, kind)
    requires w.hist == [] ==> Step(t, w.threads[t], w.hist, r).stored == []
    ensures Said(Apply(w, t, Step(t, w.threads[t], w.hist, r)), Observe(n, t, w.threads[t], w.hist, r), kind)
  {
    var th, e := w.threads[t], Step(t, w.threads[t], w.hist, r);
    var c, whole := NewCommits(t, th, e, r), Amount(w.hist);
    StepSays(t, th, w.hist, r, kind, whole);
    CountMore(w.events, e.emitted, Says(kind));
    CountMore(n.commits, c, Closes(kind, whole));
    StandingUpdate(w.threads, t, e.thread, Announcing(kind));
    assert Amount(w.hist + e.stored) == whole;
  }

  // ------------------------------------------------------------------------- theorems

  lemma {:induction false} RunMinded(w: World, n: Notes, actions: seq<Action>, kind: Kind)
    requires Safe(w) && Staged(w, n) && Booked(w, n) && Minded(w, n) && Said(w, n, kind)
    ensures Minded(Run(w, actions), NotesOf(w, n, actions)) && Said(Run(w, actions), NotesOf(w, n, actions), kind)
    decreases |actions|
  {
    if actions != [] {
      var a := actions[0];
      NextSafe(w, a);
      NextStaged(w, n, a);
      NextBooked(w, n, a);
      NextMinded(w, n, a);
      NextSaid(w, n, a, kind);
      RunMinded(Next(w, a), Noted(w, n, a), actions[1..], kind);
    }
  }

  /**
    On every interleaving every payment asked for is of the order's amount and currency,
    and every refund is in its currency, by a call that first read the order paid: of the
    whole amount for a Cancel; for a Refund of what it requests, or of the whole amount if
    it requests nothing or too much.
   */
  lemma CallsAreAsAsked(actions: seq<Action>, i: nat)
    requires i < |Run(EMPTY, actions).calls|
    ensures var w, n := Run(EMPTY, actions), NotesOf(EMPTY, BLANK, actions);
            var c := w.calls[i];
            && w.hist != []
            && (c.PayCall? ==> c.amount == w.hist[0].amountMinor && c.currency == w.hist[0].currency)
            && (c.RefundCall? ==> Asked(n, c, w.hist[0]))
  {
    NothingBooked();
    RunBooked(EMPTY, BLANK, actions);
    assert Standing(EMPTY.threads, Announcing(SagaFailed)) == {};
    RunMinded(EMPTY, BLANK, actions, SagaFailed);
  }

  /**
    On every interleaving the outcomes announced, and those about to be, are exactly as
    many as commits that call for them: failures for canceled stored by Starts,
    cancellations for canceled stored by Cancels, and refunds of an amount for refunded
    stored by Refunds of that amount.
   */
  lemma OutcomesAreCounted(actions: seq<Action>, kind: Kind)
    ensures var w, n := Run(EMPTY, actions), NotesOf(EMPTY, BLANK, actions);
            Count(w.events, Says(kind)) + |Standing(w.threads, Announcing(kind))|
            == Count(n.commits, Closes(kind, Amount(w.hist)))
  {
    NothingBooked();
    assert Standing(EMPTY.threads, Announcing(kind)) == {};
    RunMinded(EMPTY, BLANK, actions, kind);
  }
}
