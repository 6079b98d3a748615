/** What holds in every state of every interleaving of saga calls. */
module SagaSafety {
  import opened Orders
  import opened SagaProtocol

  // ------------------------------------------------- stored values and copies

  /** Versions count up by one, contents never change, terminal statuses stay. */
  ghost predicate HistoryOk(hist: seq<Order>) {
    && (hist != [] ==> NewOrder(hist[0]))
    && (forall v | 0 <= v < |hist| :: hist[v].version == v && SameContents(hist[v], hist[0]))
    && (forall v | 0 <= v < |hist| - 1 :: Terminal(hist[v].status) ==> hist[v + 1].status == hist[v].status)
  }

  /**
    A local copy at version v is what was stored at version v, except between a
    rejected save and the reload that follows it.
   */
  ghost predicate CopyOk(hist: seq<Order>, th: Thread) {
    th.Working? ==>
      && hist != []
      && (th.at.Reloading? || (0 <= th.order.version < |hist| && hist[th.order.version] == th.order))
      && (th.at.Saving? ==> th.at.up.attempt < MAX_RETRIES)
      && (th.at.Reloading? ==> th.at.up.attempt < MAX_RETRIES - 1)
      && (th.at.EmittingStatus? ==> th.order.version >= 1 && th.at.up.attempt < MAX_RETRIES)
  }

  /** A save that goes through writes over the very value its thread holds. */
  lemma SaveKeepsHistory(t: nat, th: Thread, hist: seq<Order>, r: Reply)
    requires HistoryOk(hist) && CopyOk(hist, th) && th.Working? && th.at.Saving?
    ensures var e := StepSave(t, th, hist, r);
            HistoryOk(hist + e.stored) && CopyOk(hist + e.stored, e.thread)
  {
    var e := StepSave(t, th, hist, r);
    if e.stored != [] {
      var h := hist + e.stored;
      assert th.order == Current(hist);
      forall v | 0 <= v < |h| - 1 ensures Terminal(h[v].status) ==> h[v + 1].status == h[v].status {
        assert h[v] == hist[v];
      }
    } else {
      assert hist + e.stored == hist;
    }
  }

  /** Every other step stores nothing and keeps its copy, or takes the stored value. */
  lemma StepKeepsCopy(t: nat, th: Thread, hist: seq<Order>, r: Reply)
    requires HistoryOk(hist) && CopyOk(hist, th) && !(th.Working? && th.at.Saving?)
    ensures var e := Step(t, th, hist, r); e.stored == [] && CopyOk(hist, e.thread)
  {
  }

  lemma StepKeepsHistory(t: nat, th: Thread, hist: seq<Order>, r: Reply)
    requires HistoryOk(hist) && CopyOk(hist, th)
    ensures var e := Step(t, th, hist, r);
            HistoryOk(hist + e.stored) && CopyOk(hist + e.stored, e.thread)
  {
    if th.Working? && th.at.Saving? {
      SaveKeepsHistory(t, th, hist, r);
    } else {
      StepKeepsCopy(t, th, hist, r);
      assert hist + [] == hist;
    }
  }

  lemma CopyKept(hist: seq<Order>, more: seq<Order>, th: Thread)
    requires CopyOk(hist, th)
    ensures CopyOk(hist + more, th)
  {
  }

  // -------------------------------------------------- evidence behind a status

  predicate GoodReserve(c: Call) {
    c.ReserveCall? && c.ok
  }

  /** A payment of exactly the order's amount and currency that went through. */
  predicate GoodPay(c: Call, o: Order) {
    && c.PayCall? && c.ok && (c.status.Captured? || c.status.Authorized?)
    && c.amount == o.amountMinor && c.currency == o.currency
  }

  predicate GoodRefund(c: Call, o: Order) {
    c.RefundCall? && c.ok && c.status.PaymentRefunded? && 0 <= c.amount <= o.amountMinor && c.currency == o.currency
  }

  ghost predicate HasReserve(calls: seq<Call>) {
    exists i :: 0 <= i < |calls| && GoodReserve(calls[i])
  }

  ghost predicate HasPay(calls: seq<Call>, o: Order) {
    exists j :: 0 <= j < |calls| && GoodPay(calls[j], o) && HasReserve(calls[..j])
  }

  ghost predicate HasRefund(calls: seq<Call>, o: Order) {
    exists k :: 0 <= k < |calls| && GoodRefund(calls[k], o) && HasPay(calls[..k], o)
  }

  /** The external calls that must precede a stored status, in this order. */
  ghost predicate Evidence(calls: seq<Call>, o: Order, s: OrderStatus) {
    match s
    case Pending => true
    case Canceled => true
    case Reserved => HasReserve(calls)
    case Paid => HasPay(calls, o)
    case Confirmed => HasPay(calls, o)
    case Refunded => HasRefund(calls, o)
  }

  lemma EvidenceKept(calls: seq<Call>, more: seq<Call>, o: Order, s: OrderStatus)
    requires Evidence(calls, o, s)
    ensures Evidence(calls + more, o, s)
  {
    var all := calls + more;
    assert forall i | 0 <= i <= |calls| :: all[..i] == calls[..i];
    assert forall i | 0 <= i < |calls| :: all[i] == calls[i];
  }

  /** What each answered call proves for the calls that follow it. */
  lemma EvidenceGained(calls: seq<Call>, c: Call, o: Order)
    ensures GoodReserve(c) ==> Evidence(calls + [c], o, Reserved)
    ensures GoodPay(c, o) && Evidence(calls, o, Reserved) ==> Evidence(calls + [c], o, Paid)
    ensures GoodRefund(c, o) && Evidence(calls, o, Paid) ==> Evidence(calls + [c], o, Refunded)
  {
    var all := calls + [c];
    assert all[|calls|] == c && all[..|calls|] == calls;
  }

  ghost predicate ThenJustified(calls: seq<Call>, o: Order, next: Then) {
    && (next.ThenPay? ==> Evidence(calls, o, Reserved))
    && (next.ThenConfirm? ==> Evidence(calls, o, Confirmed))
  }

  ghost predicate PointJustified(calls: seq<Call>, o: Order, at: Point) {
    match at
    case Paying => Evidence(calls, o, Reserved)
    case Refunding(amount) => Evidence(calls, o, Paid) && 0 <= amount <= o.amountMinor
    case ReleasingAfterRefund(_) => Evidence(calls, o, Refunded)
    case Saving(up) => Evidence(calls, o, up.target) && ThenJustified(calls, o, up.next)
    case Reloading(up) => Evidence(calls, o, up.target) && ThenJustified(calls, o, up.next)
    case EmittingStatus(up) => ThenJustified(calls, o, up.next)
    case _ => true
  }

  ghost predicate Justified(calls: seq<Call>, o: Order, th: Thread) {
    th.Working? ==> PointJustified(calls, o, th.at)
  }

  ghost predicate HistoryJustified(calls: seq<Call>, hist: seq<Order>) {
    forall v | 0 <= v < |hist| :: Evidence(calls, hist[0], hist[v].status)
  }

  lemma JustifiedKept(calls: seq<Call>, more: seq<Call>, o: Order, th: Thread)
    requires Justified(calls, o, th)
    ensures Justified(calls + more, o, th)
  {
    forall s | Evidence(calls, o, s) ensures Evidence(calls + more, o, s) {
      EvidenceKept(calls, more, o, s);
    }
  }

  lemma EnterJustified(calls: seq<Call>, o: Order, th: Thread, target: OrderStatus, next: Then)
    requires th.Working? && Evidence(calls, o, target) && ThenJustified(calls, o, next)
    ensures Justified(calls, o, Enter(th, target, next))
    ensures Justified(calls, o, Continue(th, next))
    decreases Rank(next)
  {
    if next.ThenConfirm? {
      EnterJustified(calls, o, th, Confirmed, ThenReturn);
      EnterJustified(calls, o, th.(updates := th.updates + 1), Confirmed, ThenReturn);
    }
  }

  /** What a service answers justifies the thread's next point. */
  lemma AnswerJustified(t: nat, th: Thread, hist: seq<Order>, calls: seq<Call>, r: Reply)
    requires hist != [] && CopyOk(hist, th) && HistoryOk(hist)
    requires Justified(calls, hist[0], th) && Step(t, th, hist, r).called != []
    ensures var e := Step(t, th, hist, r); Justified(calls + e.called, hist[0], e.thread)
  {
    var o, c := hist[0], Step(t, th, hist, r).called[0];
    var more := calls + [c];
    EvidenceGained(calls, c, o);
    assert SameContents(th.order, o);
    match th.at
    case Reserving =>
      if r.ok { EnterJustified(more, o, th, Reserved, ThenPay); }
    case Paying =>
      if GoodPay(c, o) { EnterJustified(more, o, th, Paid, ThenConfirm); }
    case ReleasingAfterRefund(amount) =>
      EvidenceKept(calls, [c], o, Refunded);
      EnterJustified(more, o, th, Refunded, ThenEmit(OrderRefunded(amount)));
    case _ =>
  }

  lemma StepJustified(t: nat, th: Thread, hist: seq<Order>, calls: seq<Call>, r: Reply)
    requires hist != [] && HistoryOk(hist) && CopyOk(hist, th) && HistoryJustified(calls, hist)
    requires Justified(calls, hist[0], th)
    ensures var e := Step(t, th, hist, r); Justified(calls + e.called, hist[0], e.thread)
  {
    var e, o := Step(t, th, hist, r), hist[0];
    if e.called != [] {
      AnswerJustified(t, th, hist, calls, r);
    } else {
      assert calls + e.called == calls;
      if th.Reading? {
        assert Evidence(calls, o, Current(hist).status);
        assert SameContents(Current(hist), o);
      } else if th.Working? && th.at.EmittingStatus? {
        EnterJustified(calls, o, th, Pending, th.at.up.next);
      }
    }
  }

  lemma StepKeepsEvidence(t: nat, th: Thread, hist: seq<Order>, calls: seq<Call>, r: Reply)
    requires hist != [] && CopyOk(hist, th) && HistoryJustified(calls, hist) && Justified(calls, hist[0], th)
    ensures var e := Step(t, th, hist, r); HistoryJustified(calls + e.called, hist + e.stored)
  {
    var e := Step(t, th, hist, r);
    forall v | 0 <= v < |hist + e.stored|
      ensures Evidence(calls + e.called, hist[0], (hist + e.stored)[v].status)
    {
      if v < |hist| {
        EvidenceKept(calls, e.called, hist[0], hist[v].status);
      } else {
        assert th.at.Saving? && calls + e.called == calls;
      }
    }
  }

  // ------------------------------------------------------------- whole runs

  ghost predicate Safe(w: World) {
    && HistoryOk(w.hist)
    && HistoryJustified(w.calls, w.hist)
    && (forall t | t in w.threads :: CopyOk(w.hist, w.threads[t]))
    && (w.hist != [] ==> forall t | t in w.threads :: Justified(w.calls, w.hist[0], w.threads[t]))
  }

  lemma ActSafe(w: World, t: nat, r: Reply)
    requires Safe(w) && t in w.threads
    ensures Safe(Apply(w, t, Step(t, w.threads[t], w.hist, r)))
  {
    var e := Step(t, w.threads[t], w.hist, r);
    var w' := Apply(w, t, e);
    StepKeepsHistory(t, w.threads[t], w.hist, r);
    forall u | u in w'.threads ensures CopyOk(w'.hist, w'.threads[u]) {
      if u != t { CopyKept(w.hist, e.stored, w.threads[u]); }
    }
    if w.hist == [] {
      assert w'.hist == [] && w'.calls == w.calls;
    } else {
      StepKeepsEvidence(t, w.threads[t], w.hist, w.calls, r);
      StepJustified(t, w.threads[t], w.hist, w.calls, r);
      forall u | u in w'.threads ensures Justified(w'.calls, w.hist[0], w'.threads[u]) {
        if u != t { JustifiedKept(w.calls, e.called, w.hist[0], w.threads[u]); }
      }
    }
  }

  lemma NextSafe(w: World, a: Action)
    requires Safe(w)
    ensures Safe(Next(w, a))
  {
    if a.Act? && a.thread in w.threads {
      ActSafe(w, a.thread, a.reply);
    }
  }

  lemma {:induction false} RunSafe(w: World, actions: seq<Action>)
    requires Safe(w)
    ensures Safe(Run(w, actions))
    decreases |actions|
  {
    if actions != [] {
      NextSafe(w, actions[0]);
      RunSafe(Next(w, actions[0]), actions[1..]);
    }
  }

  lemma {:induction false} HistoryGrows(w: World, actions: seq<Action>)
    ensures w.hist <= Run(w, actions).hist
    decreases |actions|
  {
    if actions != [] {
      assert w.hist <= Next(w, actions[0]).hist;
      HistoryGrows(Next(w, actions[0]), actions[1..]);
    }
  }

  lemma {:induction false} TerminalStays(hist: seq<Order>, v: nat, u: nat)
    requires HistoryOk(hist) && v <= u < |hist| && Terminal(hist[v].status)
    ensures hist[u].status == hist[v].status
    decreases u - v
  {
    if v < u { TerminalStays(hist, v + 1, u); }
  }

  /**
    On every interleaving: whatever is stored later carries the same contents, its
    version tells how many saves succeeded, and a terminal status is final.
   */
  lemma StoredOrderEvolution(before: seq<Action>, after: seq<Action>)
    ensures var w := Run(EMPTY, before); var w' := Run(w, after);
            && w.hist <= w'.hist
            && (w.hist != [] ==>
                 && SameContents(Current(w'.hist), Current(w.hist))
                 && Current(w'.hist).version - Current(w.hist).version == |w'.hist| - |w.hist|
                 && (Current(w.hist).status in {Canceled, Refunded} ==>
                       Current(w'.hist).status == Current(w.hist).status))
  {
    var w := Run(EMPTY, before);
    var w' := Run(w, after);
    RunSafe(EMPTY, before);
    RunSafe(w, after);
    HistoryGrows(w, after);
    if w.hist != [] && Terminal(Current(w.hist).status) {
      TerminalStays(w'.hist, |w.hist| - 1, |w'.hist| - 1);
    }
  }

  /** On every interleaving: a stored status is backed by the external calls it stands for. */
  lemma StoredStatusIsEarned(actions: seq<Action>)
    ensures var w := Run(EMPTY, actions);
            w.hist != [] ==> Evidence(w.calls, Current(w.hist), Current(w.hist).status)
  {
    var w := Run(EMPTY, actions);
    RunSafe(EMPTY, actions);
    if w.hist != [] {
      var o, c := w.hist[0], Current(w.hist);
      assert Evidence(w.calls, o, c.status);
      SameEvidence(w.calls, o, c, c.status);
    }
  }

  lemma SameEvidence(calls: seq<Call>, o: Order, c: Order, s: OrderStatus)
    requires SameContents(o, c) && Evidence(calls, o, s)
    ensures Evidence(calls, c, s)
  {
    assert forall k | 0 <= k < |calls| :: GoodPay(calls[k], o) == GoodPay(calls[k], c);
    assert forall k | 0 <= k < |calls| :: GoodRefund(calls[k], o) == GoodRefund(calls[k], c);
    if s.Refunded? {
      var k :| 0 <= k < |calls| && GoodRefund(calls[k], o) && HasPay(calls[..k], o);
      SameEvidence(calls[..k], o, c, Paid);
    }
  }

  /** Outside the save window a local copy is the value stored under its version. */
  lemma CopiesAreStoredValues(actions: seq<Action>, t: nat)
    ensures var w := Run(EMPTY, actions);
            t in w.threads && w.threads[t].Working? && !w.threads[t].at.Reloading? ==>
              var copy := w.threads[t].order;
              0 <= copy.version < |w.hist| && w.hist[copy.version] == copy
  {
    RunSafe(EMPTY, actions);
  }
}
