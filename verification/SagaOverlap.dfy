/**
  What overlapping saga calls can do to each other.  A Cancel picks its
  compensations from the status it first read, but a rejected save makes it reload
  and overwrite whatever is stored by then.
 */
module SagaOverlap {
  import opened Orders
  import opened SagaProtocol
  import opened SagaSafety

  // ------------------------------------- compensations owed and made by a Cancel

  /** Statuses under which a Cancel owes the inventory a release. */
  predicate OwesRelease(s: OrderStatus) {
    s.Reserved? || PaidFor(s)
  }

  predicate IsRelease(c: Call, t: nat) {
    c.ReleaseCall? && c.caller == t
  }

  predicate IsFullRefund(c: Call, t: nat, o: Order) {
    c.RefundCall? && c.caller == t && c.ok && c.amount == o.amountMinor
  }

  ghost predicate Released(calls: seq<Call>, t: nat) {
    exists i :: 0 <= i < |calls| && IsRelease(calls[i], t)
  }

  ghost predicate FullyRefunded(calls: seq<Call>, t: nat, o: Order) {
    exists i :: 0 <= i < |calls| && IsFullRefund(calls[i], t, o)
  }

  /** Thread t itself made every compensation that canceling from status s calls for. */
  ghost predicate CompensatedBy(calls: seq<Call>, t: nat, o: Order, s: OrderStatus) {
    && (OwesRelease(s) ==> Released(calls, t))
    && (PaidFor(s) ==> FullyRefunded(calls, t, o))
  }

  ghost predicate Quiet(calls: seq<Call>, t: nat) {
    forall i | 0 <= i < |calls| :: calls[i].caller != t
  }

  /** A Cancel has made exactly the compensations owed for the status it first read. */
  ghost predicate CancelOk(calls: seq<Call>, o: Order, t: nat, th: Thread) {
    && (th.Reading? ==> Quiet(calls, t))
    && (th.Working? && th.request.Cancel? ==>
          match th.at
          case ReleasingForCancel => th.order.status == th.seen && OwesRelease(th.seen) && Quiet(calls, t)
          case RefundingForCancel =>
            th.order.status == th.seen && PaidFor(th.seen) && Released(calls, t) && !FullyRefunded(calls, t, o)
          case Saving(up) => Settled(calls, o, t, th.seen) && up.next.ThenEmit?
            && (up.attempt == 0 ==> th.order.status == th.seen)
          case Reloading(up) => Settled(calls, o, t, th.seen) && up.next.ThenEmit?
          case EmittingStatus(up) => up.next.ThenEmit?
          case EmittingOutcome(_) => true
          case _ => false)
  }

  ghost predicate Settled(calls: seq<Call>, o: Order, t: nat, seen: OrderStatus) {
    && (OwesRelease(seen) <==> Released(calls, t))
    && (PaidFor(seen) <==> FullyRefunded(calls, t, o))
  }

  /** Calls of other threads do not count. */
  lemma OthersDoNotCount(calls: seq<Call>, more: seq<Call>, t: nat, o: Order, th: Thread)
    requires CancelOk(calls, o, t, th) && Quiet(more, t)
    ensures CancelOk(calls + more, o, t, th)
  {
    var all := calls + more;
    assert forall i | 0 <= i < |calls| :: all[i] == calls[i];
    assert forall i | |calls| <= i < |all| :: all[i] == more[i - |calls|];
    assert Released(all, t) <==> Released(calls, t);
    assert FullyRefunded(all, t, o) <==> FullyRefunded(calls, t, o);
    assert Quiet(all, t) <==> Quiet(calls, t);
  }

  lemma OwnCall(calls: seq<Call>, c: Call, t: nat, o: Order)
    ensures Released(calls + [c], t) <==> Released(calls, t) || IsRelease(c, t)
    ensures FullyRefunded(calls + [c], t, o) <==> FullyRefunded(calls, t, o) || IsFullRefund(c, t, o)
  {
    var all := calls + [c];
    assert all[|calls|] == c;
    assert forall i | 0 <= i < |calls| :: all[i] == calls[i];
  }

  lemma StepCancel(t: nat, th: Thread, hist: seq<Order>, calls: seq<Call>, r: Reply)
    requires hist != [] && HistoryOk(hist) && CopyOk(hist, th) && CancelOk(calls, hist[0], t, th)
    ensures var e := Step(t, th, hist, r); CancelOk(calls + e.called, hist[0], t, e.thread)
  {
    var e, o := Step(t, th, hist, r), hist[0];
    if e.called == [] {
      assert calls + e.called == calls;
    } else {
      assert calls + e.called == calls + [e.called[0]];
      OwnCall(calls, e.called[0], t, o);
      assert SameContents(th.order, o);
    }
  }

  lemma StepCalls(t: nat, th: Thread, hist: seq<Order>, r: Reply, u: nat)
    requires u != t
    ensures Quiet(Step(t, th, hist, r).called, u)
  {
  }

  ghost predicate CancelsOk(w: World) {
    && (forall t | t !in w.threads :: Quiet(w.calls, t))
    && (w.hist == [] ==> w.calls == [])
    && (w.hist != [] ==> forall t | t in w.threads :: CancelOk(w.calls, w.hist[0], t, w.threads[t]))
  }

  lemma ActCancels(w: World, t: nat, r: Reply)
    requires Safe(w) && CancelsOk(w) && t in w.threads
    ensures CancelsOk(Apply(w, t, Step(t, w.threads[t], w.hist, r)))
  {
    var e := Step(t, w.threads[t], w.hist, r);
    var w' := Apply(w, t, e);
    if w.hist == [] {
      assert w'.hist == [] && w'.calls == [];
    } else {
      StepCancel(t, w.threads[t], w.hist, w.calls, r);
      forall u: nat | u != t ensures Quiet(e.called, u) { StepCalls(t, w.threads[t], w.hist, r, u); }
      forall u | u in w'.threads ensures CancelOk(w'.calls, w'.hist[0], u, w'.threads[u]) {
        if u != t { OthersDoNotCount(w.calls, e.called, u, w.hist[0], w.threads[u]); }
      }
    }
  }

  lemma {:induction false} RunCancels(w: World, actions: seq<Action>)
    requires Safe(w) && CancelsOk(w)
    ensures Safe(Run(w, actions)) && CancelsOk(Run(w, actions))
    decreases |actions|
  {
    if actions != [] {
      var a := actions[0];
      NextSafe(w, a);
      if a.Act? && a.thread in w.threads { ActCancels(w, a.thread, a.reply); }
      RunCancels(Next(w, a), actions[1..]);
    }
  }

  /**
    On every interleaving, a Cancel that commits over a stored status has itself made the
    compensations that status calls for exactly when the status it first read owed at
    least as much; and it always has when its first save is the one that commits.
   */
  lemma CancelCompensates(actions: seq<Action>, t: nat, r: Reply)
    requires var w := Run(EMPTY, actions);
             && t in w.threads && w.threads[t].Working? && w.threads[t].request.Cancel?
             && Step(t, w.threads[t], w.hist, r).stored != []
    ensures var w := Run(EMPTY, actions); var th := w.threads[t];
            var replaced := Current(w.hist).status;
            && (CompensatedBy(w.calls, t, Current(w.hist), replaced) <==>
                 (OwesRelease(replaced) ==> OwesRelease(th.seen)) && (PaidFor(replaced) ==> PaidFor(th.seen)))
            && (th.at.up.attempt == 0 ==> CompensatedBy(w.calls, t, Current(w.hist), replaced))
  {
    var w := Run(EMPTY, actions);
    RunCancels(EMPTY, actions);
    var th := w.threads[t];
    assert th.order == Current(w.hist);
    assert SameContents(Current(w.hist), w.hist[0]);
    assert FullyRefunded(w.calls, t, Current(w.hist)) <==> FullyRefunded(w.calls, t, w.hist[0]) by {
      assert forall i | 0 <= i < |w.calls| ::
             IsFullRefund(w.calls[i], t, Current(w.hist)) == IsFullRefund(w.calls[i], t, w.hist[0]);
    }
  }

  // ---------------------------------------------------- what overlapping can break

  ghost predicate Reachable(w: World) {
    exists actions :: Run(EMPTY, actions) == w
  }

  lemma {:induction false} RunAppend(w: World, actions: seq<Action>, a: Action)
    ensures Run(w, actions + [a]) == Next(Run(w, actions), a)
    decreases |actions|
  {
    if actions == [] {
      assert Run(Next(w, a), []) == Next(w, a);
      assert ([] + [a])[1..] == [];
    } else {
      assert (actions + [a])[1..] == actions[1..] + [a];
      RunAppend(Next(w, actions[0]), actions[1..], a);
    }
  }

  lemma Reach(w: World, a: Action)
    requires Reachable(w)
    ensures Reachable(Next(w, a))
  {
    var actions :| Run(EMPTY, actions) == w;
    RunAppend(EMPTY, actions, a);
  }

  function Restamped(o: Order, s: OrderStatus): Order {
    o.(status := s, updatedAt := 0, version := o.version + 1)
  }

  const YES := Reply(true, Captured, 0)

  /** Start and Cancel begun on every new order; the Cancel has read it pending. */
  lemma BothStarted(o: Order, second: Request) returns (w: World)
    requires NewOrder(o) && !second.Refund?
    ensures Reachable(w)
    ensures w == World([o], [], [], [], map[0 := Reading(Start), 1 := Dispatch(second, o)])
  {
    assert Run(EMPTY, []) == EMPTY;
    Reach(EMPTY, Create(o));
    w := Next(EMPTY, Create(o));
    Reach(w, Spawn(0, Start));
    w := Next(w, Spawn(0, Start));
    Reach(w, Spawn(1, second));
    w := Next(w, Spawn(1, second));
    Reach(w, Act(1, YES));
    w := Next(w, Act(1, YES));
    assert w.threads == map[0 := Reading(Start), 1 := Dispatch(second, o)];
  }

  /** Thread 0 then runs Start until the payment is stored, whatever thread 1 holds. */
  lemma StartUntilPaid(o: Order, w0: World) returns (w: World)
    requires NewOrder(o) && Reachable(w0)
    requires w0.hist == [o] && w0.calls == [] && w0.events == [] && w0.saves == []
    requires w0.threads.Keys == {0, 1} && w0.threads[0] == Reading(Start)
    ensures Reachable(w)
    ensures var res := Restamped(o, Reserved); var paid := Restamped(res, Paid);
            && w.hist == [o, res, paid]
            && w.calls == [ReserveCall(0, true), PayCall(0, o.amountMinor, o.currency, true, Captured)]
            && w.threads == map[0 := Working(Start, Pending, paid, 2, EmittingStatus(Update(Paid, 0, ThenConfirm))),
                                1 := w0.threads[1]]
  {
    var res, paid := Restamped(o, Reserved), Restamped(Restamped(o, Reserved), Paid);
    w := StartUntilReserved(o, w0);
    Reach(w, Act(0, YES));
    w := Next(w, Act(0, YES));
    assert w.threads[0] == Working(Start, Pending, res, 1, Paying);
    Reach(w, Act(0, YES));
    w := Next(w, Act(0, YES));
    assert w.threads[0] == Working(Start, Pending, res, 2, Saving(Update(Paid, 0, ThenConfirm)));
    Reach(w, Act(0, YES));
    w := Next(w, Act(0, YES));
  }

  lemma StartUntilReserved(o: Order, w0: World) returns (w: World)
    requires NewOrder(o) && Reachable(w0)
    requires w0.hist == [o] && w0.calls == [] && w0.threads.Keys == {0, 1} && w0.threads[0] == Reading(Start)
    ensures Reachable(w)
    ensures var res := Restamped(o, Reserved);
            && w.hist == [o, res] && w.calls == [ReserveCall(0, true)] && w.saves == w0.saves + [SaveTry(0, 1, true)]
            && w.threads == w0.threads[0 := Working(Start, Pending, res, 1,
               EmittingStatus(Update(Reserved, 0, ThenPay)))]
  {
    var res := Restamped(o, Reserved);
    Reach(w0, Act(0, YES));
    w := Next(w0, Act(0, YES));
    assert w.threads[0] == Working(Start, Pending, o, 0, Reserving);
    Reach(w, Act(0, YES));
    w := Next(w, Act(0, YES));
    assert w.threads[0] == Working(Start, Pending, o, 1, Saving(Update(Reserved, 0, ThenPay)));
    Reach(w, Act(0, YES));
    w := Next(w, Act(0, YES));
    assert w.hist == [o, res];
  }

  /**
    A canceled order can stay paid and reserved, on every new order: a Cancel that read
    the order pending cancels it after Start has paid, and neither a refund nor a release
    is ever asked for.
   */
  lemma OverlappingCancelKeepsMoney(o: Order) returns (w: World)
    requires NewOrder(o)
    ensures Reachable(w) && w.hist != [] && w.hist[0] == o
    ensures Current(w.hist).status == Canceled && HasPay(w.calls, o)
    ensures forall i | 0 <= i < |w.calls| :: !w.calls[i].RefundCall? && !w.calls[i].ReleaseCall?
  {
    w := BothStarted(o, Cancel);
    w := StartUntilPaid(o, w);
    var paid := Current(w.hist);
    Reach(w, Act(1, YES));
    w := Next(w, Act(1, YES));
    assert w.threads[1].at == Reloading(Update(Canceled, 0, ThenEmit(OrderCanceled)));
    Reach(w, Act(1, YES));
    w := Next(w, Act(1, YES));
    assert w.threads[1].at == Saving(Update(Canceled, 1, ThenEmit(OrderCanceled))) && w.threads[1].order == paid;
    Reach(w, Act(1, YES));
    w := Next(w, Act(1, YES));
    assert Current(w.hist) == Restamped(paid, Canceled);
    assert GoodReserve(w.calls[..1][0]) && GoodPay(w.calls[1], o);
  }

  /** A second Start that read the order pending moves it from paid back to reserved. */
  lemma SecondStartReserves(o: Order) returns (w: World)
    requires NewOrder(o)
    ensures Reachable(w)
    ensures var paid := Restamped(Restamped(o, Reserved), Paid); var again := Restamped(paid, Reserved);
            && w.hist == [o, Restamped(o, Reserved), paid, again]
            && w.calls == [ReserveCall(0, true), PayCall(0, o.amountMinor, o.currency, true, Captured),
               ReserveCall(1, true)]
            && 1 in w.threads
            && w.threads[1] == Working(Start, Pending, again, 1, EmittingStatus(Update(Reserved, 1, ThenPay)))
  {
    w := BothStarted(o, Start);
    w := StartUntilPaid(o, w);
    var paid := Current(w.hist);
    Reach(w, Act(1, YES));
    w := Next(w, Act(1, YES));
    assert w.threads[1] == Working(Start, Pending, o, 1, Saving(Update(Reserved, 0, ThenPay)));
    Reach(w, Act(1, YES));
    w := Next(w, Act(1, YES));
    Reach(w, Act(1, YES));
    w := Next(w, Act(1, YES));
    assert w.threads[1] == Working(Start, Pending, paid, 1, Saving(Update(Reserved, 1, ThenPay)));
    Reach(w, Act(1, YES));
    w := Next(w, Act(1, YES));
  }

  /**
    "Status only moves forward" and "Pay at most once" fail for overlapping calls, on
    every new order: a second Start moves a paid order back to reserved and pays again.
    `SagaStages.HistoryGoesForward` and `SagaLedger.PaymentsAreCounted` say when they hold.
   */
  lemma OverlappingStartsPayTwice(o: Order) returns (w: World)
    requires NewOrder(o)
    ensures Reachable(w) && w.hist != [] && w.hist[0] == o
    ensures exists v :: 0 <= v < |w.hist| - 1 && w.hist[v].status == Paid && w.hist[v + 1].status == Reserved
    ensures exists i, j :: 0 <= i < j < |w.calls| && GoodPay(w.calls[i], o) && GoodPay(w.calls[j], o)
  {
    w := SecondStartReserves(o);
    Reach(w, Act(1, YES));
    w := Next(w, Act(1, YES));
    assert w.threads[1].at == Paying;
    Reach(w, Act(1, YES));
    w := Next(w, Act(1, YES));
    assert w.hist[2].status == Paid && w.hist[3].status == Reserved;
    assert GoodPay(w.calls[1], o) && GoodPay(w.calls[3], o);
  }
}
