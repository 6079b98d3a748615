/**
  The orchestrator as it is written: calls that run one after another on the
  in-memory store, with every answer of the services arbitrary.  A ghost copy of the
  step machine follows each call, so whatever is proved about all interleavings holds
  here too; on top of that come the laws that need calls not to overlap.
 */
module SagaOrchestrator {
  import opened Orders
  import opened SagaProtocol
  import opened SagaSafety
  import opened SagaOverlap
  import opened SagaAccounting

  // --------------------------------------------------------------- money

  function Pays(calls: seq<Call>): nat {
    if calls == [] then 0
    else Pays(calls[..|calls| - 1]) + (if calls[|calls| - 1].PayCall? then 1 else 0)
  }

  function TakenBy(c: Call): int {
    if c.PayCall? && c.ok && (c.status.Captured? || c.status.Authorized?) then c.amount else 0
  }

  function ReturnedBy(c: Call): int {
    if c.RefundCall? && c.ok && c.status.PaymentRefunded? then c.amount else 0
  }

  /** Money taken: payments that were captured or authorized. */
  function Taken(calls: seq<Call>): int {
    if calls == [] then 0 else Taken(calls[..|calls| - 1]) + TakenBy(calls[|calls| - 1])
  }

  /** Money given back: refunds that the provider reported as refunded. */
  function Returned(calls: seq<Call>): int {
    if calls == [] then 0 else Returned(calls[..|calls| - 1]) + ReturnedBy(calls[|calls| - 1])
  }

  /** Reservations that went through, and releases that were asked for. */
  function Kept(calls: seq<Call>): nat {
    if calls == [] then 0 else Kept(calls[..|calls| - 1]) + (if GoodReserve(calls[|calls| - 1]) then 1 else 0)
  }

  function Releases(calls: seq<Call>): nat {
    if calls == [] then 0 else Releases(calls[..|calls| - 1]) + (if calls[|calls| - 1].ReleaseCall? then 1 else 0)
  }

  lemma {:induction false} KeptIsReserved(calls: seq<Call>)
    ensures Kept(calls) > 0 <==> HasReserve(calls)
  {
    if calls != [] {
      var n := |calls| - 1;
      KeptIsReserved(calls[..n]);
      if HasReserve(calls[..n]) {
        var i :| 0 <= i < n && GoodReserve(calls[..n][i]);
        assert GoodReserve(calls[i]);
      } else if i :| 0 <= i < |calls| && GoodReserve(calls[i]) {
        assert i < n ==> GoodReserve(calls[..n][i]);
      }
    }
  }

  lemma {:induction false} ReleasesAreMade(calls: seq<Call>)
    ensures Releases(calls) > 0 ==> SomeRelease(calls)
  {
    if calls != [] {
      var n := |calls| - 1;
      ReleasesAreMade(calls[..n]);
      if calls[n].ReleaseCall? {
      } else if SomeRelease(calls[..n]) {
        var i :| 0 <= i < n && calls[..n][i].ReleaseCall?;
        assert calls[i].ReleaseCall?;
      }
    }
  }

  lemma MoneyAppend(calls: seq<Call>, c: Call)
    ensures Pays(calls + [c]) == Pays(calls) + (if c.PayCall? then 1 else 0)
    ensures Taken(calls + [c]) == Taken(calls) + TakenBy(c)
    ensures Returned(calls + [c]) == Returned(calls) + ReturnedBy(c)
    ensures Kept(calls + [c]) == Kept(calls) + (if GoodReserve(c) then 1 else 0)
    ensures Releases(calls + [c]) == Releases(calls) + (if c.ReleaseCall? then 1 else 0)
  {
    assert (calls + [c])[..|calls|] == calls;
  }

  ghost predicate WasPaid(calls: seq<Call>, o: Order) {
    exists i :: 0 <= i < |calls| && GoodPay(calls[i], o)
  }

  /** A release was attempted and a refund of the whole amount returned without error. */
  ghost predicate Compensated(calls: seq<Call>, o: Order) {
    && (exists i :: 0 <= i < |calls| && IsRelease(calls[i], calls[i].caller))
    && (exists i :: 0 <= i < |calls| && IsFullRefund(calls[i], calls[i].caller, o))
  }

  /**
    The calls end with the release and the refund of the call that canceled a paid order;
    the money came back exactly if that refund was reported refunded.
   */
  ghost predicate EndsInRefund(calls: seq<Call>, o: Order) {
    && |calls| >= 2 && calls[|calls| - 2].ReleaseCall?
    && var last := calls[|calls| - 1];
       && last.RefundCall? && last.ok && last.amount == o.amountMinor && Taken(calls) == o.amountMinor
       && Returned(calls) == if last.status.PaymentRefunded? then o.amountMinor else 0
  }

  ghost predicate SomeRelease(calls: seq<Call>) {
    exists i :: 0 <= i < |calls| && calls[i].ReleaseCall?
  }

  /** What the calls made so far for an order amount to, given its stored status. */
  ghost predicate Balanced(o: Order, calls: seq<Call>) {
    && o.amountMinor >= 0
    && match o.status
       case Pending => Pays(calls) == 0 && Taken(calls) == 0 && Returned(calls) == 0 && Kept(calls) == 0
       case Reserved => Pays(calls) == 0 && Taken(calls) == 0 && Returned(calls) == 0
       case Paid => Pays(calls) == 1 && Taken(calls) == o.amountMinor && Returned(calls) == 0
       case Confirmed => Pays(calls) == 1 && Taken(calls) == o.amountMinor && Returned(calls) == 0
       case Refunded => Pays(calls) == 1 && Taken(calls) == o.amountMinor && 0 <= Returned(calls) <= o.amountMinor
       case Canceled =>
         && Pays(calls) <= 1
         && (Taken(calls) == 0 || Taken(calls) == o.amountMinor)
         && (Returned(calls) == 0 || Returned(calls) == Taken(calls))
         && (WasPaid(calls, o) ==> EndsInRefund(calls, o))
         && (Kept(calls) > 0 ==> Releases(calls) > 0)
  }

  lemma PaidIffPays(calls: seq<Call>, o: Order)
    requires Pays(calls) == 0
    ensures !WasPaid(calls, o)
  {
    if calls != [] {
      var init := calls[..|calls| - 1];
      PaidIffPays(init, o);
      assert forall i | 0 <= i < |init| :: calls[i] == init[i];
    }
  }

  /** What updateStatus leaves behind when nobody else writes while it runs. */
  datatype Verdict = Unchanged | Terminated | Stored(from: Order)

  function Decide(order: Order, current: Order, target: OrderStatus): Verdict {
    if order.status == target then Unchanged
    else if Terminal(order.status) then Terminated
    else if order.version == current.version then Stored(order)
    else if Terminal(current.status) && current.status != target then Terminated
    else Stored(current)
  }

  /** How one pass of the updateStatus loop ends. */
  datatype PassResult = Committed | Stopped | Retry

  /** Where a call continues does not depend on the point it comes from. */
  lemma ContinueFrom(a: Thread, b: Thread, o: Order, next: Then)
    requires a.Working? && b.Working?
    requires a.request == b.request && a.seen == b.seen && a.updates == b.updates
    ensures Continue(a.(order := o), next) == Continue(b.(order := o), next)
  {
  }

  /** What a call leaves outside the order store: service calls and outbox messages. */
  datatype Book = Book(begun: nat, calls: seq<Call>, events: seq<Event>)

  /** World w is reachable in the step machine and shows exactly this order and book. */
  ghost predicate Shows(w: World, o: Order, b: Book) {
    && Reachable(w)
    && w.hist != [] && Current(w.hist) == o
    && w.calls == b.calls
    && w.events == b.events
  }

  ghost predicate Quiescent(threads: map<nat, Thread>, begun: nat) {
    forall t | t in threads :: threads[t].Finished? && t < begun
  }

  /** The state of an order between calls. */
  ghost predicate AtRest(w: World, o: Order, b: Book) {
    Shows(w, o, b) && Quiescent(w.threads, b.begun) && Balanced(o, b.calls)
  }

  class Orchestrator {
    const repo: OrderRepository
    const answers: nat -> Reply

    var asked: nat
    var books: map<string, Book>
    ghost var worlds: map<string, World>

    constructor (answers: nat -> Reply)
      ensures Valid() && fresh(repo) && repo.items == map[]
    {
      this.answers := answers;
      repo := new OrderRepository();
      asked, books, worlds := 0, map[], map[];
    }

    ghost predicate Valid()
      reads this, repo
    {
      && worlds.Keys == books.Keys == repo.items.Keys
      && forall id | id in repo.items :: repo.items[id].id == id && AtRest(worlds[id], repo.items[id], books[id])
    }

    method CreateOrder(order: Order) returns (created: bool)
      requires Valid() && NewOrder(order)
      modifies this, repo
      ensures Valid()
      ensures created <==> order.id !in old(repo.items)
      ensures repo.items == if created then old(repo.items)[order.id := order] else old(repo.items)
      ensures books == if created then old(books)[order.id := Book(0, [], [])] else old(books)
    {
      var r := repo.Create(order);
      created := r.Ok?;
      if created {
        assert Run(EMPTY, []) == EMPTY;
        Reach(EMPTY, Create(order));
        books := books[order.id := Book(0, [], [])];
        worlds := worlds[order.id := World([order], [], [], [], map[])];
      }
    }

    method Ask() returns (r: Reply)
      modifies this`asked
    {
      r := answers(asked);
      asked := asked + 1;
    }

    /** One pass of the updateStatus loop. */
    method Pass(t: nat, order: Order, target: OrderStatus, attempt: nat, b: Book, ghost w: World, ghost next: Then)
      returns (pass: PassResult, updated: Order, b': Book, ghost w': World)
      requires order.id in repo.items && Shows(w, repo.items[order.id], b)
      requires t in w.threads && w.threads[t].Working? && w.threads[t].order == order
      requires w.threads[t].at == Saving(Update(target, attempt, next)) && attempt < MAX_RETRIES
      modifies this`asked, repo
      ensures pass == if Terminal(order.status) && target != order.status then Stopped
                      else if old(repo.items)[order.id].version == order.version then Committed
                      else if attempt < MAX_RETRIES - 1 then Retry else Stopped
      ensures pass.Committed? ==>
                && updated == order.(status := target, version := order.version + 1, updatedAt := updated.updatedAt)
                && repo.items == old(repo.items)[order.id := updated]
                && b' == b.(events := b.events + [StatusChanged(target, updated.version)])
      ensures !pass.Committed? ==> repo.items == old(repo.items) && b' == b
      ensures pass.Retry? ==> updated == repo.items[order.id]
      ensures Shows(w', repo.items[order.id], b')
      ensures w'.threads == w.threads[t :=
                match pass
                case Stopped => Finished
                case Committed => Continue(w.threads[t].(order := updated), next)
                case Retry => w.threads[t].(order := updated, at := Saving(Update(target, attempt + 1, next)))]
    {
      updated, b' := order, b;
      if Terminal(order.status) && target != order.status {
        w' := Follow(w, t, YES);
        pass := Stopped;
        return;
      }
      var r := Ask();
      var saved := repo.Save(order.(status := target, updatedAt := r.now));
      w' := Follow(w, t, Reply(true, Captured, r.now));
      if saved.Ok? {
        updated := order.(status := target, updatedAt := r.now, version := order.version + 1);
        ContinueFrom(w.threads[t], w'.threads[t], updated, next);
        w' := Follow(w', t, YES);
        b' := b.(events := b.events + [StatusChanged(target, updated.version)]);
        pass := Committed;
      } else if attempt < MAX_RETRIES - 1 {
        updated := repo.items[order.id];
        w' := Follow(w', t, YES);
        pass := Retry;
      } else {
        pass := Stopped;
      }
    }

    method UpdateStatus(t: nat, order: Order, target: OrderStatus, b: Book,
                        ghost w: World, ghost th: Thread, ghost next: Then)
      returns (ok: bool, updated: Order, b': Book, ghost w': World)
      requires order.id in repo.items && repo.items[order.id].id == order.id && Shows(w, repo.items[order.id], b)
      requires t in w.threads && th.Working? && th.order == order && w.threads[t] == Enter(th, target, next)
      modifies this`asked, repo
      ensures match Decide(order, old(repo.items)[order.id], target)
              case Unchanged => ok && updated == order && repo.items == old(repo.items) && b' == b
              case Terminated => !ok && repo.items == old(repo.items) && b' == b
              case Stored(from) =>
                && ok && updated == from.(status := target, version := from.version + 1, updatedAt := updated.updatedAt)
                && repo.items == old(repo.items)[order.id := updated]
                && b' == b.(events := b.events + [StatusChanged(target, updated.version)])
      ensures Shows(w', repo.items[order.id], b')
      ensures w'.threads == w.threads[t :=
                if ok then Continue(th.(order := updated, updates := th.updates + 1), next) else Finished]
    {
      updated, b', w' := order, b, w;
      if order.status == target {
        ok := true;
        return;
      }
      ghost var entered := th.(updates := th.updates + 1);
      var attempt := 0;
      while attempt < MAX_RETRIES
        invariant 0 <= attempt < MAX_RETRIES && updated.id == order.id
        invariant repo.items == old(repo.items) && b' == b && Shows(w', repo.items[order.id], b')
        invariant w'.threads == w.threads[t := entered.(order := updated, at := Saving(Update(target, attempt, next)))]
        invariant attempt == 0 ==> updated == order
        invariant attempt > 0 ==>
                    updated == repo.items[order.id] && order.version != updated.version && !Terminal(order.status)
      {
        ghost var here := entered.(order := updated, at := Saving(Update(target, attempt, next)));
        var pass;
        pass, updated, b', w' := Pass(t, updated, target, attempt, b, w', next);
        if !pass.Retry? {
          ok := pass.Committed?;
          ContinueFrom(here, entered, updated, next);
          return;
        }
        attempt := attempt + 1;
      }
      // Nobody else writes meanwhile, so a reloaded copy is never rejected.
      assert false;
    }

    /** The copy a call holds is the stored order, and the machine's thread t holds it too. */
    ghost predicate Holds(order: Order, t: nat, b: Book, w: World)
      reads repo
    {
      && order.id in repo.items && repo.items[order.id] == order && Shows(w, order, b)
      && t in w.threads
    }

    /** A status change followed by the event that closes the call. */
    method Conclude(t: nat, order: Order, target: OrderStatus, kind: Kind, b: Book, ghost w: World, ghost th: Thread)
      returns (updated: Order, b': Book, ghost w': World)
      requires Holds(order, t, b, w) && !Terminal(order.status) && order.status != target
      requires th.Working? && th.order == order && w.threads[t] == Enter(th, target, ThenEmit(kind))
      modifies this`asked, repo
      ensures updated == order.(status := target, version := order.version + 1, updatedAt := updated.updatedAt)
      ensures repo.items == old(repo.items)[order.id := updated]
      ensures b' == b.(events := b.events + [StatusChanged(target, updated.version), Outcome(kind)])
      ensures Holds(updated, t, b', w') && w'.threads == w.threads[t := Finished]
    {
      var ok;
      ok, updated, b', w' := UpdateStatus(t, order, target, b, w, th, ThenEmit(kind));
      w' := Follow(w', t, YES);
      b' := b'.(events := b'.events + [Outcome(kind)]);
    }

    method HandleReserve(t: nat, order: Order, b: Book, ghost w: World)
      returns (ok: bool, updated: Order, b': Book, ghost w': World)
      requires Holds(order, t, b, w) && order.status == Pending
      requires w.threads[t].Working? && w.threads[t].order == order && w.threads[t].at == Reserving
      modifies this`asked, repo
      ensures SameContents(updated, order) && repo.items == old(repo.items)[order.id := updated]
      ensures updated.status == if ok then Reserved else Canceled
      ensures b'.begun == b.begun && b'.calls == b.calls + [ReserveCall(t, ok)]
      ensures b'.events == b.events + Announced(updated, if ok then [] else [SagaFailed])
      ensures Holds(updated, t, b', w')
      ensures var th := w.threads[t];
              w'.threads == w.threads[t := if ok then th.(order := updated, updates := th.updates + 1, at := Paying)
                else Finished]
    {
      var r := Ask();
      ghost var th := w.threads[t];
      w' := Follow(w, t, r);
      b' := b.(calls := b.calls + [ReserveCall(t, r.ok)]);
      ok := r.ok;
      if ok {
        var stored;
        stored, updated, b', w' := UpdateStatus(t, order, Reserved, b', w', th, ThenPay);
      } else {
        updated, b', w' := Conclude(t, order, Canceled, SagaFailed, b', w', th);
      }
    }

    method HandlePayment(t: nat, order: Order, b: Book, ghost w: World)
      returns (ok: bool, updated: Order, b': Book, ghost w': World)
      requires Holds(order, t, b, w) && order.status == Reserved
      requires w.threads[t].Working? && w.threads[t].order == order && w.threads[t].at == Paying
      modifies this`asked, repo
      ensures SameContents(updated, order) && repo.items == old(repo.items)[order.id := updated]
      ensures updated.status == if ok then Paid else Canceled
      ensures b'.begun == b.begun
      ensures b'.events == b.events + Announced(updated, if ok then [] else [SagaFailed])
      ensures exists c :: PayCalls(c, order, t, ok) && b'.calls == b.calls + c
      ensures Holds(updated, t, b', w')
      ensures var th := w.threads[t];
              w'.threads == w.threads[t :=
                if ok then Enter(th.(order := updated, updates := th.updates + 1), Confirmed, ThenReturn) else Finished]
    {
      var r := Ask();
      ghost var th := w.threads[t];
      var pay := PayCall(t, order.amountMinor, order.currency, r.ok, r.status);
      w' := Follow(w, t, r);
      b' := b.(calls := b.calls + [pay]);
      ok := r.ok && (r.status.Captured? || r.status.Authorized?);
      if ok {
        assert PayCalls([pay], order, t, ok);
        var stored;
        stored, updated, b', w' := UpdateStatus(t, order, Paid, b', w', th, ThenConfirm);
      } else {
        var r' := Ask();
        w' := Follow(w', t, r');
        b' := b'.(calls := b'.calls + [ReleaseCall(t, r'.ok)]);
        assert PayCalls([pay, ReleaseCall(t, r'.ok)], order, t, ok);
        assert b'.calls == b.calls + [pay, ReleaseCall(t, r'.ok)];
        updated, b', w' := Conclude(t, order, Canceled, SagaFailed, b', w', th.(at := ReleasingAfterFailure));
      }
    }

    /** The first read of a call: a new thread of the machine reads the stored order. */
    ghost method Opened(w: World, t: nat, request: Request, order: Order, b: Book) returns (w': World)
      requires Shows(w, order, b) && t !in w.threads
      ensures Shows(w', order, b) && w'.threads == w.threads[t := Dispatch(request, order)]
    {
      Reach(w, Spawn(t, request));
      w' := Next(w, Spawn(t, request));
      w' := Follow(w', t, YES);
    }

    /** Writes back what a call did to order id. */
    method Close(id: string, b: Book, ghost w: World, ghost before: map<string, Order>)
      requires id in before && id in repo.items && repo.items == before[id := repo.items[id]]
      requires worlds.Keys == books.Keys == before.Keys
      requires forall k | k in before :: before[k].id == k && AtRest(worlds[k], before[k], books[k])
      requires repo.items[id].id == id && AtRest(w, repo.items[id], b)
      modifies this`books, this`worlds
      ensures Valid() && books == old(books)[id := b]
    {
      books := books[id := b];
      worlds := worlds[id := w];
    }

    method HandleConfirm(t: nat, order: Order, b: Book, ghost w: World, ghost th: Thread)
      returns (updated: Order, b': Book, ghost w': World)
      requires Holds(order, t, b, w) && order.status == Paid
      requires th.Working? && th.order == order && w.threads[t] == Enter(th, Confirmed, ThenReturn)
      modifies this`asked, repo
      ensures updated.status == Confirmed && SameContents(updated, order)
      ensures repo.items == old(repo.items)[order.id := updated]
      ensures b'.calls == b.calls && b'.begun == b.begun
      ensures Holds(updated, t, b', w') && w'.threads == w.threads[t := Finished]
    {
      var stored;
      stored, updated, b', w' := UpdateStatus(t, order, Confirmed, b, w, th, ThenReturn);
    }

    /** Payment and confirmation of a reserved order. */
    method FromReserved(t: nat, order: Order, b: Book, ghost w: World)
      returns (updated: Order, b': Book, ghost w': World)
      requires Holds(order, t, b, w) && order.status == Reserved && Balanced(order, b.calls)
      requires w.threads[t].Working? && w.threads[t].order == order && w.threads[t].at == Paying
      modifies this`asked, repo
      ensures SameContents(updated, order) && repo.items == old(repo.items)[order.id := updated]
      ensures updated.status == Confirmed || updated.status == Canceled
      ensures b.calls <= b'.calls && PayCalls(b'.calls[|b.calls|..], order, t, updated.status == Confirmed)
      ensures Balanced(updated, b'.calls) && b'.begun == b.begun
      ensures Holds(updated, t, b', w') && w'.threads == w.threads[t := Finished]
    {
      var ok;
      ok, updated, b', w' := HandlePayment(t, order, b, w);
      ghost var c :| PayCalls(c, order, t, ok) && b'.calls == b.calls + c;
      assert b'.calls[|b.calls|..] == c;
      BalancePay(updated, b.calls, c, t, ok);
      if ok {
        ghost var th := w.threads[t];
        updated, b', w' := HandleConfirm(t, updated, b', w', th.(order := updated, updates := th.updates + 1));
      }
    }

    /** Reservation, payment and confirmation of a new order. */
    method FromPending(t: nat, order: Order, b: Book, ghost w: World)
      returns (updated: Order, b': Book, ghost w': World)
      requires Holds(order, t, b, w) && order.status == Pending && Balanced(order, b.calls)
      requires w.threads[t] == Dispatch(Request.Start, order)
      modifies this`asked, repo
      ensures SameContents(updated, order) && repo.items == old(repo.items)[order.id := updated]
      ensures b.calls <= b'.calls && StartDid(order, updated.status, t, b'.calls[|b.calls|..])
      ensures Balanced(updated, b'.calls) && b'.begun == b.begun
      ensures Holds(updated, t, b', w') && w'.threads == w.threads[t := Finished]
    {
      var ok;
      ok, updated, b', w' := ReserveNew(t, order, b, w);
      if !ok {
        assert b'.calls[|b.calls|..] == [ReserveCall(t, false)];
        return;
      }
      ghost var stored, threads, reserved := repo.items, w'.threads, updated;
      updated, b', w' := FromReserved(t, updated, b', w');
      ReservedFirst(b.calls, b'.calls, t, order, reserved, updated.status);
      assert stored[order.id := updated] == old(repo.items)[order.id := updated];
      assert threads[t := Finished] == w.threads[t := Finished];
    }

    /** The reservation of a new order, with its balance. */
    method ReserveNew(t: nat, order: Order, b: Book, ghost w: World)
      returns (ok: bool, updated: Order, b': Book, ghost w': World)
      requires Holds(order, t, b, w) && order.status == Pending && Balanced(order, b.calls)
      requires w.threads[t].Working? && w.threads[t].order == order && w.threads[t].at == Reserving
      modifies this`asked, repo
      ensures SameContents(updated, order) && repo.items == old(repo.items)[order.id := updated]
      ensures updated.status == if ok then Reserved else Canceled
      ensures b'.begun == b.begun && Balanced(updated, b'.calls) && b'.calls == b.calls + [ReserveCall(t, ok)]
      ensures Holds(updated, t, b', w')
      ensures var th := w.threads[t];
              w'.threads == w.threads[t := if ok then th.(order := updated, updates := th.updates + 1, at := Paying)
                else Finished]
    {
      ok, updated, b', w' := HandleReserve(t, order, b, w);
      NewOrderReserved(order, updated, b.calls, ReserveCall(t, ok));
    }

    /** The stages of Start from the status that was read, each falling through to the next. */
    method Stages(t: nat, order: Order, b: Book, ghost w: World)
      returns (updated: Order, b': Book, ghost w': World)
      requires Holds(order, t, b, w) && Balanced(order, b.calls) && w.threads[t] == Dispatch(Request.Start, order)
      modifies this`asked, repo
      ensures SameContents(updated, order) && repo.items == old(repo.items)[order.id := updated]
      ensures order.status in {Confirmed, Canceled, Refunded} ==> updated == order && b' == b
      ensures b.calls <= b'.calls && StartDid(order, updated.status, t, b'.calls[|b.calls|..])
      ensures Balanced(updated, b'.calls) && b'.begun == b.begun
      ensures Holds(updated, t, b', w') && w'.threads == w.threads[t := Finished]
    {
      updated, b', w' := order, b, w;
      match order.status
      case Pending =>
        updated, b', w' := FromPending(t, order, b, w);
      case Reserved =>
        updated, b', w' := FromReserved(t, order, b, w);
      case Paid =>
        updated, b', w' := HandleConfirm(t, order, b, w, Working(Request.Start, Paid, order, 0, Reserving));
      case _ =>
    }

    /** Start leaves no order pending, reserved or paid, and a paid one is always confirmed. */
    method Start(id: string)
      requires Valid()
      modifies this, repo
      ensures Valid() && repo.items.Keys == old(repo.items).Keys
      ensures id !in old(repo.items) ==> repo.items == old(repo.items) && books == old(books)
      ensures id in old(repo.items) ==>
                var was, now := old(repo.items)[id], repo.items[id];
                && repo.items == old(repo.items)[id := now] && SameContents(now, was)
                && (was.status in {Confirmed, Canceled, Refunded} ==> now == was)
                && now.status in {Confirmed, Canceled, Refunded} && (was.status == Paid ==> now.status == Confirmed)
                && old(books)[id].calls <= books[id].calls
                && StartDid(was, now.status, old(books)[id].begun, books[id].calls[|old(books)[id].calls|..])
    {
      var got := repo.Get(id);
      if got.Err? {
        return;
      }
      var t := books[id].begun;
      var b := books[id].(begun := t + 1);
      ghost var w := Opened(worlds[id], t, Request.Start, got.value, books[id]);
      var order;
      order, b, w := Stages(t, got.value, b, w);
      Close(id, b, w, old(repo.items));
    }

    /** The compensations a Cancel owes for the status it read; a failed refund stops it. */
    method Compensate(t: nat, order: Order, b: Book, ghost w: World)
      returns (ok: bool, b': Book, ghost w': World)
      requires Holds(order, t, b, w) && Balanced(order, b.calls) && !Terminal(order.status)
      requires w.threads[t] == Dispatch(Request.Cancel, order)
      modifies this`asked
      ensures CancelCalls(b'.calls, b.calls, order, t, ok)
      ensures b' == b.(calls := b'.calls) && (!PaidFor(order.status) ==> ok)
      ensures Holds(order, t, b', w')
      ensures var th := Working(Request.Cancel, order.status, order, 0, Reserving);
              exists at :: w'.threads == w.threads[t :=
                if ok then Enter(th.(at := at), Canceled, ThenEmit(OrderCanceled)) else Finished]
    {
      ghost var th := Working(Request.Cancel, order.status, order, 0, Reserving);
      ok, b', w' := true, b, w;
      ghost var at := Reserving;
      if order.status.Reserved? || PaidFor(order.status) {
        var r := Ask();
        w' := Follow(w', t, r);
        b' := b'.(calls := b'.calls + [ReleaseCall(t, r.ok)]);
        at := ReleasingForCancel;
      }
      if PaidFor(order.status) {
        var r := Ask();
        w' := Follow(w', t, r);
        b' := b'.(calls := b'.calls + [RefundCall(t, order.amountMinor, order.currency, r.ok, r.status)]);
        at := RefundingForCancel;
        ok := r.ok;
      }
      assert w'.threads == w.threads[t :=
        if ok then Enter(th.(at := at), Canceled, ThenEmit(OrderCanceled)) else Finished];
    }

    /** What Cancel does after its first read. */
    method CancelStages(t: nat, order: Order, b: Book, ghost w: World)
      returns (updated: Order, b': Book, ghost w': World)
      requires Holds(order, t, b, w) && Balanced(order, b.calls) && w.threads[t] == Dispatch(Request.Cancel, order)
      modifies this`asked, repo
      ensures SameContents(updated, order) && repo.items == old(repo.items)[order.id := updated]
      ensures order.status in {Canceled, Refunded} ==> updated == order && b' == b
      ensures updated.status == Canceled || updated == order
      ensures order.status !in {Canceled, Refunded} ==> CancelCalls(b'.calls, b.calls, order, t, updated != order)
      ensures updated == order && order.status !in {Canceled, Refunded} ==> order.status in {Paid, Confirmed}
      ensures b'.events == b.events + if updated == order then [] else Announced(updated, [OrderCanceled])
      ensures Balanced(updated, b'.calls) && b'.begun == b.begun
      ensures Holds(updated, t, b', w') && w'.threads == w.threads[t := Finished]
    {
      updated, b', w' := order, b, w;
      if Terminal(order.status) {
        return;
      }
      var ok;
      ok, b', w' := Compensate(t, order, b, w);
      if !ok {
        BalanceRefused(order, b.calls, b'.calls, t);
        return;
      }
      ghost var th := Working(Request.Cancel, order.status, order, 0, Reserving);
      ghost var at :| w'.threads == w.threads[t := Enter(th.(at := at), Canceled, ThenEmit(OrderCanceled))];
      updated, b', w' := Conclude(t, order, Canceled, OrderCanceled, b', w', th.(at := at));
      BalanceCancel(order, updated, b.calls, b'.calls, t);
    }

    /** Cancel ends in a terminal status unless the refund it owes is refused. */
    method Cancel(id: string)
      requires Valid()
      modifies this, repo
      ensures Valid() && repo.items.Keys == old(repo.items).Keys
      ensures id !in old(repo.items) ==> repo.items == old(repo.items) && books == old(books)
      ensures id in old(repo.items) ==>
                var was, now := old(repo.items)[id], repo.items[id];
                && repo.items == old(repo.items)[id := now] && SameContents(now, was)
                && (was.status in {Canceled, Refunded} ==> now == was && books[id].calls == old(books)[id].calls)
                && (now.status == Canceled || now == was)
                && (was.status !in {Canceled, Refunded} ==>
                      CancelCalls(books[id].calls, old(books)[id].calls, was, old(books)[id].begun, now != was))
                && (now == was && was.status !in {Canceled, Refunded} ==> was.status in {Paid, Confirmed})
                && books[id].events
                   == old(books)[id].events + if now == was then [] else Announced(now, [OrderCanceled])
    {
      var got := repo.Get(id);
      if got.Err? {
        return;
      }
      var t := books[id].begun;
      var b := books[id].(begun := t + 1);
      ghost var w := Opened(worlds[id], t, Request.Cancel, got.value, books[id]);
      var order;
      order, b, w := CancelStages(t, got.value, b, w);
      Close(id, b, w, old(repo.items));
    }

    /** The provider's refund and, once it is reported, the release of the reservation. */
    method PayBack(t: nat, order: Order, amount: int, b: Book, ghost w: World)
      returns (ok: bool, b': Book, ghost w': World)
      requires Holds(order, t, b, w) && w.threads[t].Working? && w.threads[t].order == order
      requires w.threads[t].at == Refunding(amount)
      modifies this`asked
      ensures b' == b.(calls := b'.calls) && Holds(order, t, b', w')
      ensures PayBackCalls(b'.calls, b.calls, order, t, amount, ok)
      ensures Pays(b'.calls) == Pays(b.calls) && Taken(b'.calls) == Taken(b.calls)
      ensures Returned(b'.calls) == Returned(b.calls) + if ok then amount else 0
      ensures w'.threads == w.threads[t :=
                if ok then Enter(w.threads[t].(at := ReleasingAfterRefund(amount)), Refunded,
                  ThenEmit(OrderRefunded(amount)))
                else Finished]
    {
      var r := Ask();
      w' := Follow(w, t, r);
      var refund := RefundCall(t, amount, order.currency, r.ok, r.status);
      MoneyAppend(b.calls, refund);
      b' := b.(calls := b.calls + [refund]);
      ok := r.ok && r.status.PaymentRefunded?;
      assert !ok ==> RepliedWith(b'.calls, b.calls, order, t, amount, ok, r, true);
      if ok {
        ghost var asked := b'.calls;
        b', w' := ReleaseRefunded(t, order, amount, b', w');
        ghost var done :| b'.calls == asked + [ReleaseCall(t, done)];
        assert b'.calls == b.calls + [refund, ReleaseCall(t, done)];
        assert RepliedWith(b'.calls, b.calls, order, t, amount, ok, r, done);
      }
    }

    /** The release that follows a reported refund. */
    method ReleaseRefunded(t: nat, order: Order, amount: int, b: Book, ghost w: World)
      returns (b': Book, ghost w': World)
      requires Holds(order, t, b, w) && w.threads[t].Working? && w.threads[t].order == order
      requires w.threads[t].at == ReleasingAfterRefund(amount)
      modifies this`asked
      ensures b' == b.(calls := b'.calls) && Holds(order, t, b', w')
      ensures exists done :: b'.calls == b.calls + [ReleaseCall(t, done)]
      ensures Pays(b'.calls) == Pays(b.calls) && Taken(b'.calls) == Taken(b.calls)
      ensures Returned(b'.calls) == Returned(b.calls)
      ensures w'.threads == w.threads[t := Enter(w.threads[t], Refunded, ThenEmit(OrderRefunded(amount)))]
    {
      var r := Ask();
      w' := Follow(w, t, r);
      MoneyAppend(b.calls, ReleaseCall(t, r.ok));
      b' := b.(calls := b.calls + [ReleaseCall(t, r.ok)]);
    }

    /** What Refund does after its first read. */
    method RefundStages(t: nat, order: Order, amountMinor: int, b: Book, ghost w: World)
      returns (updated: Order, b': Book, ghost w': World)
      requires Holds(order, t, b, w) && Balanced(order, b.calls)
      requires w.threads[t] == Dispatch(Request.Refund(amountMinor), order)
      modifies this`asked, repo
      ensures SameContents(updated, order) && repo.items == old(repo.items)[order.id := updated]
      ensures order.status !in {Paid, Confirmed} ==> updated == order && b' == b
      ensures order.status in {Paid, Confirmed} ==>
                PayBackCalls(b'.calls, b.calls, order, t,
                  if 0 < amountMinor <= order.amountMinor then amountMinor else order.amountMinor, updated != order)
      ensures PaidFor(order.status) && updated != order ==>
                && updated.status == Refunded
                && GivesBack(order, amountMinor, updated, Returned(b'.calls), b.events, b'.events)
      ensures PaidFor(order.status) && updated == order ==> Returned(b'.calls) == 0 && b'.events == b.events
      ensures Balanced(updated, b'.calls) && b'.begun == b.begun
      ensures Holds(updated, t, b', w') && w'.threads == w.threads[t := Finished]
    {
      updated, b', w' := order, b, w;
      if order.status == Refunded || !PaidFor(order.status) {
        return;
      }
      var amount := if amountMinor <= 0 || amountMinor > order.amountMinor then order.amountMinor else amountMinor;
      ghost var th := w.threads[t].(at := ReleasingAfterRefund(amount));
      var ok;
      ok, b', w' := PayBack(t, order, amount, b, w);
      if ok {
        updated, b', w' := Conclude(t, order, Refunded, OrderRefunded(amount), b', w', th);
      }
    }

    /**
      Refund ends in status refunded, having returned what was asked for, or everything if
      nothing or too much was asked for, and says so; or it changes no order.
     */
    method Refund(id: string, amountMinor: int)
      requires Valid()
      modifies this, repo
      ensures Valid() && repo.items.Keys == old(repo.items).Keys
      ensures id !in old(repo.items) ==> repo.items == old(repo.items) && books == old(books)
      ensures id in old(repo.items) ==>
                var was, now := old(repo.items)[id], repo.items[id];
                && repo.items == old(repo.items)[id := now] && SameContents(now, was)
                && (was.status !in {Paid, Confirmed} ==> now == was && books[id].calls == old(books)[id].calls)
                && (was.status in {Paid, Confirmed} ==>
                      PayBackCalls(books[id].calls, old(books)[id].calls, was, old(books)[id].begun,
                        if 0 < amountMinor <= was.amountMinor then amountMinor else was.amountMinor, now != was))
                && (now != was ==>
                      && now.status == Refunded
                      && (0 < amountMinor <= was.amountMinor ==>
                            && Returned(books[id].calls) == amountMinor
                            && books[id].events == old(books)[id].events + Announced(now, [OrderRefunded(amountMinor)]))
                      && (amountMinor <= 0 || amountMinor > was.amountMinor ==>
                            && Returned(books[id].calls) == was.amountMinor
                            && books[id].events
                               == old(books)[id].events + Announced(now, [OrderRefunded(was.amountMinor)])))
                && (now == was ==> books[id].events == old(books)[id].events)
                && (now == was && was.status in {Paid, Confirmed} ==> Returned(books[id].calls) == 0)
    {
      var got := repo.Get(id);
      if got.Err? {
        return;
      }
      var t := books[id].begun;
      var b := books[id].(begun := t + 1);
      ghost var w := Opened(worlds[id], t, Request.Refund(amountMinor), got.value, books[id]);
      var order;
      order, b, w := RefundStages(t, got.value, amountMinor, b, w);
      Close(id, b, w, old(repo.items));
    }

    /**
      What no sequence of non-overlapping calls can break: one payment at most, money
      held between nothing and the order's amount, a canceled order that was paid with a
      release and a refund that returned without error, a canceled order that was reserved
      with a release, a status backed by its calls, and one status event per stored
      version.  The money of a canceled order that was paid came back exactly when the
      refund of the canceling call, the last call made for it, was reported refunded.
     */
    lemma BetweenCalls(id: string)
      requires Valid() && id in repo.items
      ensures var o, b := repo.items[id], books[id];
              && Pays(b.calls) <= 1
              && 0 <= Taken(b.calls) - Returned(b.calls) <= o.amountMinor
              && (o.status == Canceled && WasPaid(b.calls, o) ==>
                    && Compensated(b.calls, o) && Taken(b.calls) == o.amountMinor && b.calls != []
                    && b.calls[|b.calls| - 1].RefundCall?
                    && (o.amountMinor > 0 ==>
                          (Returned(b.calls) == Taken(b.calls) <==> b.calls[|b.calls| - 1].status.PaymentRefunded?)))
              && (o.status == Canceled && HasReserve(b.calls) ==> SomeRelease(b.calls))
              && Evidence(b.calls, o, o.status)
              && o.version == StatusEvents(b.events)
    {
      var w := worlds[id];
      assert AtRest(w, repo.items[id], books[id]);
      var actions :| Run(EMPTY, actions) == w;
      StoredStatusIsEarned(actions);
      VersionCountsEvents(actions);
      assert EmittingThreads(w.threads) == {};
      KeptIsReserved(books[id].calls);
      ReleasesAreMade(books[id].calls);
      if repo.items[id].status == Canceled && WasPaid(books[id].calls, repo.items[id]) {
        EndIsCompensated(books[id].calls, repo.items[id]);
      }
    }
  }

  lemma EndIsCompensated(calls: seq<Call>, o: Order)
    requires EndsInRefund(calls, o)
    ensures Compensated(calls, o)
  {
    assert IsRelease(calls[|calls| - 2], calls[|calls| - 2].caller);
    assert IsFullRefund(calls[|calls| - 1], calls[|calls| - 1].caller, o);
  }

  /** The event of a stored status, and the outcomes that close the call. */
  function Announced(o: Order, kinds: seq<Kind>): seq<Event> {
    [StatusChanged(o.status, o.version)] + seq(|kinds|, i requires 0 <= i < |kinds| => Outcome(kinds[i]))
  }

  /** A refund of what was asked for, or of everything if nothing or too much was asked for. */
  predicate GivesBack(was: Order, asked: int, now: Order, returned: int, before: seq<Event>, after: seq<Event>) {
    && (0 < asked <= was.amountMinor ==> returned == asked && after == before + Announced(now, [OrderRefunded(asked)]))
    && (asked <= 0 || asked > was.amountMinor ==>
          returned == was.amountMinor && after == before + Announced(now, [OrderRefunded(was.amountMinor)]))
  }

  /** One refund of the amount, and one release after it exactly when it was reported refunded. */
  ghost predicate PayBackCalls(after: seq<Call>, before: seq<Call>, o: Order, t: nat, amount: int, ok: bool) {
    exists r: Reply, done: bool :: RepliedWith(after, before, o, t, amount, ok, r, done)
  }

  predicate RepliedWith(
    after: seq<Call>, before: seq<Call>, o: Order, t: nat, amount: int, ok: bool, r: Reply, done: bool) {
    var refund := RefundCall(t, amount, o.currency, r.ok, r.status);
    && (ok <==> r.ok && r.status.PaymentRefunded?)
    && after == before + if ok then [refund, ReleaseCall(t, done)] else [refund]
  }

  /** The compensating calls of a Cancel, appended to what was called before. */
  ghost predicate CancelCalls(after: seq<Call>, before: seq<Call>, o: Order, t: nat, ok: bool) {
    if o.status == Paid || o.status == Confirmed then
      && |after| == |before| + 2 && after[..|before|] == before
      && IsRelease(after[|before|], t)
      && after[|before| + 1].RefundCall? && after[|before| + 1].caller == t
      && after[|before| + 1].amount == o.amountMinor && after[|before| + 1].currency == o.currency
      && after[|before| + 1].ok == ok
    else if o.status == Reserved then
      |after| == |before| + 1 && after[..|before|] == before && IsRelease(after[|before|], t)
    else after == before
  }

  lemma MoneyAppendTwo(before: seq<Call>, after: seq<Call>, o: Order, t: nat, ok: bool)
    requires CancelCalls(after, before, o, t, ok)
    ensures Pays(after) == Pays(before) && Taken(after) == Taken(before) && Kept(after) == Kept(before)
    ensures Releases(after) == Releases(before) + if PaidFor(o.status) || o.status.Reserved? then 1 else 0
    ensures Returned(after) == Returned(before)
            + if PaidFor(o.status) && ok && after[|before| + 1].status.PaymentRefunded? then o.amountMinor else 0
  {
    if PaidFor(o.status) {
      assert after == before + [after[|before|]] + [after[|before| + 1]];
      MoneyAppend(before, after[|before|]);
      MoneyAppend(before + [after[|before|]], after[|before| + 1]);
    } else if o.status.Reserved? {
      assert after == before + [after[|before|]];
      MoneyAppend(before, after[|before|]);
    }
  }

  lemma BalanceRefused(o: Order, before: seq<Call>, after: seq<Call>, t: nat)
    requires Balanced(o, before) && PaidFor(o.status) && CancelCalls(after, before, o, t, false)
    ensures Balanced(o, after)
  {
    MoneyAppendTwo(before, after, o, t, false);
  }

  lemma BalanceCancel(o: Order, now: Order, before: seq<Call>, after: seq<Call>, t: nat)
    requires Balanced(o, before) && !Terminal(o.status) && CancelCalls(after, before, o, t, true)
    requires SameContents(o, now) && now.status == Canceled
    ensures Balanced(now, after)
  {
    MoneyAppendTwo(before, after, o, t, true);
    if !PaidFor(o.status) { PaidIffPays(after, now); }
  }

  /** The balance of a new order after its reservation was answered. */
  lemma NewOrderReserved(o: Order, now: Order, calls: seq<Call>, c: Call)
    requires Balanced(o, calls) && o.status == Pending && SameContents(now, o)
    requires c.ReserveCall? && now.status == if c.ok then Reserved else Canceled
    ensures Balanced(now, calls + [c])
  {
    BalanceReserve(now, calls, c);
  }

  lemma BalanceReserve(o: Order, calls: seq<Call>, c: Call)
    requires o.amountMinor >= 0 && Pays(calls) == 0 && Taken(calls) == 0 && Returned(calls) == 0
    requires c.ReserveCall? && o.status == (if c.ok then Reserved else Canceled) && Kept(calls) == 0
    ensures Balanced(o, calls + [c])
  {
    MoneyAppend(calls, c);
    PaidIffPays(calls + [c], o);
  }

  lemma BalancePay(o: Order, calls: seq<Call>, c: seq<Call>, t: nat, ok: bool)
    requires o.amountMinor >= 0 && Pays(calls) == 0 && Taken(calls) == 0 && Returned(calls) == 0
    requires PayCalls(c, o, t, ok) && o.status == if ok then Paid else Canceled
    ensures Balanced(o, calls + c)
  {
    MoneyAppend(calls, c[0]);
    if ok {
      assert calls + c == calls + [c[0]];
    } else {
      assert calls + c == calls + [c[0]] + [c[1]];
      MoneyAppend(calls + [c[0]], c[1]);
      DeclinedStaysUnpaid(o, calls, c, t);
    }
  }

  lemma DeclinedStaysUnpaid(o: Order, calls: seq<Call>, c: seq<Call>, t: nat)
    requires Pays(calls) == 0 && PayCalls(c, o, t, false)
    ensures !WasPaid(calls + c, o)
  {
    PaidIffPays(calls, o);
    var all := calls + c;
    forall i | 0 <= i < |all| ensures !GoodPay(all[i], o) {
      assert i < |calls| ==> all[i] == calls[i];
    }
  }

  /** What a payment step asks of the services: one payment, and a release if it did not go through. */
  predicate PayCalls(c: seq<Call>, o: Order, t: nat, ok: bool) {
    && |c| == (if ok then 1 else 2)
    && c[0].PayCall? && c[0].caller == t && c[0].amount == o.amountMinor && c[0].currency == o.currency
    && (GoodPay(c[0], o) <==> ok)
    && (!ok ==> IsRelease(c[1], t))
  }

  /**
    What a Start asks for from the status it read, and where it ends: a refused
    reservation cancels, a payment that did not go through releases and cancels, a paid
    order is confirmed without a call.
   */
  predicate StartDid(was: Order, now: OrderStatus, t: nat, c: seq<Call>) {
    match was.status
    case Pending =>
      && c != [] && c[0].ReserveCall? && c[0].caller == t
      && (if c[0].ok then (now == Confirmed || now == Canceled) && PayCalls(c[1..], was, t, now == Confirmed)
          else |c| == 1 && now == Canceled)
    case Reserved => (now == Confirmed || now == Canceled) && PayCalls(c, was, t, now == Confirmed)
    case Paid => c == [] && now == Confirmed
    case _ => c == [] && now == was.status
  }

  lemma ReservedFirst(before: seq<Call>, after: seq<Call>, t: nat, was: Order, reserved: Order, now: OrderStatus)
    requires before + [ReserveCall(t, true)] <= after && was.status == Pending && SameContents(was, reserved)
    requires PayCalls(after[|before| + 1..], reserved, t, now == Confirmed) && (now == Confirmed || now == Canceled)
    ensures before <= after && StartDid(was, now, t, after[|before|..])
  {
    assert after[|before|] == ReserveCall(t, true);
    assert after[|before|..][1..] == after[|before| + 1..];
  }

  /** The step machine takes the step the code takes. */
  lemma Follow(w: World, t: nat, r: Reply) returns (w': World)
    requires Reachable(w) && t in w.threads
    ensures Reachable(w') && w' == Apply(w, t, Step(t, w.threads[t], w.hist, r))
  {
    Reach(w, Act(t, r));
    w' := Next(w, Act(t, r));
  }
}
