/**
  What an observer of a run of the saga can write down beside the worlds: the first
  reads, the committed saves, the payments and reservations whose status was never
  stored and the answers to refunds.  Notes never influence the run.
 */
module SagaTrace {
  import opened Common
  import opened Orders
  import opened SagaProtocol

  /** A save that went through: for which request, over which status, after how many rejections, and when. */
  datatype Commit = Commit(
    caller: nat, request: Request, target: OrderStatus, attempt: nat, replaced: OrderStatus, now: int)

  datatype Read = Read(caller: nat, request: Request, status: OrderStatus)

  /** How a refund was answered; it is reported only if it came without error and as refunded. */
  datatype Answer = Answer(caller: nat, forCancel: bool, amount: int, ok: bool, reported: bool)

  datatype Notes = Notes(
    commits: seq<Commit>, firstReads: seq<Read>, unpaid: seq<nat>, unreserved: seq<nat>, answers: seq<Answer>)

  const BLANK := Notes([], [], [], [], [])

  /** A Start between a payment that went through and the save of status paid. */
  predicate SavingPaid(th: Thread) {
    th.Working? && (th.at.Saving? || th.at.Reloading?) && th.at.up.target.Paid?
  }

  /** A Start between a reservation that went through and the save of status reserved. */
  predicate SavingReserved(th: Thread) {
    th.Working? && (th.at.Saving? || th.at.Reloading?) && th.at.up.target.Reserved?
  }

  function NewAnswers(t: nat, th: Thread, r: Reply): seq<Answer> {
    var reported := r.ok && r.status.PaymentRefunded?;
    if !th.Working? then []
    else if th.at.RefundingForCancel? then [Answer(t, true, th.order.amountMinor, r.ok, reported)]
    else if th.at.Refunding? then [Answer(t, false, th.at.amount, r.ok, reported)]
    else []
  }

  function NewCommits(t: nat, th: Thread, e: Effect, r: Reply): seq<Commit> {
    if e.stored != [] && th.Working? && th.at.Saving?
    then [Commit(t, th.request, th.at.up.target, th.at.up.attempt, th.order.status, r.now)]
    else []
  }

  function NewReads(t: nat, th: Thread, hist: seq<Order>, r: Reply): seq<Read> {
    if th.Reading? && r.ok && hist != [] then [Read(t, th.request, Current(hist).status)] else []
  }

  function Observe(n: Notes, t: nat, th: Thread, hist: seq<Order>, r: Reply): Notes {
    var e := Step(t, th, hist, r);
    Notes(
      n.commits + NewCommits(t, th, e, r),
      n.firstReads + NewReads(t, th, hist, r),
      n.unpaid + (if SavingPaid(th) && e.thread.Finished? then [t] else []),
      n.unreserved + (if SavingReserved(th) && e.thread.Finished? then [t] else []),
      n.answers + NewAnswers(t, th, r))
  }

  function Noted(w: World, n: Notes, a: Action): Notes {
    if a.Act? && a.thread in w.threads then Observe(n, a.thread, w.threads[a.thread], w.hist, a.reply) else n
  }

  /** The notes of a whole run. */
  function NotesOf(w: World, n: Notes, actions: seq<Action>): Notes
    decreases |actions|
  {
    if actions == [] then n else NotesOf(Next(w, actions[0]), Noted(w, n, actions[0]), actions[1..])
  }

  // ------------------------------------------------------------------------- counting

  function Count<T>(s: seq<T>, p: T -> bool): nat {
    if s == [] then 0 else Count(s[..|s| - 1], p) + Bit(p(s[|s| - 1]))
  }

  /** A step appends at most one element. */
  lemma CountMore<T>(s: seq<T>, more: seq<T>, p: T -> bool)
    requires |more| <= 1
    ensures Count(s + more, p) == Count(s, p) + (if more == [] then 0 else Bit(p(more[0])))
  {
    if more == [] {
      assert s + more == s;
    } else {
      assert (s + more)[..|s|] == s;
    }
  }

  lemma {:induction false} CountPositive<T>(s: seq<T>, p: T -> bool)
    ensures Count(s, p) > 0 <==> exists i :: 0 <= i < |s| && p(s[i])
  {
    if s != [] {
      var n := |s| - 1;
      CountPositive(s[..n], p);
      if Count(s[..n], p) > 0 {
        var i :| 0 <= i < n && p(s[..n][i]);
        assert p(s[i]);
      } else if i :| 0 <= i < |s| && p(s[i]) {
        assert i < n ==> p(s[..n][i]);
      }
    }
  }

  /** The threads that stand at some kind of point. */
  function Standing(threads: map<nat, Thread>, p: Thread -> bool): set<nat> {
    set t | t in threads && p(threads[t])
  }

  lemma StandingUpdate(threads: map<nat, Thread>, t: nat, th: Thread, p: Thread -> bool)
    ensures |Standing(threads[t := th], p)|
            == |Standing(threads, p)| - Bit(t in threads && p(threads[t])) + Bit(p(th))
  {
    var s := Standing(threads, p);
    assert Standing(threads[t := th], p) == if p(th) then s + {t} else s - {t};
    assert t in s <==> t in threads && p(threads[t]);
  }
}
