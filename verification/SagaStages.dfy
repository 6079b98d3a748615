/**
  The order of statuses.  A save that commits at its first attempt moves the order along
  an intended edge; a history goes backwards exactly where a save commits after a
  rejection over a status its target may not follow.
 */
module SagaStages {
  import opened Orders
  import opened SagaProtocol
  import opened SagaSafety
  import opened SagaTrace

  /** The status changes the saga is meant to make. */
  predicate Forward(from: OrderStatus, to: OrderStatus) {
    match to
    case Pending => false
    case Reserved => from.Pending?
    case Paid => from.Reserved?
    case Confirmed => from.Paid?
    case Canceled => !Terminal(from)
    case Refunded => PaidFor(from)
  }

  /** Later stages follow the status that is being written, and only that one. */
  predicate Chained(up: Update) {
    match up.target
    case Pending => false
    case Reserved => up.next.ThenPay?
    case Paid => up.next.ThenConfirm?
    case Confirmed => up.next.ThenReturn?
    case Canceled => up.next.ThenEmit?
    case Refunded => up.next.ThenEmit?
  }

  /** Each kind of call is closed by its own event. */
  predicate Closing(request: Request, next: Then) {
    next.ThenEmit? ==>
      match request
      case Start => next.kind.SagaFailed?
      case Cancel => next.kind.OrderCanceled?
      case Refund(_) => next.kind.OrderRefunded?
  }

  /** What a call's copy looks like at each of its points. */
  predicate Stage(th: Thread) {
    th.Working? ==>
      match th.at
      case Reserving => th.order.status.Pending? && th.request.Start?
      case Paying => th.order.status.Reserved? && th.request.Start?
      case ReleasingAfterFailure => th.order.status.Reserved? && th.request.Start?
      case ReleasingForCancel => !Terminal(th.order.status) && th.order.status == th.seen && th.request.Cancel?
      case RefundingForCancel => PaidFor(th.order.status) && th.order.status == th.seen && th.request.Cancel?
      case Refunding(_) => PaidFor(th.order.status) && th.request.Refund?
      case ReleasingAfterRefund(_) => PaidFor(th.order.status) && th.request.Refund?
      case Saving(up) => Planned(th.request, up) && (up.attempt == 0 ==> Forward(th.order.status, up.target))
      case Reloading(up) => Planned(th.request, up)
      case EmittingStatus(up) => Planned(th.request, up) && th.order.status == up.target
      case EmittingOutcome(kind) => Closing(th.request, ThenEmit(kind))
  }

  predicate Planned(request: Request, up: Update) {
    Chained(up) && Wanted(request, up.target) && Closing(request, up.next)
  }

  /** The statuses each kind of call writes. */
  predicate Wanted(request: Request, target: OrderStatus) {
    match request
    case Start => !target.Refunded?
    case Cancel => target.Canceled?
    case Refund(_) => target.Refunded?
  }

  lemma EnterStage(th: Thread, target: OrderStatus, next: Then)
    requires th.Working? && Forward(th.order.status, target) && Planned(th.request, Update(target, 0, next))
    ensures Stage(Enter(th, target, next)) && Enter(th, target, next).at == Saving(Update(target, 0, next))
  {}

  lemma ContinueStage(th: Thread, up: Update)
    requires th.Working? && Planned(th.request, up) && th.order.status == up.target
    ensures Stage(Continue(th, up.next))
  {
    if up.next.ThenConfirm? { EnterStage(th, Confirmed, ThenReturn); }
  }

  lemma StepStage(t: nat, th: Thread, hist: seq<Order>, r: Reply)
    requires Stage(th)
    ensures Stage(Step(t, th, hist, r).thread)
  {
    if th.Working? && th.at.EmittingStatus? { ContinueStage(th, th.at.up); }
  }

  /** A rejected save means that something was stored since. */
  ghost predicate Rejected(hist: seq<Order>, th: Thread) {
    th.Working? ==>
      && (th.at.Reloading? ==> |hist| > 1)
      && (th.at.Saving? && th.at.up.attempt > 0 ==> th.order.version > 0)
  }

  lemma StepRejected(t: nat, th: Thread, hist: seq<Order>, r: Reply)
    requires HistoryOk(hist) && CopyOk(hist, th) && Rejected(hist, th)
    ensures Rejected(hist + Step(t, th, hist, r).stored, Step(t, th, hist, r).thread)
  {}

  // ------------------------------------------------------------------- committed saves

  /** A commit whose target may follow the status it found; after a rejection reserved never may. */
  predicate MayFollow(c: Commit) {
    match c.target
    case Pending => false
    case Reserved => c.attempt == 0
    case Paid => c.replaced.Reserved?
    case Confirmed => c.replaced.Paid?
    case Canceled => !c.replaced.Canceled?
    case Refunded => PaidFor(c.replaced)
  }

  /** Commit i replaced hist[i] by hist[i + 1]; first attempts go forward and new orders never return. */
  ghost predicate CommitOk(hist: seq<Order>, c: Commit, i: nat)
    requires i + 1 < |hist|
  {
    && c.replaced == hist[i].status && c.target == hist[i + 1].status
    && (c.attempt == 0 ==> Forward(c.replaced, c.target))
    && (c.attempt > 0 ==> !c.replaced.Pending?)
    && (Terminal(c.replaced) ==> c.target == c.replaced)
    && c.now == hist[i + 1].updatedAt && Wanted(c.request, c.target)
  }

  ghost predicate CommitsOk(hist: seq<Order>, commits: seq<Commit>) {
    && (hist == [] ==> commits == [])
    && (hist != [] ==> |hist| == |commits| + 1)
    && (forall i | 0 <= i < |commits| :: CommitOk(hist, commits[i], i))
    && (forall v | 1 <= v < |hist| :: !hist[v].status.Pending?)
  }

  lemma StepCommits(t: nat, th: Thread, hist: seq<Order>, r: Reply)
    requires HistoryOk(hist) && CopyOk(hist, th) && Stage(th) && Rejected(hist, th)
    requires forall v | 1 <= v < |hist| :: !hist[v].status.Pending?
    ensures var e := Step(t, th, hist, r);
            var c := NewCommits(t, th, e, r);
            && |e.stored| == |c| <= 1
            && (c != [] ==> hist != [] && CommitOk(hist + e.stored, c[0], |hist| - 1) && !c[0].target.Pending?)
  {
    var e := Step(t, th, hist, r);
    if e.stored != [] {
      assert th.Working? && th.at.Saving? && th.order == Current(hist);
    }
  }

  lemma CommitsAppend(hist: seq<Order>, commits: seq<Commit>, o: Order, c: Commit)
    requires hist != [] && CommitsOk(hist, commits) && !o.status.Pending? && CommitOk(hist + [o], c, |hist| - 1)
    ensures CommitsOk(hist + [o], commits + [c])
  {
    var longer, all := hist + [o], commits + [c];
    forall i | 0 <= i < |all| ensures CommitOk(longer, all[i], i) {
      if i < |commits| {
        assert CommitOk(hist, commits[i], i) && longer[i] == hist[i] && longer[i + 1] == hist[i + 1];
      }
    }
  }

  ghost predicate Staged(w: World, n: Notes) {
    && (forall t | t in w.threads :: Stage(w.threads[t]) && Rejected(w.hist, w.threads[t]))
    && CommitsOk(w.hist, n.commits)
  }

  lemma ActStaged(w: World, n: Notes, t: nat, r: Reply)
    requires Safe(w) && Staged(w, n) && t in w.threads
    ensures Staged(Apply(w, t, Step(t, w.threads[t], w.hist, r)), Observe(n, t, w.threads[t], w.hist, r))
  {
    var th, e := w.threads[t], Step(t, w.threads[t], w.hist, r);
    var c := NewCommits(t, th, e, r);
    StepStage(t, th, w.hist, r);
    StepRejected(t, th, w.hist, r);
    StepCommits(t, th, w.hist, r);
    if c != [] {
      assert e.stored == [e.stored[0]] && c == [c[0]];
      CommitsAppend(w.hist, n.commits, e.stored[0], c[0]);
    } else {
      assert w.hist + e.stored == w.hist && n.commits + c == n.commits;
    }
  }

  lemma NextStaged(w: World, n: Notes, a: Action)
    requires Safe(w) && Staged(w, n)
    ensures Staged(Next(w, a), Noted(w, n, a))
  {
    if a.Act? && a.thread in w.threads { ActStaged(w, n, a.thread, a.reply); }
  }

  lemma {:induction false} RunStaged(w: World, n: Notes, actions: seq<Action>)
    requires Safe(w) && Staged(w, n)
    ensures Safe(Run(w, actions)) && Staged(Run(w, actions), NotesOf(w, n, actions))
    decreases |actions|
  {
    if actions != [] {
      NextSafe(w, actions[0]);
      NextStaged(w, n, actions[0]);
      RunStaged(Next(w, actions[0]), Noted(w, n, actions[0]), actions[1..]);
    }
  }

  // ------------------------------------------------------------------------- theorems

  ghost predicate GoesForward(hist: seq<Order>) {
    forall v | 0 <= v < |hist| - 1 :: Forward(hist[v].status, hist[v + 1].status)
  }

  /** On every interleaving a save that commits at its first attempt makes an intended change. */
  lemma FirstSaveGoesForward(actions: seq<Action>, t: nat, r: Reply)
    requires var w := Run(EMPTY, actions);
             && t in w.threads && w.threads[t].Working? && w.threads[t].at.Saving? && w.threads[t].at.up.attempt == 0
             && Step(t, w.threads[t], w.hist, r).stored != []
    ensures var w := Run(EMPTY, actions);
            Forward(Current(w.hist).status, Step(t, w.threads[t], w.hist, r).stored[0].status)
  {
    RunStaged(EMPTY, BLANK, actions);
    var w := Run(EMPTY, actions);
    StepCommits(t, w.threads[t], w.hist, r);
    assert (w.hist + Step(t, w.threads[t], w.hist, r).stored)[|w.hist| - 1] == Current(w.hist);
  }

  predicate Steady(c: Commit) {
    c.attempt == 0 || MayFollow(c)
  }

  lemma ForwardByCommits(hist: seq<Order>, commits: seq<Commit>)
    requires CommitsOk(hist, commits)
    ensures GoesForward(hist) <==> forall i | 0 <= i < |commits| :: Steady(commits[i])
    ensures forall i | 0 <= i < |commits| :: Steady(commits[i]) <==> Forward(commits[i].replaced, commits[i].target)
  {
    forall i | 0 <= i < |commits|
      ensures Steady(commits[i]) <==> Forward(commits[i].replaced, commits[i].target)
      ensures Steady(commits[i]) <==> Forward(hist[i].status, hist[i + 1].status)
    {
      assert CommitOk(hist, commits[i], i);
    }
    if GoesForward(hist) {
      forall i | 0 <= i < |commits| ensures Steady(commits[i]) {
        assert Forward(hist[i].status, hist[i + 1].status);
      }
    }
    if forall i | 0 <= i < |commits| :: Steady(commits[i]) {
      forall v | 0 <= v < |hist| - 1 ensures Forward(hist[v].status, hist[v + 1].status) {
        assert Steady(commits[v]);
      }
    }
  }

  /**
    On every interleaving statuses only moved forward exactly when every save that
    committed after a rejection found a status its target may follow.  A reserved status
    written after a rejection never does, because a new order never comes back; a
    canceled one fails only over a canceled order.
   */
  lemma HistoryGoesForward(actions: seq<Action>)
    ensures var w, n := Run(EMPTY, actions), NotesOf(EMPTY, BLANK, actions);
            && CommitsOk(w.hist, n.commits)
            && (GoesForward(w.hist) <==> forall i | 0 <= i < |n.commits| :: Steady(n.commits[i]))
            && forall i | 0 <= i < |n.commits| ::
                 Steady(n.commits[i]) <==> Forward(n.commits[i].replaced, n.commits[i].target)
  {
    RunStaged(EMPTY, BLANK, actions);
    ForwardByCommits(Run(EMPTY, actions).hist, NotesOf(EMPTY, BLANK, actions).commits);
  }
}
