/**
  The saga as a step machine for one order: any number of Start, Cancel and
  Refund calls run as threads, and every read, external call, compare-and-set
  save, reload and event emission is one atomic step.  What the environment
  decides (which thread moves, what a service answers, what the clock shows) is
  carried by the actions, so a run is a sequence of actions and `Run` is a function.
 */
module SagaProtocol {
  import opened Orders

  datatype PaymentStatus = PaymentPending | Authorized | Captured | PaymentRefunded | PaymentFailed

  /** Calls into the inventory and payment services, with the calling thread and the answer. */
  datatype Call =
    | ReserveCall(caller: nat, ok: bool)
    | ReleaseCall(caller: nat, ok: bool)
    | PayCall(caller: nat, amount: int, currency: string, ok: bool, status: PaymentStatus)
    | RefundCall(caller: nat, amount: int, currency: string, ok: bool, status: PaymentStatus)

  datatype Request = Start | Cancel | Refund(amount: int)

  datatype Kind = SagaFailed | OrderCanceled | OrderRefunded(amount: int)

  /** Outbox messages.  `version` records which stored version a status event announces. */
  datatype Event =
    | StatusChanged(status: OrderStatus, version: int)
    | Outcome(kind: Kind)

  /** One attempt to save, made by the `update`-th updateStatus call of thread `caller`. */
  datatype SaveTry = SaveTry(caller: nat, update: nat, ok: bool)

  /** What a call does once updateStatus has returned without error. */
  datatype Then = ThenPay | ThenConfirm | ThenEmit(kind: Kind) | ThenReturn

  datatype Update = Update(target: OrderStatus, attempt: nat, next: Then)

  /** The program point a call stands at. */
  datatype Point =
    | Reserving
    | Paying
    | ReleasingAfterFailure
    | ReleasingForCancel
    | RefundingForCancel
    | Refunding(amount: int)
    | ReleasingAfterRefund(amount: int)
    | Saving(up: Update)
    | Reloading(up: Update)
    | EmittingStatus(up: Update)
    | EmittingOutcome(kind: Kind)

  /** `seen` is the status of the first read; `updates` counts updateStatus calls. */
  datatype Thread =
    | Reading(request: Request)
    | Working(request: Request, seen: OrderStatus, order: Order, updates: nat, at: Point)
    | Finished

  /** The environment's answer: `ok` false is a service or storage error. */
  datatype Reply = Reply(ok: bool, status: PaymentStatus, now: int)

  datatype Action =
    | Create(order: Order)
    | Spawn(thread: nat, request: Request)
    | Act(thread: nat, reply: Reply)

  /** `hist[v]` is the v-th value ever stored; its last element is the store's content. */
  datatype World = World(
    hist: seq<Order>,
    saves: seq<SaveTry>,
    calls: seq<Call>,
    events: seq<Event>,
    threads: map<nat, Thread>)

  const EMPTY := World([], [], [], [], map[])
  const MAX_RETRIES := 3

  // ------------------------------------------------------------------ steps

  function Current(hist: seq<Order>): Order
    requires hist != []
  {
    hist[|hist| - 1]
  }

  function Rank(next: Then): nat {
    if next.ThenConfirm? then 1 else 0
  }

  /** A thread that moved on without touching its copy and stands at the start of a step. */
  predicate Moved(th: Thread, r: Thread)
    requires th.Working?
  {
    !r.Finished? ==>
      && r.Working?
      && r.request == th.request && r.seen == th.seen && r.order == th.order
      && (r.at.Paying? || r.at.EmittingOutcome? || (r.at.Saving? && r.at.up.attempt == 0))
  }

  /** Entry of updateStatus: nothing to do when the copy already has the status. */
  function Enter(th: Thread, target: OrderStatus, next: Then): (r: Thread)
    requires th.Working?
    ensures Moved(th, r)
    decreases Rank(next), 1
  {
    if th.order.status == target
    then Continue(th.(updates := th.updates + 1), next)
    else th.(updates := th.updates + 1, at := Saving(Update(target, 0, next)))
  }

  /** Where a call goes when updateStatus returns nil. */
  function Continue(th: Thread, next: Then): (r: Thread)
    requires th.Working?
    ensures Moved(th, r)
    decreases Rank(next), 0
  {
    match next
    case ThenPay => th.(at := Paying)
    case ThenConfirm => Enter(th, Confirmed, ThenReturn)
    case ThenEmit(kind) => th.(at := EmittingOutcome(kind))
    case ThenReturn => Finished
  }

  function RefundAmount(requested: int, order: Order): int {
    if requested <= 0 || requested > order.amountMinor then order.amountMinor else requested
  }

  predicate PaidFor(s: OrderStatus) {
    s.Paid? || s.Confirmed?
  }

  /** The branch taken on the status that was read. */
  function Dispatch(request: Request, o: Order): Thread {
    var th := Working(request, o.status, o, 0, Reserving);
    match request
    case Start =>
      (match o.status
       case Pending => th
       case Reserved => th.(at := Paying)
       case Paid => Enter(th, Confirmed, ThenReturn)
       case _ => Finished)
    case Cancel =>
      if Terminal(o.status) then Finished
      else if o.status.Pending? then Enter(th, Canceled, ThenEmit(OrderCanceled))
      else th.(at := ReleasingForCancel)
    case Refund(amount) =>
      if PaidFor(o.status) then th.(at := Refunding(RefundAmount(amount, o))) else Finished
  }

  /** What one step of a thread does: its next state and at most one effect of each kind. */
  datatype Effect = Effect(
    thread: Thread, stored: seq<Order>, tried: seq<SaveTry>, called: seq<Call>, emitted: seq<Event>)

  function Silent(th: Thread): Effect {
    Effect(th, [], [], [], [])
  }

  function Calls(th: Thread, c: Call): Effect {
    Effect(th, [], [], [c], [])
  }

  function Step(t: nat, th: Thread, hist: seq<Order>, r: Reply): Effect {
    match th
    case Finished => Silent(th)
    case Reading(request) =>
      if !r.ok || hist == [] then Silent(Finished) else Silent(Dispatch(request, Current(hist)))
    case Working(_, _, order, updates, at) =>
      match at
      case Reserving =>
        Calls(if r.ok then Enter(th, Reserved, ThenPay) else Enter(th, Canceled, ThenEmit(SagaFailed)),
              ReserveCall(t, r.ok))
      case Paying =>
        Calls(if r.ok && (r.status.Captured? || r.status.Authorized?) then Enter(th, Paid, ThenConfirm)
              else th.(at := ReleasingAfterFailure),
              PayCall(t, order.amountMinor, order.currency, r.ok, r.status))
      case ReleasingAfterFailure =>
        Calls(Enter(th, Canceled, ThenEmit(SagaFailed)), ReleaseCall(t, r.ok))
      case ReleasingForCancel =>
        Calls(if PaidFor(order.status) then th.(at := RefundingForCancel)
              else Enter(th, Canceled, ThenEmit(OrderCanceled)),
              ReleaseCall(t, r.ok))
      case RefundingForCancel =>
        Calls(if r.ok then Enter(th, Canceled, ThenEmit(OrderCanceled)) else Finished,
              RefundCall(t, order.amountMinor, order.currency, r.ok, r.status))
      case Refunding(amount) =>
        Calls(if r.ok && r.status.PaymentRefunded? then th.(at := ReleasingAfterRefund(amount)) else Finished,
              RefundCall(t, amount, order.currency, r.ok, r.status))
      case ReleasingAfterRefund(amount) =>
        Calls(Enter(th, Refunded, ThenEmit(OrderRefunded(amount))), ReleaseCall(t, r.ok))
      case Saving(up) => StepSave(t, th, hist, r)
      case Reloading(up) =>
        if !r.ok || hist == [] then Silent(Finished)
        else Silent(th.(order := Current(hist), at := Saving(up.(attempt := up.attempt + 1))))
      case EmittingStatus(up) =>
        Effect(Continue(th, up.next), [], [], [], [StatusChanged(order.status, order.version)])
      case EmittingOutcome(kind) =>
        Effect(Finished, [], [], [], [Outcome(kind)])
  }

  /** One pass of the updateStatus loop up to the answer of Save. */
  function StepSave(t: nat, th: Thread, hist: seq<Order>, r: Reply): Effect
    requires th.Working? && th.at.Saving?
  {
    var up, order := th.at.up, th.order;
    if Terminal(order.status) && up.target != order.status then Silent(Finished)
    else if !r.ok || hist == [] then Effect(Finished, [], [SaveTry(t, th.updates, false)], [], [])
    else if Current(hist).version != order.version then
      Effect(if up.attempt < MAX_RETRIES - 1 then th.(at := Reloading(up)) else Finished,
             [], [SaveTry(t, th.updates, false)], [], [])
    else
      var next := order.(status := up.target, updatedAt := r.now, version := order.version + 1);
      Effect(th.(order := next, at := EmittingStatus(up)), [next], [SaveTry(t, th.updates, true)], [], [])
  }

  function Apply(w: World, t: nat, e: Effect): World {
    World(w.hist + e.stored, w.saves + e.tried, w.calls + e.called, w.events + e.emitted, w.threads[t := e.thread])
  }

  function Next(w: World, a: Action): World {
    match a
    case Create(order) => if w.hist == [] && NewOrder(order) then w.(hist := [order]) else w
    case Spawn(t, request) => if t in w.threads then w else w.(threads := w.threads[t := Reading(request)])
    case Act(t, r) => if t in w.threads then Apply(w, t, Step(t, w.threads[t], w.hist, r)) else w
  }

  function Run(w: World, actions: seq<Action>): World
    decreases |actions|
  {
    if actions == [] then w else Run(Next(w, actions[0]), actions[1..])
  }
}
