/**
  One idempotency key under any interleaving of requests and cleanup.  Claiming the
  key, running the handler, caching its outcome and deleting the record are atomic
  steps, and so is the passing of time.  The n-th record ever created under the key is
  its n-th incarnation.
 */
module IdempotencyProtocol {
  import opened Common
  import opened IdempotencyStore
  import opened IdempotencyWrapper

  datatype Live = Live(incarnation: nat, hash: string, ttlAt: int, status: RecordStatus, body: Body, code: int)

  /** What a request that won the key holds: its record, and how many cleanups had looked at the key by then. */
  datatype Ticket = Ticket(hash: string, ttlAt: int, incarnation: nat, since: nat)

  datatype Request =
    | Arriving(hash: string, ttlAt: int)
    | Running(ticket: Ticket)
    | Caching(ticket: Ticket, result: Result)
    | Answered(hash: string, answer: Answer)

  datatype Ran = Ran(incarnation: nat, result: Result)

  datatype World = World(
    now: int,
    record: Option<Live>,
    created: nat,
    deleted: nat,
    cutoffs: seq<int>,
    ran: seq<Ran>,
    requests: map<nat, Request>)

  /**
    `cached` is false when the outcome could not be encoded or stored.  A cutoff is a past
    reading of the clock; a pass that is canceled or limited may not have `reached` this key.
   */
  datatype Action =
    | Tick(elapsed: nat)
    | Arrive(id: nat, hash: string)
    | Act(id: nat, result: Result, cached: bool)
    | Cleanup(cutoff: int, reached: bool)

  const EMPTY := World(0, None, 0, 0, [], [], map[])

  const MISMATCH := "idempotency key is already used with different request payload"

  function Claim(w: World, id: nat, hash: string, ttlAt: int): World {
    match w.record
    case None =>
      var n := w.created + 1;
      w.(record := Some(Live(n, hash, ttlAt, Processing, NoBody, 0)), created := n,
         requests := w.requests[id := Running(Ticket(hash, ttlAt, n, |w.cutoffs|))])
    case Some(r) =>
      var answer := if r.hash != hash then Error(ALREADY_EXISTS, MISMATCH) else Replay(r.status, r.body, r.code);
      w.(requests := w.requests[id := Answered(hash, answer)])
  }

  function Store(record: Option<Live>, result: Result): Option<Live> {
    if record.None? then None
    else Some(record.value.(status := StatusOf(result), body := CachedBody(result), code := CachedCode(result)))
  }

  /** The n-th step of a request: claim the key, run the handler, cache the outcome. */
  function Advance(w: World, id: nat, result: Result, cached: bool): World
    requires id in w.requests
  {
    match w.requests[id]
    case Arriving(hash, ttlAt) => Claim(w, id, hash, ttlAt)
    case Running(k) =>
      w.(ran := w.ran + [Ran(k.incarnation, result)], requests := w.requests[id := Caching(k, result)])
    case Caching(k, outcome) =>
      w.(record := if cached then Store(w.record, outcome) else w.record,
         requests := w.requests[id := Answered(k.hash, Direct(outcome))])
    case Answered(_, _) => w
  }

  /** Only records whose time to live ended by the cutoff are deleted. */
  function Sweep(w: World, cutoff: int): World {
    var w' := w.(cutoffs := w.cutoffs + [cutoff]);
    if w.record.Some? && w.record.value.ttlAt <= cutoff then w'.(record := None, deleted := w.deleted + 1) else w'
  }

  function Next(w: World, a: Action): World {
    match a
    case Tick(elapsed) => w.(now := w.now + elapsed)
    case Arrive(id, hash) =>
      if id in w.requests then w else w.(requests := w.requests[id := Arriving(hash, w.now + DAY)])
    case Cleanup(cutoff, reached) => if cutoff > w.now || !reached then w else Sweep(w, cutoff)
    case Act(id, result, cached) => if id in w.requests then Advance(w, id, result, cached) else w
  }

  function Run(w: World, actions: seq<Action>): World
    decreases |actions|
  {
    if actions == [] then w else Run(Next(w, actions[0]), actions[1..])
  }

  // ------------------------------------------------------- bookkeeping

  predicate InFlight(q: Request) {
    q.Running? || q.Caching?
  }

  function RunningIds(requests: map<nat, Request>): set<nat> {
    set id | id in requests && requests[id].Running?
  }

  /** Every record ever created was deleted or lives, and its handler ran or is about to. */
  ghost predicate Counted(w: World) {
    && w.created == w.deleted + (if w.record.Some? then 1 else 0)
    && (w.record.Some? ==> w.record.value.incarnation == w.created)
    && w.created == |w.ran| + |RunningIds(w.requests)|
  }

  ghost predicate Clocked(w: World) {
    forall i | 0 <= i < |w.cutoffs| :: w.cutoffs[i] <= w.now
  }

  /** No cleanup that came to this key since it was claimed has reached the record's time to live. */
  ghost predicate Unexpired(w: World, k: Ticket) {
    forall i | k.since <= i < |w.cutoffs| :: w.cutoffs[i] < k.ttlAt
  }

  predicate Owns(w: World, k: Ticket) {
    w.record.Some? && w.record.value.incarnation == k.incarnation
  }

  /** A record lives until a cleanup reaches its time to live, with the hash and the time it was claimed with. */
  ghost predicate TicketOk(w: World, k: Ticket) {
    && 1 <= k.incarnation <= w.created && k.since <= |w.cutoffs|
    && (Owns(w, k) <==> Unexpired(w, k))
    && (Owns(w, k) ==> w.record.value.hash == k.hash && w.record.value.ttlAt == k.ttlAt)
  }

  ghost predicate Ticketed(w: World) {
    forall id | id in w.requests && InFlight(w.requests[id]) :: TicketOk(w, w.requests[id].ticket)
  }

  /** Requests in flight hold different incarnations. */
  ghost predicate Distinct(requests: map<nat, Request>) {
    forall i, j | i in requests && j in requests && i != j && InFlight(requests[i]) && InFlight(requests[j]) ::
      requests[i].ticket.incarnation != requests[j].ticket.incarnation
  }

  /** An outcome about to be cached is the one that ran. */
  ghost predicate Truthful(w: World) {
    forall id | id in w.requests && w.requests[id].Caching? ::
      Ran(w.requests[id].ticket.incarnation, w.requests[id].result) in w.ran
  }

  ghost predicate Owned(w: World) {
    Counted(w) && Clocked(w) && Ticketed(w) && Distinct(w.requests) && Truthful(w)
  }

  lemma RunningUpdate(requests: map<nat, Request>, id: nat, q: Request)
    ensures RunningIds(requests[id := q]) == if q.Running? then RunningIds(requests) + {id}
            else RunningIds(requests) - {id}
  {
  }

  lemma AdvanceCounted(w: World, id: nat, result: Result, cached: bool)
    requires Counted(w) && id in w.requests
    ensures Counted(Advance(w, id, result, cached))
  {
    RunningUpdate(w.requests, id, Advance(w, id, result, cached).requests[id]);
    assert id in RunningIds(w.requests) <==> w.requests[id].Running?;
  }

  lemma NextCounted(w: World, a: Action)
    requires Counted(w)
    ensures Counted(Next(w, a))
  {
    if a.Arrive? && a.id !in w.requests {
      RunningUpdate(w.requests, a.id, Arriving(a.hash, w.now + DAY));
      assert a.id !in RunningIds(w.requests);
    }
    if a.Act? && a.id in w.requests { AdvanceCounted(w, a.id, a.result, a.cached); }
  }

  lemma NextClocked(w: World, a: Action)
    requires Clocked(w)
    ensures Clocked(Next(w, a))
  {
  }

  /** A ticket keeps its meaning through every step. */
  lemma TicketKept(w: World, a: Action, k: Ticket)
    requires Counted(w) && TicketOk(w, k)
    ensures TicketOk(Next(w, a), k)
  {
    var w' := Next(w, a);
    if a.Cleanup? && a.cutoff <= w.now && a.reached {
      SweepKeepsTicket(w, a.cutoff, k);
    } else {
      assert w'.cutoffs == w.cutoffs;
      assert Unexpired(w', k) <==> Unexpired(w, k);
    }
  }

  lemma SweepKeepsTicket(w: World, cutoff: int, k: Ticket)
    requires TicketOk(w, k)
    ensures TicketOk(Sweep(w, cutoff), k)
  {
    var w' := Sweep(w, cutoff);
    assert forall i | 0 <= i < |w.cutoffs| :: w'.cutoffs[i] == w.cutoffs[i];
    assert w'.cutoffs[|w.cutoffs|] == cutoff;
    assert Unexpired(w', k) <==> Unexpired(w, k) && cutoff < k.ttlAt;
  }

  /** How a step changes the request it belongs to. */
  lemma AdvanceTicket(w: World, id: nat, result: Result, cached: bool)
    requires Counted(w) && id in w.requests && Ticketed(w)
    ensures var w' := Advance(w, id, result, cached);
            var q, q' := w.requests[id], w'.requests[id];
            && w'.requests == w.requests[id := q']
            && (InFlight(q') ==>
                  if InFlight(q) then q'.ticket == q.ticket
                  else TicketOk(w', q'.ticket) && q'.ticket.incarnation == w.created + 1)
  {
  }

  lemma NextTicketed(w: World, a: Action)
    requires Counted(w) && Ticketed(w)
    ensures Ticketed(Next(w, a))
  {
    var w' := Next(w, a);
    if a.Act? && a.id in w.requests { AdvanceTicket(w, a.id, a.result, a.cached); }
    forall id | id in w'.requests && InFlight(w'.requests[id]) ensures TicketOk(w', w'.requests[id].ticket) {
      if id in w.requests && InFlight(w.requests[id]) { TicketKept(w, a, w.requests[id].ticket); }
    }
  }

  lemma NextDistinct(w: World, a: Action)
    requires Counted(w) && Ticketed(w) && Distinct(w.requests)
    ensures Distinct(Next(w, a).requests)
  {
    if a.Act? && a.id in w.requests { AdvanceTicket(w, a.id, a.result, a.cached); }
  }

  lemma NextTruthful(w: World, a: Action)
    requires Truthful(w)
    ensures Truthful(Next(w, a))
  {
    assert forall x | x in w.ran :: x in Next(w, a).ran;
  }

  lemma NextOwned(w: World, a: Action)
    requires Owned(w)
    ensures Owned(Next(w, a))
  {
    NextCounted(w, a);
    NextClocked(w, a);
    NextTicketed(w, a);
    NextDistinct(w, a);
    NextTruthful(w, a);
  }

  lemma {:induction false} RunOwned(w: World, actions: seq<Action>)
    requires Owned(w)
    ensures Owned(Run(w, actions))
    decreases |actions|
  {
    if actions != [] {
      NextOwned(w, actions[0]);
      RunOwned(Next(w, actions[0]), actions[1..]);
    }
  }

  lemma NothingOwned()
    ensures Owned(EMPTY)
  {
    assert RunningIds(EMPTY.requests) == {};
  }

  /**
    On every interleaving the handler runs at most once for each record that lives or
    was deleted, so at most once more than the key was deleted.
   */
  lemma HandlerRunsBounded(actions: seq<Action>)
    ensures var w := Run(EMPTY, actions);
            && |w.ran| + |RunningIds(w.requests)| == w.deleted + (if w.record.Some? then 1 else 0)
            && |w.ran| <= w.deleted + 1
  {
    NothingOwned();
    RunOwned(EMPTY, actions);
  }

  // ------------------------------------------------------ where outcomes land

  /**
    On every interleaving the record a request claimed still stands, and so takes its
    outcome, exactly when no cleanup that came to it since reached its time to live;
    in particular always before that time.
   */
  lemma OutcomeLandsHome(actions: seq<Action>, id: nat)
    requires var w := Run(EMPTY, actions); id in w.requests && InFlight(w.requests[id])
    ensures var w := Run(EMPTY, actions);
            var k := w.requests[id].ticket;
            && (Owns(w, k) <==> Unexpired(w, k))
            && (w.now < k.ttlAt ==> Owns(w, k))
  {
    NothingOwned();
    RunOwned(EMPTY, actions);
  }

  ghost predicate Due(q: Request, at: int) {
    (q.Arriving? ==> q.ttlAt == at) && (InFlight(q) ==> q.ticket.ttlAt == at)
  }

  lemma {:induction false} DeadlineStays(w: World, actions: seq<Action>, id: nat, at: int)
    requires id in w.requests && Due(w.requests[id], at)
    ensures id in Run(w, actions).requests && Due(Run(w, actions).requests[id], at)
    decreases |actions|
  {
    if actions != [] { DeadlineStays(Next(w, actions[0]), actions[1..], id, at); }
  }

  /** For 24 hours after a request arrived nothing takes the record it claimed. */
  lemma HomeForADay(w: World, id: nat, hash: string, actions: seq<Action>)
    requires Owned(w) && id !in w.requests
    requires var end := Run(Next(w, Arrive(id, hash)), actions);
             id in end.requests && InFlight(end.requests[id]) && end.now < w.now + 24 * 3_600_000_000_000
    ensures var end := Run(Next(w, Arrive(id, hash)), actions); Owns(end, end.requests[id].ticket)
  {
    var first := Next(w, Arrive(id, hash));
    NextOwned(w, Arrive(id, hash));
    RunOwned(first, actions);
    DeadlineStays(first, actions, id, w.now + 24 * 3_600_000_000_000);
    assert TicketOk(Run(first, actions), Run(first, actions).requests[id].ticket);
  }

  /** The step does not cache an outcome on a record created after its own was deleted. */
  predicate Home(w: World, a: Action) {
    a.Act? && a.id in w.requests && w.requests[a.id].Caching? && a.cached && w.record.Some? ==>
      Owns(w, w.requests[a.id].ticket)
  }

  predicate AllHome(w: World, actions: seq<Action>)
    decreases |actions|
  {
    actions != [] ==> Home(w, actions[0]) && AllHome(Next(w, actions[0]), actions[1..])
  }

  /** The outcome is cached before the time to live its request asked for. */
  predicate Prompt(w: World, a: Action) {
    a.Act? && a.id in w.requests && w.requests[a.id].Caching? && a.cached ==> w.now < w.requests[a.id].ticket.ttlAt
  }

  predicate AllPrompt(w: World, actions: seq<Action>)
    decreases |actions|
  {
    actions != [] ==> Prompt(w, actions[0]) && AllPrompt(Next(w, actions[0]), actions[1..])
  }

  /** Handlers that finish within the day have all their outcomes land home, whatever cleanup does. */
  lemma {:induction false} PromptIsHome(w: World, actions: seq<Action>)
    requires Owned(w) && AllPrompt(w, actions)
    ensures AllHome(w, actions)
    decreases |actions|
  {
    if actions != [] {
      var a := actions[0];
      if a.Act? && a.id in w.requests && w.requests[a.id].Caching? {
        assert TicketOk(w, w.requests[a.id].ticket);
      }
      NextOwned(w, a);
      PromptIsHome(Next(w, a), actions[1..]);
    }
  }

  // -------------------------------------------------- replaying the first outcome

  ghost predicate Holds(r: Live, x: Ran) {
    && x.incarnation == r.incarnation
    && r.status == StatusOf(x.result) && r.body == CachedBody(x.result) && r.code == CachedCode(x.result)
  }

  /** A finished record holds the outcome of the handler that ran for it, and for nobody else. */
  ghost predicate Faithful(w: World) {
    && (w.record.Some? && !w.record.value.status.Processing? ==>
          && (exists x :: x in w.ran && Holds(w.record.value, x))
          && (forall id | id in w.requests && InFlight(w.requests[id]) :: !Owns(w, w.requests[id].ticket)))
  }

  lemma NextFaithful(w: World, a: Action)
    requires Owned(w) && Faithful(w) && Home(w, a)
    ensures Faithful(Next(w, a))
  {
    var w' := Next(w, a);
    assert forall x | x in w.ran :: x in w'.ran;
    if a.Act? && a.id in w.requests && w.requests[a.id].Caching? && w'.record.Some? {
      var x := Ran(w.requests[a.id].ticket.incarnation, w.requests[a.id].result);
      assert x in w'.ran;
      if a.cached { assert Holds(w'.record.value, x); }
    }
  }

  lemma {:induction false} RunFaithful(w: World, actions: seq<Action>)
    requires Owned(w) && Faithful(w) && AllHome(w, actions)
    ensures Faithful(Run(w, actions))
    decreases |actions|
  {
    if actions != [] {
      NextOwned(w, actions[0]);
      NextFaithful(w, actions[0]);
      RunFaithful(Next(w, actions[0]), actions[1..]);
    }
  }

  lemma {:induction false} AnswersAreFinal(w: World, actions: seq<Action>, id: nat)
    requires id in w.requests && w.requests[id].Answered?
    ensures id in Run(w, actions).requests && Run(w, actions).requests[id] == w.requests[id]
    decreases |actions|
  {
    if actions != [] { AnswersAreFinal(Next(w, actions[0]), actions[1..], id); }
  }

  /**
    On every interleaving a request that finds a live record is answered at once and for
    good, and changes nothing else, so its handler never runs.  With another hash it is
    refused.  With the same hash it gets Aborted while the first one runs and then, when
    outcomes landed home, exactly what the handler that ran for the record said.
   */
  lemma RepeatGetsFirstOutcome(actions: seq<Action>, id: nat, result: Result, cached: bool, later: seq<Action>)
    requires var w := Run(EMPTY, actions); id in w.requests && w.requests[id].Arriving? && w.record.Some?
    ensures var w := Run(EMPTY, actions);
            var w' := Next(w, Act(id, result, cached));
            && w' == w.(requests := w.requests[id := w'.requests[id]]) && w'.requests[id].Answered?
            && id in Run(w', later).requests && Run(w', later).requests[id] == w'.requests[id]
            && var answer, r := w'.requests[id].answer, w.record.value;
               if r.hash != w.requests[id].hash then answer.Error? && answer.code == 6
               else if r.status.Processing? then answer.Error? && answer.code == 10
               else AllHome(EMPTY, actions) ==>
                      exists x :: x in w.ran && x.incarnation == r.incarnation && Repeats(x.result, answer)
  {
    var w := Run(EMPTY, actions);
    var w' := Next(w, Act(id, result, cached));
    AnswersAreFinal(w', later, id);
    if AllHome(EMPTY, actions) && !w.record.value.status.Processing? {
      NothingOwned();
      RunFaithful(EMPTY, actions);
      var x :| x in w.ran && Holds(w.record.value, x);
      ReplayedIs(x.result);
    }
  }

  /** The request whose handler ran is told its outcome, cached or not, and so it stays. */
  lemma WinnerHearsItself(w: World, id: nat, result: Result, cached: bool, later: seq<Action>)
    requires id in w.requests && w.requests[id].Caching?
    ensures var end := Run(Next(w, Act(id, result, cached)), later);
            id in end.requests && end.requests[id].Answered? && Tells(w.requests[id].result, end.requests[id].answer)
  {
    AnswersAreFinal(Next(w, Act(id, result, cached)), later, id);
  }

  /** A finished record keeps its outcome until it is deleted. */
  lemma OutcomeIsStable(actions: seq<Action>, a: Action)
    requires AllHome(EMPTY, actions) && Home(Run(EMPTY, actions), a) && !a.Cleanup?
    requires var w := Run(EMPTY, actions); w.record.Some? && !w.record.value.status.Processing?
    ensures Next(Run(EMPTY, actions), a).record == Run(EMPTY, actions).record
  {
    NothingOwned();
    RunFaithful(EMPTY, actions);
  }

  // ------------------------------------------------ outcomes that come too late

  /** An outcome that lands on a record still being processed answers the wrong request. */
  lemma LateOutcomeIsUnfaithful(actions: seq<Action>, a: Action, id: nat)
    requires AllHome(EMPTY, actions)
    requires var w := Run(EMPTY, actions);
             && !Home(w, a) && w.record.value.status.Processing?
             && id in w.requests && w.requests[id].Running? && Owns(w, w.requests[id].ticket)
    ensures !Faithful(Next(Run(EMPTY, actions), a))
  {
    var w := Run(EMPTY, actions);
    var w' := Next(w, a);
    assert id in w'.requests && InFlight(w'.requests[id]) && Owns(w', w'.requests[id].ticket);
  }

  /**
    And it happens once a handler outlasts its record: the first request is still running
    a day after it claimed the key, cleanup deletes the record, the second request claims
    the key, and a repeat of the second is answered with the response of the first.
   */
  lemma LateOutcomeAnswersAnother(a: string, b: string, response: string) returns (actions: seq<Action>)
    requires a != b
    ensures var w := Run(EMPTY, actions);
            && w.now == 24 * 3_600_000_000_000 && 2 in w.requests && w.requests[2] == Answered(b, Success(response))
            && w.ran == [Ran(1, Value(response))] && 0 in w.requests && w.requests[0] == Answered(a, Success(response))
  {
    var r := Value(response);
    actions := [Arrive(0, a), Act(0, r, true), Tick(DAY), Cleanup(DAY, true), Arrive(1, b), Act(1, r, true),
                Act(0, r, true), Act(0, r, true), Arrive(2, b), Act(2, r, true)];
    var k, l := Ticket(a, DAY, 1, 0), Ticket(b, 2 * DAY, 2, 1);
    var w1 := Next(Next(Next(EMPTY, actions[0]), actions[1]), actions[2]);
    assert w1 == World(DAY, Some(Live(1, a, DAY, Processing, NoBody, 0)), 1, 0, [], [], map[0 := Running(k)]);
    var w2 := Next(Next(Next(w1, actions[3]), actions[4]), actions[5]);
    assert w2 == World(DAY, Some(Live(2, b, 2 * DAY, Processing, NoBody, 0)), 2, 1, [DAY], [],
                       map[0 := Running(k), 1 := Running(l)]);
    var w3 := Next(Next(Next(w2, actions[6]), actions[7]), actions[8]);
    assert w3.record == Some(Live(2, b, 2 * DAY, Done, ResponseBody(response), OK));
    assert w3.requests[2] == Arriving(b, 2 * DAY) && w3.requests[0] == Answered(a, Direct(r));
    var w4 := Next(w3, actions[9]);
    assert w4.requests[2] == Answered(b, Success(response));
    Unroll(EMPTY, actions, w1);
    Unroll(w1, actions[3..], w2);
    Unroll(w2, actions[6..], w3);
    assert actions[3..][3..] == actions[6..] && actions[6..][3..] == actions[9..] && actions[9..][1..] == [];
    assert Run(w3, actions[9..]) == Run(w4, []) == w4;
  }

  lemma Unroll(w: World, actions: seq<Action>, after: World)
    requires |actions| >= 3 && after == Next(Next(Next(w, actions[0]), actions[1]), actions[2])
    ensures Run(w, actions) == Run(after, actions[3..])
  {
    assert actions[1..][1..] == actions[2..] && actions[2..][1..] == actions[3..];
    assert Run(w, actions) == Run(Next(w, actions[0]), actions[1..]);
    assert Run(Next(w, actions[0]), actions[1..]) == Run(Next(Next(w, actions[0]), actions[1]), actions[2..]);
  }
}
