/**
  One outbox message under any number of workers.  Workers claim it through the lease,
  each pass over it follows the pass automaton, and the steps of all passes interleave
  freely, also after a lease has run out and another worker has claimed the message.
 */
module OutboxProtocol {
  import opened Common
  import opened OutboxStore
  import opened OutboxWorker

  datatype Logged = Logged(pass: nat, entry: Entry)

  /** A worker's pass over the message, with the number of publishes the worker allows itself. */
  datatype Job = Job(max: nat, at: Pass)

  datatype World = World(record: Record, log: seq<Logged>, passes: map<nat, Job>)

  datatype Action =
    | Claim(pass: nat, max: nat, now: int)
    | Act(pass: nat, entry: Entry, now: int)

  function Enqueued(msg: Message, now: int): World {
    World(Record(msg, Pending, 0, now, now), [], map[])
  }

  function Mark(r: Record, e: Entry, now: int): Record {
    match e
    case MarkedSent => Marked(r, Sent, now)
    case MarkedFailed => Marked(r, Failed, now)
    case _ => r
  }

  /** Every worker allows itself at least one publish. */
  predicate CanClaim(w: World, p: nat, max: nat, now: int) {
    p !in w.passes && max >= 1 && Claimable(w.record, now)
  }

  predicate CanAct(w: World, p: nat, e: Entry) {
    p in w.passes && Advance(w.passes[p].max, w.passes[p].at, e).Some?
  }

  function Next(w: World, a: Action): World {
    match a
    case Claim(p, max, now) =>
      if !CanClaim(w, p, max, now) then w
      else w.(record := w.record.(status := Processing, updatedAt := now), passes := w.passes[p := Job(max, Trying(0))])
    case Act(p, e, now) =>
      if !CanAct(w, p, e) then w
      else
        var job := w.passes[p];
        World(Mark(w.record, e, now), w.log + [Logged(p, e)],
              w.passes[p := job.(at := Advance(job.max, job.at, e).value)])
  }

  function Run(w: World, actions: seq<Action>): World
    decreases |actions|
  {
    if actions == [] then w else Run(Next(w, actions[0]), actions[1..])
  }

  /** Failed publishes of a pass. */
  function Failures(log: seq<Logged>, p: nat): nat {
    if log == [] then 0
    else Failures(log[..|log| - 1], p) + (if log[|log| - 1] == Logged(p, Published(false)) then 1 else 0)
  }

  ghost predicate Canceled(log: seq<Logged>, p: nat) {
    Logged(p, WaitCanceled) in log
  }

  ghost predicate SomeoneDelivered(log: seq<Logged>) {
    exists i :: 0 <= i < |log| && log[i].entry == Published(true)
  }

  /** A pass used up its publishes, or was canceled while waiting after a failed one. */
  ghost predicate GaveUp(max: nat, log: seq<Logged>, p: nat) {
    Logged(p, Published(true)) !in log && Failures(log, p) >= 1 && (Failures(log, p) == max || Canceled(log, p))
  }

  predicate IsDeadLetter(x: Logged, p: nat) {
    x.pass == p && x.entry.DeadLettered?
  }

  /** The dead-letter path of pass p was entered after it had given up. */
  ghost predicate DeadLetteredBy(max: nat, log: seq<Logged>, p: nat) {
    exists d :: 0 <= d < |log| && IsDeadLetter(log[d], p) && GaveUp(max, log[..d], p)
  }

  ghost predicate PassOk(max: nat, log: seq<Logged>, p: nat, s: Pass) {
    match s
    case Trying(f) => f < max && Failures(log, p) == f && Logged(p, Published(true)) !in log
    case GivingUp(_, _) => GaveUp(max, log, p)
    case Buried(_, _) => DeadLetteredBy(max, log, p)
    case Delivered => SomeoneDelivered(log)
    case Over => true
  }

  /** Some pass used up its own publishes or was canceled, and entered the dead-letter path after that. */
  ghost predicate GivenUpOn(w: World) {
    exists p :: p in w.passes && DeadLetteredBy(w.passes[p].max, w.log, p)
  }

  ghost predicate Explained(w: World) {
    && (w.record.status.Sent? ==> SomeoneDelivered(w.log))
    && (w.record.status.Failed? ==> GivenUpOn(w))
    && (forall p | p in w.passes :: w.passes[p].max >= 1 && PassOk(w.passes[p].max, w.log, p, w.passes[p].at))
    && (forall p | p !in w.passes :: Untouched(w.log, p))
  }

  ghost predicate Untouched(log: seq<Logged>, p: nat) {
    forall i | 0 <= i < |log| :: log[i].pass != p
  }

  lemma {:induction false} UntouchedHasNoFailures(log: seq<Logged>, p: nat)
    requires Untouched(log, p)
    ensures Failures(log, p) == 0
  {
    if log != [] { UntouchedHasNoFailures(log[..|log| - 1], p); }
  }

  lemma DeadLetterKept(max: nat, log: seq<Logged>, x: Logged, p: nat)
    requires DeadLetteredBy(max, log, p)
    ensures DeadLetteredBy(max, log + [x], p)
  {
    var d :| 0 <= d < |log| && IsDeadLetter(log[d], p) && GaveUp(max, log[..d], p);
    assert (log + [x])[d] == log[d] && (log + [x])[..d] == log[..d];
  }

  lemma DeliveredKept(log: seq<Logged>, x: Logged)
    ensures SomeoneDelivered(log) || x.entry == Published(true) ==> SomeoneDelivered(log + [x])
  {
    var all := log + [x];
    assert all[|log|] == x;
    assert forall i | 0 <= i < |log| :: all[i] == log[i];
  }

  lemma FailuresAppend(log: seq<Logged>, x: Logged, p: nat)
    ensures Failures(log + [x], p) == Failures(log, p) + (if x == Logged(p, Published(false)) then 1 else 0)
  {
    assert (log + [x])[..|log|] == log;
  }

  /** Entries of other passes do not change what is known about a pass. */
  lemma OtherPassOk(max: nat, log: seq<Logged>, x: Logged, p: nat, s: Pass)
    requires PassOk(max, log, p, s) && x.pass != p
    ensures PassOk(max, log + [x], p, s)
  {
    FailuresAppend(log, x, p);
    DeliveredKept(log, x);
    if s.Buried? { DeadLetterKept(max, log, x, p); }
  }

  lemma OwnPassOk(max: nat, log: seq<Logged>, p: nat, s: Pass, e: Entry)
    requires max >= 1 && PassOk(max, log, p, s) && Advance(max, s, e).Some?
    ensures PassOk(max, log + [Logged(p, e)], p, Advance(max, s, e).value)
  {
    var x := Logged(p, e);
    FailuresAppend(log, x, p);
    DeliveredKept(log, x);
    if s.GivingUp? {
      assert (log + [x])[|log|] == x && (log + [x])[..|log|] == log;
      assert IsDeadLetter((log + [x])[|log|], p);
    }
  }

  lemma ActExplained(w: World, p: nat, e: Entry, now: int)
    requires Explained(w) && CanAct(w, p, e)
    ensures Explained(Next(w, Act(p, e, now)))
  {
    var w', x := Next(w, Act(p, e, now)), Logged(p, e);
    OwnPassOk(w.passes[p].max, w.log, p, w.passes[p].at, e);
    DeliveredKept(w.log, x);
    if w.record.status.Failed? {
      var q :| q in w.passes && DeadLetteredBy(w.passes[q].max, w.log, q);
      DeadLetterKept(w.passes[q].max, w.log, x, q);
      assert q in w'.passes && DeadLetteredBy(w'.passes[q].max, w'.log, q);
    }
    if e.MarkedFailed? {
      DeadLetterKept(w.passes[p].max, w.log, x, p);
      assert p in w'.passes && DeadLetteredBy(w'.passes[p].max, w'.log, p);
    }
    forall q | q in w'.passes ensures w'.passes[q].max >= 1 && PassOk(w'.passes[q].max, w'.log, q, w'.passes[q].at) {
      if q != p { OtherPassOk(w.passes[q].max, w.log, x, q, w.passes[q].at); }
    }
  }

  lemma NextExplained(w: World, a: Action)
    requires Explained(w)
    ensures Explained(Next(w, a))
  {
    match a
    case Claim(p, max, now) =>
      if CanClaim(w, p, max, now) { UntouchedHasNoFailures(w.log, p); }
    case Act(p, e, now) =>
      if CanAct(w, p, e) { ActExplained(w, p, e, now); }
  }

  lemma {:induction false} RunExplained(w: World, actions: seq<Action>)
    requires Explained(w)
    ensures Explained(Run(w, actions))
    decreases |actions|
  {
    if actions != [] {
      NextExplained(w, actions[0]);
      RunExplained(Next(w, actions[0]), actions[1..]);
    }
  }

  /**
    In every run of any number of workers: a message marked sent was published by some
    pass; a message marked failed has a pass that used up its publishes or was canceled
    in a wait, and entered the dead-letter path after that.
   */
  lemma MarksAreEarned(msg: Message, now: int, actions: seq<Action>)
    ensures var w := Run(Enqueued(msg, now), actions);
            && (w.record.status.Sent? ==> SomeoneDelivered(w.log))
            && (w.record.status.Failed? ==> GivenUpOn(w))
  {
    RunExplained(Enqueued(msg, now), actions);
  }

  /** Sent and failed messages are never claimed again. */
  lemma {:induction false} MarkedIsNeverClaimed(w: World, actions: seq<Action>)
    requires w.record.status.Sent? || w.record.status.Failed?
    ensures var w' := Run(w, actions);
            (w'.record.status.Sent? || w'.record.status.Failed?) && w'.passes.Keys == w.passes.Keys
    decreases |actions|
  {
    if actions != [] {
      assert Next(w, actions[0]).passes.Keys == w.passes.Keys;
      MarkedIsNeverClaimed(Next(w, actions[0]), actions[1..]);
    }
  }

  /** The worker's own traces are runs of a single pass of this machine. */
  lemma {:induction false} TraceIsRun(w: World, p: nat, trace: seq<Entry>, now: int)
    requires p in w.passes && w.passes[p].at == Trying(0) && Follow(w.passes[p].max, Trying(0), trace).Some?
    ensures var w' := Run(w, Steps(p, trace, now));
            && p in w'.passes && w'.passes[p] == Job(w.passes[p].max, Follow(w.passes[p].max, Trying(0), trace).value)
            && |w'.log| == |w.log| + |trace|
            && (trace != [] && trace[|trace| - 1] == MarkedSent ==> w'.record.status == Sent)
            && (trace != [] && trace[|trace| - 1] == MarkedFailed ==> w'.record.status == Failed)
    decreases |trace|
  {
    if trace != [] {
      var init, e := trace[..|trace| - 1], trace[|trace| - 1];
      TraceIsRun(w, p, init, now);
      assert Steps(p, trace, now) == Steps(p, init, now) + [Act(p, e, now)];
      RunAppend(w, Steps(p, init, now), Act(p, e, now));
    }
  }

  function Steps(p: nat, trace: seq<Entry>, now: int): seq<Action> {
    seq(|trace|, i requires 0 <= i < |trace| => Act(p, trace[i], now))
  }

  lemma {:induction false} RunAppend(w: World, actions: seq<Action>, a: Action)
    ensures Run(w, actions + [a]) == Next(Run(w, actions), a)
    decreases |actions|
  {
    if actions == [] {
      assert ([] + [a])[1..] == [];
      assert Run(Next(w, a), []) == Next(w, a);
    } else {
      assert (actions + [a])[1..] == actions[1..] + [a];
      RunAppend(Next(w, actions[0]), actions[1..], a);
    }
  }

  // ---------------------------------------------------------- the store behind a message

  /** A store that holds nothing else. */
  function Alone(r: Record): Records {
    map[r.msg.id := r]
  }

  lemma ClaimIsPull(r: Record, now: int)
    requires Claimable(r, now)
    ensures StepOk(Alone(r), DidPull([r.msg.id], 1, now), Alone(r.(status := Processing, updatedAt := now)))
  {
    var id := r.msg.id;
    assert ClaimableIds(Alone(r), now) == {id} && Elements([id]) == {id};
  }

  /** What a step does to the store, if anything. */
  lemma StepIsStored(w: World, a: Action) returns (ops: seq<Op>)
    ensures |ops| <= 1
    ensures if ops == [] then Next(w, a).record == w.record
            else StepOk(Alone(w.record), ops[0], Alone(Next(w, a).record))
    ensures Next(w, a).record.msg == w.record.msg
    ensures ops != [] && ops[0].DidPull? <==> a.Claim? && CanClaim(w, a.pass, a.max, a.now)
    ensures ops != [] && ops[0].DidPull? ==> ops[0].ids == [w.record.msg.id] && ops[0].now == a.now
  {
    ops := [];
    match a
    case Claim(p, max, now) =>
      if CanClaim(w, p, max, now) {
        ClaimIsPull(w.record, now);
        ops := [DidPull([w.record.msg.id], 1, now)];
      }
    case Act(p, e, now) =>
      if CanAct(w, p, e) && (e.MarkedSent? || e.MarkedFailed?) {
        ops := [DidMark(w.record.msg.id, if e.MarkedSent? then Sent else Failed, now)];
      }
  }

  lemma RunLonger(states: seq<Records>, ops: seq<Op>, op: Op, rs: Records)
    requires IsRun(states, ops) && StepOk(states[|ops|], op, rs)
    ensures IsRun(states + [rs], ops + [op])
  {
    var ss, os := states + [rs], ops + [op];
    forall i | 0 <= i < |os| ensures StepOk(ss[i], os[i], ss[i + 1]) {
      if i < |ops| { assert StepOk(states[i], ops[i], states[i + 1]); }
    }
  }

  /** Every run of the workers over a message is a run of the store that holds it. */
  lemma {:induction false} RunIsStored(msg: Message, now: int, actions: seq<Action>)
    returns (states: seq<Records>, ops: seq<Op>)
    ensures IsRun(states, ops) && ops != [] && ops[0] == DidEnqueue(msg, now)
    ensures states[|ops|] == Alone(Run(Enqueued(msg, now), actions).record)
    ensures Run(Enqueued(msg, now), actions).record.msg == msg
    decreases |actions|
  {
    var w0 := Enqueued(msg, now);
    if actions == [] {
      states, ops := [map[], Alone(w0.record)], [DidEnqueue(msg, now)];
      assert map[][msg.id := w0.record] == Alone(w0.record);
    } else {
      var init, a := actions[..|actions| - 1], actions[|actions| - 1];
      states, ops := RunIsStored(msg, now, init);
      assert actions == init + [a];
      RunAppend(w0, init, a);
      var w := Run(w0, init);
      var more := StepIsStored(w, a);
      if more != [] {
        RunLonger(states, ops, more[0], Alone(Next(w, a).record));
        states, ops := states + [Alone(Next(w, a).record)], ops + more;
      }
    }
  }
}
