/** The Kafka consumer: bounded retries, dead letters, and what marking a later message does to a failed one. */
module Consumer {
  /** How the handling of one message ends. */
  datatype Outcome = Handled | DeadLettered | DeadLetterFailed | NoDeadLetterQueue | Interrupted

  /** No error is returned, so the message is marked. */
  predicate Settled(o: Outcome) {
    o.Handled? || o.DeadLettered?
  }

  /** The dead-letter producer: absent, refusing or accepting. */
  datatype DeadLetters = Absent | Refuses | Accepts

  /** What surrounds one message: results of the handler calls and of the waits between them. */
  datatype Fate = Fate(retryCount: int, handles: nat -> bool, waits: nat -> bool, queue: DeadLetters)

  /** Handler calls left to a message that was already retried so often. */
  function Budget(retryCount: int, maxRetries: int): nat {
    var most := if maxRetries <= 0 then 1 else maxRetries;
    if retryCount >= most then 0 else most - retryCount
  }

  function Exceeded(queue: DeadLetters): Outcome {
    match queue
    case Absent => NoDeadLetterQueue
    case Refuses => DeadLetterFailed
    case Accepts => DeadLettered
  }

  /** The handler failed in the first n calls and every wait between them ran its time. */
  ghost predicate Retried(f: Fate, n: nat) {
    (forall i | 0 <= i < n :: !f.handles(i)) && (forall i | 0 <= i < n - 1 :: f.waits(i))
  }

  ghost predicate IsOutcome(f: Fate, maxRetries: int, calls: nat, o: Outcome) {
    var budget := Budget(f.retryCount, maxRetries);
    match o
    case Handled => 0 < calls <= budget && Retried(f, calls - 1) && (calls > 1 ==> f.waits(calls - 2))
      && f.handles(calls - 1)
    case Interrupted => 0 < calls < budget && Retried(f, calls) && !f.waits(calls - 1)
    case DeadLettered => calls == budget && Retried(f, calls) && f.queue == Accepts
    case DeadLetterFailed => calls == budget && Retried(f, calls) && f.queue == Refuses
    case NoDeadLetterQueue => calls == budget && Retried(f, calls) && f.queue == Absent
  }

  method HandleWithRetry(f: Fate, maxRetries: int) returns (o: Outcome, calls: nat)
    ensures IsOutcome(f, maxRetries, calls, o)
  {
    calls := 0;
    var most := if maxRetries <= 0 then 1 else maxRetries;
    var attempt := f.retryCount + 1;
    if attempt > most {
      return Exceeded(f.queue), calls;
    }
    while true
      invariant attempt == f.retryCount + 1 + calls <= most
      invariant Retried(f, calls) && (calls > 0 ==> f.waits(calls - 1))
      decreases most - attempt
    {
      calls := calls + 1;
      if f.handles(calls - 1) {
        return Handled, calls;
      }
      if attempt >= most {
        return Exceeded(f.queue), calls;
      }
      if !f.waits(calls - 1) {
        return Interrupted, calls;
      }
      attempt := attempt + 1;
    }
  }

  /** The fate of a message leaves no choice. */
  lemma OutcomeIsUnique(f: Fate, maxRetries: int, m: nat, o: Outcome, n: nat, p: Outcome)
    requires IsOutcome(f, maxRetries, m, o) && IsOutcome(f, maxRetries, n, p)
    ensures m == n && o == p
  {}

  // ------------------------------------------------------------------- one partition

  datatype Message = Message(offset: int, fate: Fate)

  ghost predicate InOrder(ms: seq<Message>) {
    forall i, j | 0 <= i < j < |ms| :: ms[i].offset < ms[j].offset
  }

  ghost predicate SettledAt(ms: seq<Message>, maxRetries: int, i: nat)
    requires i < |ms|
  {
    HandledInTime(ms[i].fate, maxRetries) || (UsedUp(ms[i].fate, maxRetries) && ms[i].fate.queue == Accepts)
  }

  /** Some handler call within the budget succeeds, all before it having failed and waited out. */
  ghost predicate HandledInTime(f: Fate, maxRetries: int) {
    exists n :: 0 <= n < Budget(f.retryCount, maxRetries) && FirstSuccess(f, n)
  }

  ghost predicate FirstSuccess(f: Fate, n: nat) {
    f.handles(n) && forall i | 0 <= i < n :: !f.handles(i) && f.waits(i)
  }

  /** No handler call within the budget succeeds and no wait between them is interrupted. */
  ghost predicate UsedUp(f: Fate, maxRetries: int) {
    Retried(f, Budget(f.retryCount, maxRetries))
  }

  /** The offset the partition is resumed from: past the highest marked message. */
  ghost predicate IsCommitted(ms: seq<Message>, maxRetries: int, n: nat, start: int, committed: int)
    requires n <= |ms|
  {
    && (committed == start || exists i :: 0 <= i < n && committed == ms[i].offset + 1 && SettledAt(ms, maxRetries, i))
    && (forall i | 0 <= i < n && SettledAt(ms, maxRetries, i) :: ms[i].offset < committed)
    && start <= committed
  }

  class Session {
    /** Messages below this offset are not delivered again. */
    var committed: int

    constructor (start: int)
      ensures committed == start
    {
      committed := start;
    }

    method MarkMessage(offset: int)
      modifies this
      ensures committed == if offset + 1 > old(committed) then offset + 1 else old(committed)
    {
      if offset + 1 > committed {
        committed := offset + 1;
      }
    }

    method ConsumeClaim(ms: seq<Message>, maxRetries: int)
      modifies this
      ensures IsCommitted(ms, maxRetries, |ms|, old(committed), committed)
    {
      ghost var start := committed;
      for n := 0 to |ms|
        invariant IsCommitted(ms, maxRetries, n, start, committed)
      {
        var o, calls := HandleWithRetry(ms[n].fate, maxRetries);
        SettledWhen(ms, maxRetries, n, o, calls);
        ghost var was := committed;
        if Settled(o) {
          MarkMessage(ms[n].offset);
        }
        CommitGrows(ms, maxRetries, n, start, was, committed);
      }
    }
  }

  /** A success in time is what ends handled. */
  lemma HandledWhen(f: Fate, maxRetries: int, calls: nat, o: Outcome)
    requires IsOutcome(f, maxRetries, calls, o)
    ensures HandledInTime(f, maxRetries) <==> o.Handled?
  {
    if HandledInTime(f, maxRetries) {
      var n :| 0 <= n < Budget(f.retryCount, maxRetries) && FirstSuccess(f, n);
      assert IsOutcome(f, maxRetries, n + 1, Handled);
      OutcomeIsUnique(f, maxRetries, calls, o, n + 1, Handled);
    }
    assert o.Handled? ==> FirstSuccess(f, calls - 1);
  }

  /** Calls used up in front of an accepting queue are what ends dead-lettered. */
  lemma DeadLetteredWhen(f: Fate, maxRetries: int, calls: nat, o: Outcome)
    requires IsOutcome(f, maxRetries, calls, o)
    ensures UsedUp(f, maxRetries) && f.queue == Accepts <==> o.DeadLettered?
  {
    var budget := Budget(f.retryCount, maxRetries);
    if UsedUp(f, maxRetries) && f.queue == Accepts {
      OutcomeIsUnique(f, maxRetries, calls, o, budget, DeadLettered);
    }
  }

  lemma SettledWhen(ms: seq<Message>, maxRetries: int, i: nat, o: Outcome, calls: nat)
    requires i < |ms| && IsOutcome(ms[i].fate, maxRetries, calls, o)
    ensures SettledAt(ms, maxRetries, i) <==> Settled(o)
  {
    HandledWhen(ms[i].fate, maxRetries, calls, o);
    DeadLetteredWhen(ms[i].fate, maxRetries, calls, o);
  }

  lemma CommitGrows(ms: seq<Message>, maxRetries: int, n: nat, start: int, was: int, committed: int)
    requires n < |ms| && IsCommitted(ms, maxRetries, n, start, was)
    requires committed == if SettledAt(ms, maxRetries, n) && ms[n].offset + 1 > was then ms[n].offset + 1 else was
    ensures IsCommitted(ms, maxRetries, n + 1, start, committed)
  {}

  /** Neither settled nor ever delivered again. */
  ghost predicate Lost(ms: seq<Message>, maxRetries: int, committed: int, i: nat)
    requires i < |ms|
  {
    !SettledAt(ms, maxRetries, i) && ms[i].offset < committed
  }

  ghost predicate SettledLater(ms: seq<Message>, maxRetries: int, i: nat) {
    exists j :: i < j < |ms| && SettledAt(ms, maxRetries, j)
  }

  /** An unsettled message is delivered again exactly when no later message of the partition was settled. */
  lemma LostWhenOvertaken(ms: seq<Message>, maxRetries: int, start: int, committed: int, i: nat)
    requires i < |ms| && InOrder(ms) && start <= ms[0].offset && IsCommitted(ms, maxRetries, |ms|, start, committed)
    ensures Lost(ms, maxRetries, committed, i) <==> !SettledAt(ms, maxRetries, i) && SettledLater(ms, maxRetries, i)
  {
    if SettledLater(ms, maxRetries, i) {
      var j :| i < j < |ms| && SettledAt(ms, maxRetries, j);
      assert ms[i].offset < ms[j].offset < committed;
    }
    if Lost(ms, maxRetries, committed, i) {
      assert start <= ms[i].offset by { assert i > 0 ==> ms[0].offset < ms[i].offset; }
      var j :| 0 <= j < |ms| && committed == ms[j].offset + 1 && SettledAt(ms, maxRetries, j);
    }
  }

  /** So a message can be lost: its dead letter is refused and the next message is handled. */
  lemma FailedMessageIsLost() returns (ms: seq<Message>)
    ensures |ms| == 2 && InOrder(ms)
    ensures IsCommitted(ms, 1, 2, 0, 2) && Lost(ms, 1, 2, 0)
  {
    var bad := Fate(0, n => false, n => true, Refuses);
    var good := Fate(0, n => true, n => true, Refuses);
    ms := [Message(0, bad), Message(1, good)];
    assert IsOutcome(good, 1, 1, Handled);
    assert IsOutcome(bad, 1, 1, DeadLetterFailed);
    SettledWhen(ms, 1, 1, Handled, 1);
    SettledWhen(ms, 1, 0, DeadLetterFailed, 1);
  }
}
