/** The worker that publishes claimed outbox messages, retries, dead-letters and marks them. */
module OutboxWorker {
  import opened Common
  import opened OutboxStore

  /** Durations are signed 64-bit nanoseconds; any overflow would be a type error here. */
  newtype Duration = x: int | -0x8000_0000_0000_0000 <= x <= 0x7fff_ffff_ffff_ffff

  const MAX_DURATION: Duration := 0x7fff_ffff_ffff_ffff

  function Pow2(n: nat): (p: nat)
    ensures p >= 1
  {
    if n == 0 then 1 else 2 * Pow2(n - 1)
  }

  lemma {:induction false} Pow2Monotone(a: nat, b: nat)
    requires a <= b
    ensures Pow2(a) <= Pow2(b)
    decreases b - a
  {
    if a < b { Pow2Monotone(a, b - 1); }
  }

  /** Exponential backoff, saturating at the largest duration instead of overflowing. */
  method RetryBackoff(base: Duration, attempt: int) returns (delay: Duration)
    ensures base <= 0 ==> delay == 0
    ensures base > 0 && attempt <= 1 ==> delay == base
    ensures base > 0 && attempt >= 1 ==>
              var exact := base as int * Pow2(attempt - 1);
              delay as int == if exact <= 9_223_372_036_854_775_807 then exact else 9_223_372_036_854_775_807
  {
    if base <= 0 {
      return 0;
    }
    if attempt <= 1 {
      return base;
    }
    delay := base;
    var i := 1;
    while i < attempt
      invariant 1 <= i <= attempt && delay as int == base as int * Pow2(i - 1)
    {
      if delay > MAX_DURATION / 2 {
        Pow2Monotone(i, attempt - 1);
        Product(base as int, Pow2(i), Pow2(attempt - 1));
        return MAX_DURATION;
      }
      assert base as int * Pow2(i) == 2 * (base as int * Pow2(i - 1)) by { assert Pow2(i) == 2 * Pow2(i - 1); }
      delay := delay * 2;
      i := i + 1;
    }
  }

  lemma Product(b: int, p: nat, q: nat)
    requires b > 0 && p <= q
    ensures b * p <= b * q
  {
  }

  // ------------------------------------------------- one pass over one message

  /** What a pass does to the outside, in order. */
  datatype Entry = Published(ok: bool) | WaitCanceled | DeadLettered(ok: bool) | MarkedSent | MarkedFailed

  /** Where a pass stands; `failed` counts its failed publishes. */
  datatype Pass =
    | Trying(failed: nat)
    | GivingUp(failed: nat, canceled: bool)
    | Buried(failed: nat, canceled: bool)
    | Delivered
    | Over

  /** The automaton of a pass with at most `max` publishes. */
  function Advance(max: nat, p: Pass, e: Entry): Option<Pass> {
    match (p, e)
    case (Trying(f), Published(ok)) =>
      if ok then Some(Delivered) else if f + 1 >= max then Some(GivingUp(f + 1, false)) else Some(Trying(f + 1))
    case (Trying(f), WaitCanceled) => if f >= 1 then Some(GivingUp(f, true)) else None
    case (GivingUp(f, c), DeadLettered(_)) => Some(Buried(f, c))
    case (Delivered, MarkedSent) => Some(Over)
    case (Buried(_, _), MarkedFailed) => Some(Over)
    case _ => None
  }

  /** The state a trace leads to, if every step of it is allowed. */
  function Follow(max: nat, p: Pass, trace: seq<Entry>): Option<Pass> {
    if trace == [] then Some(p)
    else
      var q := Follow(max, p, trace[..|trace| - 1]);
      if q.None? then None else Advance(max, q.value, trace[|trace| - 1])
  }

  lemma FollowAppend(max: nat, p: Pass, trace: seq<Entry>, e: Entry)
    requires Follow(max, p, trace).Some?
    ensures Follow(max, p, trace + [e]) == Advance(max, Follow(max, p, trace).value, e)
  {
    assert (trace + [e])[..|trace|] == trace;
  }

  /** The environment of one pass: the k-th publish, the wait after it, the dead letter. */
  datatype Luck = Luck(publish: nat -> bool, canceled: nat -> bool, deadLetter: bool)

  class Worker {
    const repo: OutboxRepository
    const batchSize: int
    const maxAttempts: int
    const retryBaseDelay: Duration

    constructor (repo: OutboxRepository, batchSize: int, maxAttempts: int, retryBaseDelay: Duration)
      ensures this.repo == repo && Configured()
      ensures this.batchSize == if batchSize <= 0 then 100 else batchSize
      ensures this.maxAttempts == if maxAttempts <= 0 then 3 else maxAttempts
      ensures this.retryBaseDelay == if retryBaseDelay < 0 then 0 else retryBaseDelay
    {
      this.repo := repo;
      this.batchSize := if batchSize <= 0 then 100 else batchSize;
      this.maxAttempts := if maxAttempts <= 0 then 3 else maxAttempts;
      this.retryBaseDelay := if retryBaseDelay < 0 then 0 else retryBaseDelay;
    }

    predicate Configured() {
      batchSize > 0 && maxAttempts >= 1 && retryBaseDelay >= 0
    }

    /**
      Publishes until it works, the attempts are used up, or a wait is canceled.  The
      trace is a path of the pass automaton.
     */
    method PublishWithRetry(luck: Luck) returns (ok: bool, ghost trace: seq<Entry>)
      requires Configured()
      ensures ok ==> Follow(maxAttempts, Trying(0), trace) == Some(Delivered)
      ensures !ok ==> exists f, c :: Follow(maxAttempts, Trying(0), trace) == Some(GivingUp(f, c))
      ensures ok <==> exists k :: 1 <= k <= maxAttempts && luck.publish(k) && Unlucky(luck, k)
      ensures MarkedSent !in trace
    {
      trace := [];
      var attempt := 1;
      while attempt <= maxAttempts
        invariant 1 <= attempt <= maxAttempts
        invariant Follow(maxAttempts, Trying(0), trace) == Some(Trying(attempt - 1))
        invariant Unlucky(luck, attempt) && MarkedSent !in trace
        decreases maxAttempts - attempt
      {
        var sent := luck.publish(attempt);
        FollowAppend(maxAttempts, Trying(0), trace, Published(sent));
        trace := trace + [Published(sent)];
        if sent {
          return true, trace;
        }
        if attempt >= maxAttempts {
          break;
        }
        var delay := RetryBackoff(retryBaseDelay, attempt);
        if delay > 0 && luck.canceled(attempt) {
          FollowAppend(maxAttempts, Trying(0), trace, WaitCanceled);
          trace := trace + [WaitCanceled];
          return false, trace;
        }
        attempt := attempt + 1;
      }
      ok := false;
    }

    /** Publishes failed and no effective wait was canceled before attempt k. */
    predicate Unlucky(luck: Luck, k: int) {
      forall j | 1 <= j < k :: !luck.publish(j) && (retryBaseDelay > 0 ==> !luck.canceled(j))
    }

    /** One claimed message from first publish to mark. */
    method Deliver(id: string, now: int, luck: Luck) returns (ok: bool, ghost trace: seq<Entry>)
      requires Configured() && repo.Valid() && id in repo.records
      modifies repo
      ensures repo.Valid()
      ensures Follow(maxAttempts, Trying(0), trace) == Some(Over) && (ok <==> MarkedSent in trace)
      ensures ok <==> exists k :: 1 <= k <= maxAttempts && luck.publish(k) && Unlucky(luck, k)
      ensures repo.records == old(repo.records)[id := Marked(old(repo.records)[id], if ok then Sent else Failed, now)]
    {
      ok, trace := PublishWithRetry(luck);
      if ok {
        FollowAppend(maxAttempts, Trying(0), trace, MarkedSent);
        trace := trace + [MarkedSent];
        var _ := repo.MarkSent(id, now);
      } else {
        FollowAppend(maxAttempts, Trying(0), trace, DeadLettered(luck.deadLetter));
        trace := trace + [DeadLettered(luck.deadLetter)];
        FollowAppend(maxAttempts, Trying(0), trace, MarkedFailed);
        trace := trace + [MarkedFailed];
        var _ := repo.MarkFailed(id, now);
      }
    }

    /** Every finished pass left its mark; claimed messages not reached are still processing. */
    ghost predicate Settled(ids: seq<string>, done: nat, traces: seq<seq<Entry>>)
      requires Configured()
      reads repo
    {
      && done <= |ids| && |traces| == done
      && (forall i | 0 <= i < done :: Follow(maxAttempts, Trying(0), traces[i]) == Some(Over))
      && (forall i | 0 <= i < |ids| :: ids[i] in repo.records && repo.records[ids[i]].status ==
            if i >= done then Processing else if MarkedSent in traces[i] then Sent else Failed)
    }

    /** The messages of a batch one after another, until the context is canceled between two. */
    method DeliverAll(ids: seq<string>, now: int, lucks: nat -> Luck, canceledBefore: nat -> bool)
      returns (done: nat, ghost traces: seq<seq<Entry>>)
      requires Configured() && repo.Valid()
      requires forall i, j | 0 <= i < j < |ids| :: ids[i] != ids[j]
      requires forall i | 0 <= i < |ids| :: ids[i] in repo.records && repo.records[ids[i]].status == Processing
      modifies repo
      ensures repo.Valid() && Settled(ids, done, traces) && (done < |ids| ==> canceledBefore(done))
      ensures repo.records.Keys == old(repo.records).Keys
      ensures forall id | id in repo.records && id !in ids :: repo.records[id] == old(repo.records)[id]
    {
      done, traces := 0, [];
      while done < |ids|
        invariant 0 <= done <= |ids| && repo.Valid() && Settled(ids, done, traces)
        invariant repo.records.Keys == old(repo.records).Keys
        invariant forall id | id in repo.records && id !in ids :: repo.records[id] == old(repo.records)[id]
      {
        if canceledBefore(done) {
          return;
        }
        var ok;
        ghost var trace;
        ok, trace := Deliver(ids[done], now, lucks(done));
        traces := traces + [trace];
        done := done + 1;
      }
    }

    /**
      One polling round: a batch is claimed and its messages are delivered in queue order.
      When the context is canceled to begin with, nothing is claimed.
     */
    method ProcessOnce(now: int, lucks: nat -> Luck, canceled: bool, canceledBefore: nat -> bool)
      returns (ghost ids: seq<string>, done: nat, ghost traces: seq<seq<Entry>>)
      requires Configured() && repo.Valid()
      modifies repo
      ensures repo.Valid()
      ensures canceled ==> ids == [] && repo.records == old(repo.records)
      ensures !canceled ==> IsBatch(old(repo.records), now, batchSize, ids)
      ensures Settled(ids, done, traces) && (done < |ids| ==> canceledBefore(done))
      ensures repo.records.Keys == old(repo.records).Keys
      ensures forall id | id in repo.records && id !in ids :: repo.records[id] == old(repo.records)[id]
    {
      ids, done, traces := [], 0, [];
      if canceled {
        return;
      }
      var events;
      events, ids := repo.PullPending(batchSize, now);
      forall i, j | 0 <= i < j < |ids| ensures ids[i] != ids[j] {
        EarlierOrder(old(repo.records), ids[i], ids[j], ids[i]);
      }
      var keys := seq(|events|, i requires 0 <= i < |events| => events[i].id);
      assert keys == ids;
      done, traces := DeliverAll(keys, now, lucks, canceledBefore);
    }
  }
}
