/** The in-memory transactional outbox: claiming with a lease, marking, backlog statistics. */
module OutboxStore {
  import opened Common
  import opened Text

  datatype Message = Message(id: string, aggregateType: string, aggregateId: string, eventType: string, payload: string)

  datatype Status = Pending | Processing | Sent | Failed

  datatype Record = Record(msg: Message, status: Status, attempts: nat, createdAt: int, updatedAt: int)

  type Records = map<string, Record>

  const LEASE := 2 * 60 * 1_000_000_000

  /** Pending, or processing under a lease that has run out. */
  predicate Claimable(r: Record, now: int) {
    r.status.Pending? || (r.status.Processing? && r.updatedAt <= now - LEASE)
  }

  /** Queue order: by creation time, then by id. */
  predicate Earlier(rs: Records, a: string, b: string)
    requires a in rs && b in rs
  {
    rs[a].createdAt < rs[b].createdAt || (rs[a].createdAt == rs[b].createdAt && Before(a, b))
  }

  lemma EarlierOrder(rs: Records, a: string, b: string, c: string)
    requires a in rs && b in rs && c in rs
    ensures a == b || Earlier(rs, a, b) || Earlier(rs, b, a)
    ensures !(Earlier(rs, a, b) && Earlier(rs, b, a))
    ensures Earlier(rs, a, b) && Earlier(rs, b, c) ==> Earlier(rs, a, c)
  {
    BeforeTotal(a, b);
    if Before(a, b) && Before(b, c) { BeforeTransitive(a, b, c); }
  }

  ghost predicate InQueueOrder(rs: Records, ids: seq<string>) {
    && (forall i | 0 <= i < |ids| :: ids[i] in rs)
    && (forall i, j | 0 <= i < j < |ids| :: Earlier(rs, ids[i], ids[j]))
  }

  function ClaimableIds(rs: Records, now: int): set<string> {
    set id | id in rs && Claimable(rs[id], now)
  }

  function Elements(ids: seq<string>): set<string> {
    set x | x in ids
  }

  /** The first `limit` claimable records in queue order. */
  ghost predicate IsBatch(rs: Records, now: int, limit: nat, ids: seq<string>) {
    && InQueueOrder(rs, ids)
    && Elements(ids) <= ClaimableIds(rs, now)
    && |ids| == (if limit < |ClaimableIds(rs, now)| then limit else |ClaimableIds(rs, now)|)
    && (forall x, y | x in ids && y in ClaimableIds(rs, now) - Elements(ids) :: Earlier(rs, x, y))
  }

  /** Claiming stamps exactly the records of the batch. */
  ghost predicate IsClaim(rs: Records, now: int, ids: seq<string>, rs': Records) {
    && rs'.Keys == rs.Keys
    && forall id | id in rs :: rs'[id] == if id in ids then rs[id].(status := Processing, updatedAt := now) else rs[id]
  }

  // ---------------------------------------------- a batch is determined by its definition

  /** The last of an ordered sequence comes after all others and occurs once. */
  lemma LastIsLatest(rs: Records, ids: seq<string>)
    requires ids != [] && InQueueOrder(rs, ids)
    ensures var init, last := ids[..|ids| - 1], ids[|ids| - 1];
            && InQueueOrder(rs, init)
            && (forall x | x in init :: Earlier(rs, x, last))
            && last !in init && Elements(init) == Elements(ids) - {last}
  {
    var init, last := ids[..|ids| - 1], ids[|ids| - 1];
    forall x | x in init ensures Earlier(rs, x, last) && x != last {
      EarlierOrder(rs, x, last, last);
    }
    assert ids == init + [last];
  }

  lemma {:induction false} OrderedLength(rs: Records, ids: seq<string>)
    requires InQueueOrder(rs, ids)
    ensures |Elements(ids)| == |ids|
  {
    if ids != [] {
      LastIsLatest(rs, ids);
      OrderedLength(rs, ids[..|ids| - 1]);
      assert Elements(ids) == Elements(ids[..|ids| - 1]) + {ids[|ids| - 1]};
    }
  }

  /** Two queue-ordered sequences with the same elements are the same. */
  lemma {:induction false} OrderedUnique(rs: Records, a: seq<string>, b: seq<string>)
    requires InQueueOrder(rs, a) && InQueueOrder(rs, b) && Elements(a) == Elements(b)
    ensures a == b
    decreases |a|
  {
    OrderedLength(rs, a);
    OrderedLength(rs, b);
    if a != [] {
      LastIsLatest(rs, a);
      LastIsLatest(rs, b);
      var x, y := a[|a| - 1], b[|b| - 1];
      assert x in Elements(b) && y in Elements(a);
      assert x == y by { EarlierOrder(rs, x, y, x); LastOrEarlier(a, y); LastOrEarlier(b, x); }
      OrderedUnique(rs, a[..|a| - 1], b[..|b| - 1]);
      assert a == a[..|a| - 1] + [x] && b == b[..|b| - 1] + [x];
    }
  }

  lemma LastOrEarlier(ids: seq<string>, x: string)
    requires ids != [] && x in ids
    ensures x == ids[|ids| - 1] || x in ids[..|ids| - 1]
  {
    assert ids == ids[..|ids| - 1] + [ids[|ids| - 1]];
  }

  /** The walk order of the map cannot influence which records a pull returns, nor their order. */
  lemma BatchUnique(rs: Records, now: int, limit: nat, a: seq<string>, b: seq<string>)
    requires IsBatch(rs, now, limit, a) && IsBatch(rs, now, limit, b)
    ensures a == b
  {
    OrderedLength(rs, a);
    OrderedLength(rs, b);
    if Elements(a) != Elements(b) {
      Differ(Elements(a), Elements(b));
      Differ(Elements(b), Elements(a));
      var x :| x in Elements(a) - Elements(b);
      var y :| y in Elements(b) - Elements(a);
      EarlierOrder(rs, x, y, x);
      assert false;
    }
    OrderedUnique(rs, a, b);
  }

  lemma Differ(a: set<string>, b: set<string>)
    requires a != b && |a| == |b|
    ensures a - b != {}
  {
    assert b == (b * a) + (b - a) && a == (a * b) + (a - b);
    assert |b| == |b * a| + |b - a| && |a| == |a * b| + |a - b|;
    assert a * b == b * a;
    assert a - b == {} && b - a == {} ==> a == b;
  }

  // ------------------------------------------------------------- the repository

  /** Puts an id where it belongs in an ordered sequence. */
  function Insert(rs: Records, ids: seq<string>, id: string): (r: seq<string>)
    requires InQueueOrder(rs, ids) && id in rs && id !in ids
    ensures InQueueOrder(rs, r) && Elements(r) == Elements(ids) + {id}
  {
    if ids == [] then [id]
    else
      LastIsLatest(rs, ids);
      var init, last := ids[..|ids| - 1], ids[|ids| - 1];
      EarlierOrder(rs, last, id, id);
      if Earlier(rs, last, id) then
        assert InQueueOrder(rs, ids + [id]) by {
          forall i | 0 <= i < |ids| ensures Earlier(rs, ids[i], id) { EarlierOrder(rs, ids[i], last, id); }
        }
        ids + [id]
      else
        var r := Insert(rs, init, id);
        assert InQueueOrder(rs, r + [last]) by {
          forall i | 0 <= i < |r| ensures Earlier(rs, r[i], last) { assert r[i] in Elements(r); }
        }
        r + [last]
  }

  function Backlog(rs: Records): set<string> {
    set id | id in rs && (rs[id].status.Pending? || rs[id].status.Processing?)
  }

  function WithStatus(rs: Records, status: Status): set<string> {
    set id | id in rs && rs[id].status == status
  }

  class OutboxRepository {
    var records: Records

    constructor ()
      ensures records == map[] && Valid()
    {
      records := map[];
    }

    ghost predicate Valid()
      reads this
    {
      forall id | id in records :: records[id].msg.id == id
    }

    method Enqueue(msg: Message, freshId: string, now: int) returns (stored: Message)
      requires Valid()
      modifies this
      ensures Valid()
      ensures stored == msg.(id := if msg.id == "" then freshId else msg.id)
      ensures records == old(records)[stored.id := Record(stored, Pending, 0, now, now)]
    {
      stored := if msg.id == "" then msg.(id := freshId) else msg;
      records := records[stored.id := Record(stored, Pending, 0, now, now)];
    }

    /** All ids in queue order, whatever order the map is walked in. */
    method SortedIds() returns (ids: seq<string>)
      ensures InQueueOrder(records, ids) && Elements(ids) == records.Keys
    {
      ids := [];
      var todo := records.Keys;
      while todo != {}
        invariant todo <= records.Keys && InQueueOrder(records, ids) && Elements(ids) == records.Keys - todo
        decreases |todo|
      {
        var id :| id in todo;
        assert id !in Elements(ids);
        ids := Insert(records, ids, id);
        todo := todo - {id};
      }
    }

    /** Claims the first claimable records in queue order and returns their messages. */
    method PullPending(limit: int, now: int) returns (result: seq<Message>, ghost ids: seq<string>)
      requires Valid()
      modifies this
      ensures Valid()
      ensures IsBatch(old(records), now, if limit <= 0 then 100 else limit, ids)
      ensures IsClaim(old(records), now, ids, records)
      ensures |result| == |ids| && forall i | 0 <= i < |ids| :: result[i] == old(records)[ids[i]].msg
      ensures forall i, j | 0 <= i < j < |ids| :: old(records)[ids[i]].createdAt <= old(records)[ids[j]].createdAt
    {
      var max := if limit <= 0 then 100 else limit;
      var all := SortedIds();
      result, ids := [], [];
      var i := 0;
      while i < |all| && |result| < max
        invariant 0 <= i <= |all| && |ids| <= max
        invariant Scanned(old(records), now, all, i, ids, records, result)
      {
        ScanStep(old(records), now, all, i, ids, records, result);
        var id := all[i];
        var rec := records[id];
        if rec.status.Pending? || (rec.status.Processing? && rec.updatedAt <= now - LEASE) {
          records := records[id := rec.(status := Processing, updatedAt := now)];
          result, ids := result + [rec.msg], ids + [id];
        }
        i := i + 1;
      }
      PickedIsBatch(old(records), now, all, i, ids, max);
    }

    method MarkSent(id: string, now: int) returns (found: bool)
      requires Valid()
      modifies this
      ensures Valid() && (found <==> id in old(records))
      ensures !found ==> records == old(records)
      ensures found ==>
                var was := old(records)[id];
                records == old(records)[id := Record(was.msg, Sent, was.attempts + 1, was.createdAt, now)]
    {
      found := id in records;
      if found {
        records := records[id := records[id].(status := Sent, attempts := records[id].attempts + 1, updatedAt := now)];
      }
    }

    method MarkFailed(id: string, now: int) returns (found: bool)
      requires Valid()
      modifies this
      ensures Valid() && (found <==> id in old(records))
      ensures !found ==> records == old(records)
      ensures found ==>
                var was := old(records)[id];
                records == old(records)[id := Record(was.msg, Failed, was.attempts + 1, was.createdAt, now)]
    {
      found := id in records;
      if found {
        records := records[id := records[id].(status := Failed, attempts := records[id].attempts + 1,
          updatedAt := now)];
      }
    }

    /** Size of the backlog and the creation time of its oldest record. */
    method Stats() returns (pending: nat, oldest: int)
      ensures pending == |Backlog(records)|
      ensures Dated(records) ==> IsOldest(records, Backlog(records), oldest)
    {
      pending, oldest := 0, ZERO_TIME;
      var todo := records.Keys;
      ghost var seen: set<string> := {};
      while todo != {}
        invariant todo <= records.Keys && seen == Backlog(records) - todo && pending == |seen|
        invariant Dated(records) ==> IsOldest(records, seen, oldest)
        decreases |todo|
      {
        var id :| id in todo;
        todo := todo - {id};
        var rec := records[id];
        if rec.status.Pending? || rec.status.Processing? {
          if Dated(records) { OldestStep(records, seen, oldest, id); }
          seen := seen + {id};
          pending := pending + 1;
          if oldest == ZERO_TIME || rec.createdAt < oldest {
            oldest := rec.createdAt;
          }
        }
      }
      assert seen == Backlog(records);
    }
  }

  predicate Dated(rs: Records) {
    forall id | id in rs :: rs[id].createdAt != ZERO_TIME
  }

  /** The earliest creation time among some records, or the zero time if there are none. */
  ghost predicate IsOldest(rs: Records, ids: set<string>, t: int)
    requires ids <= rs.Keys
  {
    if ids == {} then t == ZERO_TIME
    else (exists id :: id in ids && rs[id].createdAt == t) && (forall id | id in ids :: t <= rs[id].createdAt)
  }

  lemma OldestStep(rs: Records, ids: set<string>, t: int, id: string)
    requires ids <= rs.Keys && id in rs && Dated(rs) && IsOldest(rs, ids, t)
    ensures IsOldest(rs, ids + {id}, if t == ZERO_TIME || rs[id].createdAt < t then rs[id].createdAt else t)
  {
    assert id in ids + {id};
    if ids != {} {
      var old' :| old' in ids && rs[old'].createdAt == t;
      assert old' in ids + {id};
    }
  }

  function Marked(r: Record, status: Status, now: int): Record {
    r.(status := status, attempts := r.attempts + 1, updatedAt := now)
  }

  /** The state of a pull that has looked at the first i ids. */
  ghost predicate Scanned(
    rs: Records, now: int, all: seq<string>, i: nat, ids: seq<string>, rs': Records, result: seq<Message>) {
    && Picked(rs, now, all, i, ids)
    && IsClaim(rs, now, ids, rs')
    && |result| == |ids| && forall k | 0 <= k < |ids| :: result[k] == rs[ids[k]].msg
  }

  lemma ScanStep(rs: Records, now: int, all: seq<string>, i: nat, ids: seq<string>, rs': Records, result: seq<Message>)
    requires Scanned(rs, now, all, i, ids, rs', result) && i < |all|
    ensures all[i] in rs && all[i] in rs' && rs'[all[i]] == rs[all[i]]
    ensures var id := all[i]; var rec := rs[id];
            if Claimable(rec, now) then
              Scanned(rs, now, all, i + 1, ids + [id], rs'[id := rec.(status := Processing, updatedAt := now)],
                result + [rec.msg])
            else Scanned(rs, now, all, i + 1, ids, rs', result)
  {
    NotYetPicked(rs, now, all, i, ids);
    if Claimable(rs[all[i]], now) {
      PickNext(rs, now, all, i, ids);
    } else {
      PickNot(rs, now, all, i, ids);
    }
  }

  /** `ids` are the claimable ones among the first i of all ids. */
  ghost predicate Picked(rs: Records, now: int, all: seq<string>, i: nat, ids: seq<string>) {
    && i <= |all| && InQueueOrder(rs, all) && InQueueOrder(rs, ids)
    && Elements(ids) == Elements(all[..i]) * ClaimableIds(rs, now)
  }

  lemma NotYetPicked(rs: Records, now: int, all: seq<string>, i: nat, ids: seq<string>)
    requires Picked(rs, now, all, i, ids) && i < |all|
    ensures all[i] !in ids && forall x | x in ids :: Earlier(rs, x, all[i])
  {
    forall x | x in ids ensures x != all[i] && Earlier(rs, x, all[i]) {
      assert x in Elements(ids);
      var j :| 0 <= j < i && all[j] == x;
      EarlierOrder(rs, x, all[i], x);
    }
  }

  lemma PickNot(rs: Records, now: int, all: seq<string>, i: nat, ids: seq<string>)
    requires Picked(rs, now, all, i, ids) && i < |all| && all[i] !in ClaimableIds(rs, now)
    ensures Picked(rs, now, all, i + 1, ids)
  {
    assert all[..i + 1] == all[..i] + [all[i]];
    assert Elements(all[..i + 1]) == Elements(all[..i]) + {all[i]};
  }

  lemma PickNext(rs: Records, now: int, all: seq<string>, i: nat, ids: seq<string>)
    requires Picked(rs, now, all, i, ids) && i < |all| && all[i] in ClaimableIds(rs, now)
    ensures Picked(rs, now, all, i + 1, ids + [all[i]])
  {
    NotYetPicked(rs, now, all, i, ids);
    assert all[..i + 1] == all[..i] + [all[i]];
    assert Elements(all[..i + 1]) == Elements(all[..i]) + {all[i]};
    assert Elements(ids + [all[i]]) == Elements(ids) + {all[i]};
  }

  lemma PickedIsBatch(rs: Records, now: int, all: seq<string>, i: nat, ids: seq<string>, max: nat)
    requires Picked(rs, now, all, i, ids) && Elements(all) == rs.Keys
    requires |ids| <= max && (i == |all| || |ids| == max)
    ensures IsBatch(rs, now, max, ids)
  {
    PickedSize(rs, now, all, i, ids, max);
    forall x, y | x in ids && y in ClaimableIds(rs, now) - Elements(ids) ensures Earlier(rs, x, y) {
      PickedFirst(rs, now, all, i, ids, x, y);
    }
  }

  lemma PickedSize(rs: Records, now: int, all: seq<string>, i: nat, ids: seq<string>, max: nat)
    requires Picked(rs, now, all, i, ids) && Elements(all) == rs.Keys
    requires |ids| <= max && (i == |all| || |ids| == max)
    ensures |Elements(ids)| == |ids| && |ids| == if |ClaimableIds(rs, now)| < max then |ClaimableIds(rs, now)| else max
  {
    var due := ClaimableIds(rs, now);
    OrderedLength(rs, ids);
    assert |due| == |Elements(ids)| + |due - Elements(ids)| by {
      assert due == Elements(ids) + (due - Elements(ids));
    }
    if i == |all| {
      assert all[..i] == all;
      assert Elements(ids) == due;
    }
  }

  lemma PickedFirst(rs: Records, now: int, all: seq<string>, i: nat, ids: seq<string>, x: string, y: string)
    requires Picked(rs, now, all, i, ids) && Elements(all) == rs.Keys && x in ids
    requires y in ClaimableIds(rs, now) - Elements(ids)
    ensures Earlier(rs, x, y)
  {
    assert x in Elements(ids) && y in Elements(all);
    var j :| 0 <= j < i && all[j] == x;
    var k :| 0 <= k < |all| && all[k] == y;
    assert y !in Elements(all[..i]);
    assert forall m | 0 <= m < i :: all[m] in Elements(all[..i]);
  }

  // ---------------------------------------------------------------- whole runs

  /** One operation on the repository; ids of new messages are fresh. */
  datatype Op =
    | DidEnqueue(msg: Message, now: int)
    | DidPull(ids: seq<string>, limit: nat, now: int)
    | DidMark(id: string, status: Status, now: int)

  ghost predicate StepOk(rs: Records, op: Op, rs': Records) {
    match op
    case DidEnqueue(msg, now) => msg.id !in rs && rs' == rs[msg.id := Record(msg, Pending, 0, now, now)]
    case DidPull(ids, limit, now) => IsBatch(rs, now, limit, ids) && IsClaim(rs, now, ids, rs')
    case DidMark(id, status, now) =>
      (status.Sent? || status.Failed?) && rs' == if id in rs then rs[id := Marked(rs[id], status, now)] else rs
  }

  ghost predicate IsRun(states: seq<Records>, ops: seq<Op>) {
    && |states| == |ops| + 1 && states[0] == map[]
    && forall i | 0 <= i < |ops| :: StepOk(states[i], ops[i], states[i + 1])
  }

  /** After a pull returned a message, it stays stamped with that pull's time or a later one. */
  lemma {:induction false} StaysClaimed(states: seq<Records>, ops: seq<Op>, i: nat, j: nat, id: string)
    requires IsRun(states, ops) && i < j <= |ops| && ops[i].DidPull? && id in ops[i].ids
    ensures id in states[j] && !states[j][id].status.Pending?
    ensures states[j][id].status.Processing? ==> states[j][id].updatedAt >= ops[i].now
    decreases j
  {
    if j == i + 1 {
      assert StepOk(states[i], ops[i], states[i + 1]);
      assert id in Elements(ops[i].ids);
    } else {
      StaysClaimed(states, ops, i, j - 1, id);
      var op := ops[j - 1];
      assert StepOk(states[j - 1], op, states[j]);
      if op.DidPull? && id in op.ids {
        assert id in Elements(op.ids);
        assert Claimable(states[j - 1][id], op.now);
      }
    }
  }

  /** Two pulls that return the same message are at least one full lease apart. */
  lemma PullsAreALeaseApart(states: seq<Records>, ops: seq<Op>, i: nat, k: nat, id: string)
    requires IsRun(states, ops) && i < k < |ops|
    requires ops[i].DidPull? && id in ops[i].ids && ops[k].DidPull? && id in ops[k].ids
    ensures ops[k].now - ops[i].now >= 2 * 60 * 1_000_000_000
  {
    StaysClaimed(states, ops, i, k, id);
    assert StepOk(states[k], ops[k], states[k + 1]);
    assert id in Elements(ops[k].ids);
    assert Claimable(states[k][id], ops[k].now);
  }

  // ------------------------------------------------------- exactly what a pull returns

  predicate Touches(op: Op, id: string) {
    match op
    case DidEnqueue(msg, _) => msg.id == id
    case DidPull(ids, _, _) => id in ids
    case DidMark(other, _, _) => other == id
  }

  /** The last operation on a message decides the state of its record. */
  ghost predicate LeftBy(op: Op, rs: Records, id: string) {
    match op
    case DidEnqueue(_, _) => id in rs && rs[id].status.Pending?
    case DidPull(_, _, now) => id in rs && rs[id].status.Processing? && rs[id].updatedAt == now
    case DidMark(_, _, _) => id in rs ==> rs[id].status.Sent? || rs[id].status.Failed?
  }

  lemma {:induction false} LastTouchDecides(states: seq<Records>, ops: seq<Op>, j: nat, k: nat, id: string)
    requires IsRun(states, ops) && j < k <= |ops| && Touches(ops[j], id)
    requires forall i | j < i < k :: !Touches(ops[i], id)
    ensures LeftBy(ops[j], states[k], id)
    decreases k
  {
    var op := ops[k - 1];
    assert StepOk(states[k - 1], op, states[k]);
    if k == j + 1 {
      if op.DidPull? { assert id in Elements(op.ids); }
    } else {
      LastTouchDecides(states, ops, j, k - 1, id);
    }
  }

  /** A pull that comes back short returned everything there was to claim. */
  lemma ShortBatchIsAll(rs: Records, now: int, limit: nat, ids: seq<string>)
    requires IsBatch(rs, now, limit, ids) && |ids| < limit
    ensures Elements(ids) == ClaimableIds(rs, now)
  {
    OrderedLength(rs, ids);
    SubsetSize(Elements(ids), ClaimableIds(rs, now));
  }

  /**
    In every run a pull with room left returns a message exactly when the last operation
    on it was its enqueueing, or a pull at least two minutes earlier.
   */
  lemma PulledExactlyWhen(states: seq<Records>, ops: seq<Op>, j: nat, k: nat, id: string)
    requires IsRun(states, ops) && j < k < |ops| && ops[k].DidPull? && |ops[k].ids| < ops[k].limit
    requires Touches(ops[j], id) && forall i | j < i < k :: !Touches(ops[i], id)
    ensures id in ops[k].ids <==>
              ops[j].DidEnqueue? || (ops[j].DidPull? && ops[k].now - ops[j].now >= 2 * 60 * 1_000_000_000)
  {
    LastTouchDecides(states, ops, j, k, id);
    assert StepOk(states[k], ops[k], states[k + 1]);
    ShortBatchIsAll(states[k], ops[k].now, ops[k].limit, ops[k].ids);
    assert id in ops[k].ids <==> id in Elements(ops[k].ids);
  }

  /** A record keeps the time at which its message was enqueued. */
  lemma {:induction false} EnqueueTimeKept(states: seq<Records>, ops: seq<Op>, e: nat, k: nat)
    requires IsRun(states, ops) && e < k <= |ops| && ops[e].DidEnqueue?
    ensures ops[e].msg.id in states[k] && states[k][ops[e].msg.id].createdAt == ops[e].now
    decreases k
  {
    assert StepOk(states[k - 1], ops[k - 1], states[k]);
    if k > e + 1 { EnqueueTimeKept(states, ops, e, k - 1); }
  }

  /**
    In every run a pull takes messages by the time they were enqueued, then by id: one it
    returned comes before every later one it returned and every new one it left behind.
   */
  lemma PulledOldestFirst(states: seq<Records>, ops: seq<Op>, x: nat, y: nat, k: nat, i: nat)
    requires IsRun(states, ops) && x < k < |ops| && y < k && ops[x].DidEnqueue? && ops[y].DidEnqueue? && ops[k].DidPull?
    requires i < |ops[k].ids| && ops[k].ids[i] == ops[x].msg.id
    requires ops[y].msg.id in ops[k].ids[i + 1..]
             || (ops[y].msg.id !in ops[k].ids && forall m | y < m < k :: !Touches(ops[m], ops[y].msg.id))
    ensures || ops[x].now < ops[y].now
            || (ops[x].now == ops[y].now && exists n :: DiffersAt(ops[x].msg.id, ops[y].msg.id, n))
  {
    var ids, b := ops[k].ids, ops[y].msg.id;
    EnqueueTimeKept(states, ops, x, k);
    EnqueueTimeKept(states, ops, y, k);
    assert StepOk(states[k], ops[k], states[k + 1]);
    if b in ids[i + 1..] {
      var j :| 0 <= j < |ids[i + 1..]| && ids[i + 1..][j] == b;
      assert ids[i + 1 + j] == b;
    } else {
      LastTouchDecides(states, ops, y, k, b);
      assert ids[i] in ids && b !in Elements(ids);
    }
    assert Earlier(states[k], ids[i], b);
    BeforeIsLexicographic(ids[i], b);
  }

  function Enqueues(ops: seq<Op>): nat {
    if ops == [] then 0 else Enqueues(ops[..|ops| - 1]) + (if ops[|ops| - 1].DidEnqueue? then 1 else 0)
  }

  lemma Partition(rs: Records)
    ensures |rs| == |Backlog(rs)| + |WithStatus(rs, Sent)| + |WithStatus(rs, Failed)|
  {
    assert rs.Keys == Backlog(rs) + WithStatus(rs, Sent) + WithStatus(rs, Failed);
  }

  /** No message is lost: all that were enqueued are in the backlog, sent or failed. */
  lemma {:induction false} MessagesAreConserved(states: seq<Records>, ops: seq<Op>)
    requires IsRun(states, ops)
    ensures var rs := states[|ops|];
            Enqueues(ops) == |Backlog(rs)| + |WithStatus(rs, Sent)| + |WithStatus(rs, Failed)|
    decreases |ops|
  {
    var rs := states[|ops|];
    Partition(rs);
    if ops != [] {
      var n := |ops| - 1;
      MessagesAreConserved(states[..n + 1], ops[..n]);
      Partition(states[n]);
      assert StepOk(states[n], ops[n], rs);
      assert ops[n].DidEnqueue? ==> rs.Keys == states[n].Keys + {ops[n].msg.id};
      assert !ops[n].DidEnqueue? ==> rs.Keys == states[n].Keys;
    }
  }
}
