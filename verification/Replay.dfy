/** The dead-letter replay tool: a bounded scan over the partitions of the dead-letter topic. */
module Replay {
  import opened Common
  import opened DeadLetter

  datatype Delivered = Delivered(offset: int, wire: Option<Json>)

  /** What the partition consumer's channels yield next; silence is the idle timeout. */
  datatype Tick = ContextDone | ConsumerError(isNil: bool) | Closed | Message(msg: Delivered) | IdleTimeout

  /** A partition as the client sees it: sampled offsets, and the stream from a start offset. */
  datatype Partition = Partition(
    id: int, oldest: Option<int>, newest: Option<int>, opens: bool, stream: int -> seq<Tick>)

  /** A consumer opened at an offset delivers nothing that lies before it. */
  ghost predicate Honest(p: Partition) {
    forall start: int, i: int | 0 <= i < |p.stream(start)| ::
      p.stream(start)[i].Message? ==> p.stream(start)[i].msg.offset >= start
  }

  datatype Stats = Stats(processed: nat, replayed: nat, skipped: nat)

  type Reader = Option<Json> -> Extracted

  function Plus(a: Stats, b: Stats): Stats {
    Stats(a.processed + b.processed, a.replayed + b.replayed, a.skipped + b.skipped)
  }

  // --------------------------------------------------------------- what a scan amounts to

  /** The messages among some ticks. */
  function Messages(ticks: seq<Tick>): seq<Delivered> {
    if ticks == [] then []
    else
      var last := ticks[|ticks| - 1];
      Messages(ticks[..|ticks| - 1]) + if last.Message? then [last.msg] else []
  }

  /** The messages the reader can replay. */
  function Readable(ms: seq<Delivered>, read: Reader): seq<Delivered> {
    if ms == [] then []
    else
      var last := ms[|ms| - 1];
      Readable(ms[..|ms| - 1], read) + if read(last.wire).Replay? then [last] else []
  }

  function Extracts(picked: seq<Delivered>, read: Reader): seq<Extracted> {
    Map(picked, (m: Delivered) => read(m.wire))
  }

  /** What has been sent once `picked` is replayed: in execute mode, one send for each message. */
  function Sends(execute: bool, was: seq<Extracted>, picked: seq<Delivered>, read: Reader): seq<Extracted> {
    if execute then was + Extracts(picked, read) else was
  }

  /** The sends tried: in execute mode one for each message replayed, all good, and at most a bad one at the end. */
  ghost predicate Tries(execute: bool, sends: nat -> bool, before: nat, after: nat, n: nat, sendFailed: bool) {
    if !execute then after == before && !sendFailed
    else
      && after == before + n + (if sendFailed then 1 else 0)
      && (forall k | before <= k < before + n :: sends(k)) && (sendFailed ==> !sends(before + n))
  }

  lemma OneMoreTry(execute: bool, sends: nat -> bool, before: nat, tried: nat, n: nat)
    requires Tries(execute, sends, before, tried, n, false)
    ensures execute && sends(tried) ==> Tries(execute, sends, before, tried + 1, n + 1, false)
    ensures execute && !sends(tried) ==> Tries(execute, sends, before, tried + 1, n, true)
    ensures !execute ==> Tries(execute, sends, before, tried, n + 1, false)
  {
  }

  lemma TriesJoin(execute: bool, sends: nat -> bool, a: nat, b: nat, c: nat, n: nat, m: nat, sendFailed: bool)
    requires Tries(execute, sends, a, b, n, false) && Tries(execute, sends, b, c, m, sendFailed)
    ensures Tries(execute, sends, a, c, n + m, sendFailed)
  {
  }

  /** A tick that a scan reads past: a message below the end, or an error that is none. */
  predicate ReadsPast(tick: Tick, end: int) {
    (tick.ConsumerError? && tick.isNil) || (tick.Message? && tick.msg.offset < end)
  }

  /** A replayed message that is the last before the end. */
  predicate LastOne(tick: Tick, end: int, read: Reader) {
    tick.Message? && read(tick.msg.wire).Replay? && tick.msg.offset + 1 >= end
  }

  /** The first n ticks were read: exactly their readable messages are replayed, the others skipped. */
  ghost predicate HasRead(ticks: seq<Tick>, n: nat, end: int, read: Reader, stats: Stats, picked: seq<Delivered>) {
    && n <= |ticks| && (forall i | 0 <= i < n :: ReadsPast(ticks[i], end))
    && var ms := Messages(ticks[..n]);
       && picked == Readable(ms, read)
       && stats.processed == |ms| && stats.replayed == |picked| && stats.skipped == |ms| - |picked|
  }

  /** Why a scan that has read n ticks stops, and whether that is a failure. */
  ghost predicate StopsAt(
    ticks: seq<Tick>, n: nat, limit: nat, end: int, read: Reader, processed: nat, sendFailed: bool, failed: bool)
    requires n <= |ticks|
  {
    if sendFailed then failed && n < |ticks| && ticks[n].Message? && read(ticks[n].msg.wire).Replay?
    else if processed == limit || n == |ticks| || (n > 0 && LastOne(ticks[n - 1], end, read)) then !failed
    else
      match ticks[n]
      case ContextDone => failed
      case ConsumerError(isNil) => failed && !isNil
      case Closed => !failed
      case IdleTimeout => !failed
      case Message(msg) => !failed && msg.offset >= end
  }

  /** A scan reads on until it has to stop. */
  ghost predicate IsScan(
    ticks: seq<Tick>, limit: nat, end: int, read: Reader, n: nat, stats: Stats, picked: seq<Delivered>,
    sendFailed: bool, failed: bool)
  {
    && HasRead(ticks, n, end, read, stats, picked) && stats.processed <= limit
    && (forall i | 0 <= i < n - 1 :: !LastOne(ticks[i], end, read))
    && StopsAt(ticks, n, limit, end, read, stats.processed, sendFailed, failed)
  }

  lemma ReadOne(ticks: seq<Tick>, n: nat, end: int, read: Reader, stats: Stats, picked: seq<Delivered>)
    requires n < |ticks| && HasRead(ticks, n, end, read, stats, picked) && ReadsPast(ticks[n], end)
    ensures ticks[n].ConsumerError? ==> HasRead(ticks, n + 1, end, read, stats, picked)
    ensures ticks[n].Message? ==>
              if read(ticks[n].msg.wire).Replay?
              then HasRead(ticks, n + 1, end, read, Plus(stats, Stats(1, 1, 0)), picked + [ticks[n].msg])
              else HasRead(ticks, n + 1, end, read, Plus(stats, Stats(1, 0, 1)), picked)
  {
    assert ticks[..n + 1][..n] == ticks[..n];
    if ticks[n].Message? {
      var ms := Messages(ticks[..n]);
      assert Messages(ticks[..n + 1]) == ms + [ticks[n].msg];
      assert (ms + [ticks[n].msg])[..|ms|] == ms;
    } else {
      assert Messages(ticks[..n + 1]) == Messages(ticks[..n]);
    }
  }

  /** A scan that has not had to stop yet. */
  ghost predicate Going(
    ticks: seq<Tick>, n: nat, limit: nat, end: int, read: Reader, stats: Stats, picked: seq<Delivered>)
  {
    && HasRead(ticks, n, end, read, stats, picked) && stats.processed <= limit
    && forall i | 0 <= i < n :: !LastOne(ticks[i], end, read)
  }

  /** The next tick is read past. */
  lemma GoesOn(ticks: seq<Tick>, n: nat, limit: nat, end: int, read: Reader, stats: Stats, picked: seq<Delivered>)
    requires n < |ticks| && Going(ticks, n, limit, end, read, stats, picked) && ReadsPast(ticks[n], end)
    requires stats.processed < limit
    ensures ticks[n].ConsumerError? ==> Going(ticks, n + 1, limit, end, read, stats, picked)
    ensures ticks[n].Message? ==>
              if !read(ticks[n].msg.wire).Replay?
              then Going(ticks, n + 1, limit, end, read, Plus(stats, Stats(1, 0, 1)), picked)
              else
                var stats', picked' := Plus(stats, Stats(1, 1, 0)), picked + [ticks[n].msg];
                if ticks[n].msg.offset + 1 < end then Going(ticks, n + 1, limit, end, read, stats', picked')
                else IsScan(ticks, limit, end, read, n + 1, stats', picked', false, false)
  {
    ReadOne(ticks, n, end, read, stats, picked);
  }

  lemma GoesNoFurther(
    ticks: seq<Tick>, n: nat, limit: nat, end: int, read: Reader, stats: Stats, picked: seq<Delivered>,
    sendFailed: bool, failed: bool)
    requires Going(ticks, n, limit, end, read, stats, picked)
    requires StopsAt(ticks, n, limit, end, read, stats.processed, sendFailed, failed)
    ensures IsScan(ticks, limit, end, read, n, stats, picked, sendFailed, failed)
  {
  }

  lemma ExtractsAppend(picked: seq<Delivered>, more: seq<Delivered>, read: Reader)
    ensures Extracts(picked + more, read) == Extracts(picked, read) + Extracts(more, read)
  {
  }

  lemma {:induction false} ReadableAreMessages(ticks: seq<Tick>, read: Reader, m: Delivered)
    requires m in Readable(Messages(ticks), read)
    ensures exists i :: 0 <= i < |ticks| && ticks[i].Message? && ticks[i].msg == m
  {
    ReadableIn(Messages(ticks), read, m);
    MessageIn(ticks, m);
  }

  lemma {:induction false} ReadableIn(ms: seq<Delivered>, read: Reader, m: Delivered)
    requires m in Readable(ms, read)
    ensures m in ms && read(m.wire).Replay?
  {
    if m in Readable(ms[..|ms| - 1], read) { ReadableIn(ms[..|ms| - 1], read, m); }
  }

  lemma {:induction false} MessageIn(ticks: seq<Tick>, m: Delivered)
    requires m in Messages(ticks)
    ensures exists i :: 0 <= i < |ticks| && ticks[i].Message? && ticks[i].msg == m
  {
    var n := |ticks| - 1;
    if m in Messages(ticks[..n]) {
      MessageIn(ticks[..n], m);
      var i :| 0 <= i < n && ticks[..n][i].Message? && ticks[..n][i].msg == m;
      assert ticks[i].msg == m;
    }
  }

  // ---------------------------------------------------------- what a partition amounts to

  /** The result of one partition; n ticks of its stream were read. */
  datatype Part = Part(stats: Stats, failed: bool, picked: seq<Delivered>, n: nat, sendFailed: bool)

  const NOTHING := Stats(0, 0, 0)

  function StartOffset(oldest: int, newest: int, limit: int, fromNewest: bool): int {
    if fromNewest && newest - limit > oldest then newest - limit else oldest
  }

  ghost predicate IsPart(p: Partition, limit: int, fromNewest: bool, read: Reader, x: Part) {
    if limit <= 0 then x == Part(NOTHING, false, [], 0, false)
    else if p.oldest.None? || p.newest.None? then x == Part(NOTHING, true, [], 0, false)
    else if p.newest.value <= p.oldest.value then x == Part(NOTHING, false, [], 0, false)
    else if !p.opens then x == Part(NOTHING, true, [], 0, false)
    else
      var ticks := p.stream(StartOffset(p.oldest.value, p.newest.value, limit, fromNewest));
      IsScan(ticks, limit, p.newest.value, read, x.n, x.stats, x.picked, x.sendFailed, x.failed)
  }

  /** The oldest offset, or from the newest as many before it as the limit allows if there are so many. */
  lemma StartOffsetIs(oldest: int, newest: int, limit: int)
    ensures StartOffset(oldest, newest, limit, false) == oldest
    ensures newest - oldest >= limit ==> StartOffset(oldest, newest, limit, true) == newest - limit
    ensures newest - oldest < limit ==> StartOffset(oldest, newest, limit, true) == oldest
  {
  }

  /** Replayed messages lie between the sampled offsets and, read from the newest, among the last the limit allows. */
  ghost predicate Within(p: Partition, picked: seq<Delivered>, limit: int, fromNewest: bool) {
    picked != [] ==>
      && p.oldest.Some? && p.newest.Some?
      && forall i | 0 <= i < |picked| ::
           && p.oldest.value <= picked[i].offset < p.newest.value
           && (fromNewest ==> picked[i].offset >= p.newest.value - limit)
  }

  lemma PartIsWithin(p: Partition, limit: int, fromNewest: bool, read: Reader, x: Part)
    requires Honest(p) && IsPart(p, limit, fromNewest, read, x)
    ensures Within(p, x.picked, limit, fromNewest)
  {
    if x.picked != [] {
      StartOffsetIs(p.oldest.value, p.newest.value, limit);
      var start := StartOffset(p.oldest.value, p.newest.value, limit, fromNewest);
      var ticks := p.stream(start);
      forall i | 0 <= i < |x.picked| ensures start <= x.picked[i].offset < p.newest.value {
        ReadableAreMessages(ticks[..x.n], read, x.picked[i]);
        var j :| 0 <= j < |ticks[..x.n]| && ticks[..x.n][j].Message? && ticks[..x.n][j].msg == x.picked[i];
        assert ticks[j] == ticks[..x.n][j] && ReadsPast(ticks[j], p.newest.value);
      }
    }
  }

  // ----------------------------------------------------------------- what a run amounts to

  function Sum(parts: seq<Part>): Stats {
    if parts == [] then NOTHING else Plus(Sum(parts[..|parts| - 1]), parts[|parts| - 1].stats)
  }

  function AllPicked(parts: seq<Part>): seq<Delivered> {
    if parts == [] then [] else AllPicked(parts[..|parts| - 1]) + parts[|parts| - 1].picked
  }

  /** What earlier partitions leave of the limit. */
  function Left(parts: seq<Part>, limit: int): int {
    limit - Sum(parts).processed
  }

  /** Partition i was read with the limit that those before it had left, and only the last may have failed. */
  ghost predicate One(ps: seq<Partition>, parts: seq<Part>, limit: int, fromNewest: bool, read: Reader, i: nat)
    requires i < |parts| <= |ps|
  {
    && Left(parts[..i], limit) > 0
    && IsPart(ps[i], Left(parts[..i], limit), fromNewest, read, parts[i])
    && (i < |parts| - 1 ==> !parts[i].failed)
  }

  ghost predicate Each(ps: seq<Partition>, parts: seq<Part>, limit: int, fromNewest: bool, read: Reader) {
    |parts| <= |ps| && forall i | 0 <= i < |parts| :: One(ps, parts, limit, fromNewest, read, i)
  }

  lemma EachAppend(ps: seq<Partition>, parts: seq<Part>, limit: int, fromNewest: bool, read: Reader, x: Part)
    requires Each(ps, parts, limit, fromNewest, read) && |parts| < |ps| && Left(parts, limit) > 0
    requires parts != [] ==> !parts[|parts| - 1].failed
    requires IsPart(ps[|parts|], Left(parts, limit), fromNewest, read, x)
    ensures Each(ps, parts + [x], limit, fromNewest, read)
    ensures Sum(parts + [x]) == Plus(Sum(parts), x.stats) && AllPicked(parts + [x]) == AllPicked(parts) + x.picked
  {
    var all := parts + [x];
    assert all[..|parts|] == parts && all[|parts|] == x;
    forall i | 0 <= i < |all| ensures One(ps, all, limit, fromNewest, read, i) {
      if i < |parts| {
        OneKept(ps, parts, limit, fromNewest, read, x, i);
      } else {
        OneNew(ps, parts, limit, fromNewest, read, x);
      }
    }
  }

  lemma OneNew(ps: seq<Partition>, parts: seq<Part>, limit: int, fromNewest: bool, read: Reader, x: Part)
    requires |parts| < |ps| && Left(parts, limit) > 0
    requires IsPart(ps[|parts|], Left(parts, limit), fromNewest, read, x)
    ensures One(ps, parts + [x], limit, fromNewest, read, |parts|)
  {
    var all := parts + [x];
    assert all[..|parts|] == parts && all[|parts|] == x;
    assert Left(all[..|parts|], limit) == Left(parts, limit);
  }

  lemma OneKept(ps: seq<Partition>, parts: seq<Part>, limit: int, fromNewest: bool, read: Reader, x: Part, i: nat)
    requires i < |parts| < |ps| && One(ps, parts, limit, fromNewest, read, i) && !parts[|parts| - 1].failed
    ensures One(ps, parts + [x], limit, fromNewest, read, i)
  {
    assert (parts + [x])[..i] == parts[..i] && (parts + [x])[i] == parts[i];
  }

  lemma SendsAppend(execute: bool, was: seq<Extracted>, a: seq<Delivered>, b: seq<Delivered>, read: Reader)
    ensures Sends(execute, was, a + b, read) == Sends(execute, Sends(execute, was, a, read), b, read)
  {
    ExtractsAppend(a, b, read);
  }

  /** No more than the limit is processed, processed is replayed plus skipped, and replayed are the messages picked. */
  lemma {:induction false} RunIsBounded(
    ps: seq<Partition>, parts: seq<Part>, limit: int, fromNewest: bool, read: Reader)
    requires Each(ps, parts, limit, fromNewest, read)
    ensures var s := Sum(parts);
            && s.processed == s.replayed + s.skipped && s.replayed == |AllPicked(parts)|
            && s.processed <= if limit <= 0 then 0 else limit
    decreases |parts|
  {
    if parts != [] {
      var n := |parts| - 1;
      var before := parts[..n];
      assert One(ps, parts, limit, fromNewest, read, n);
      forall i | 0 <= i < n ensures One(ps, before, limit, fromNewest, read, i) {
        assert One(ps, parts, limit, fromNewest, read, i) && before[..i] == parts[..i] && before[i] == parts[i];
      }
      RunIsBounded(ps, before, limit, fromNewest, read);
    }
  }

  class Replayer {
    const read: Reader
    const execute: bool
    const fromNewest: bool
    const sends: nat -> bool

    var tried: nat
    var sent: seq<Extracted>

    constructor (targetTopic: string, at: string, execute: bool, fromNewest: bool, sends: nat -> bool)
      ensures sent == [] && tried == 0
      ensures this.execute == execute && this.fromNewest == fromNewest && this.sends == sends
      ensures forall wire :: read(wire) == Extract(wire, targetTopic, at)
    {
      this.read := wire => Extract(wire, targetTopic, at);
      this.execute, this.fromNewest, this.sends := execute, fromNewest, sends;
      tried, sent := 0, [];
    }

    method Publish(x: Extracted) returns (ok: bool)
      modifies this
      ensures ok == sends(old(tried)) && tried == old(tried) + 1
      ensures sent == if ok then old(sent) + [x] else old(sent)
    {
      ok := sends(tried);
      tried := tried + 1;
      if ok {
        sent := sent + [x];
      }
    }

    /** One message: replayed if it can be read and, in execute mode, sent; skipped exactly if it cannot be read. */
    method Handle(msg: Delivered, stats: Stats) returns (stats': Stats, failed: bool)
      modifies this
      ensures failed <==> execute && read(msg.wire).Replay? && !sends(old(tried))
      ensures stats' == if failed then stats
                        else if read(msg.wire).Replay? then Plus(stats, Stats(1, 1, 0))
                        else Plus(stats, Stats(1, 0, 1))
      ensures sent == if execute && read(msg.wire).Replay? && !failed then old(sent) + [read(msg.wire)] else old(sent)
      ensures tried == old(tried) + if execute && read(msg.wire).Replay? then 1 else 0
    {
      stats', failed := stats, false;
      var x := read(msg.wire);
      if !x.Replay? {
        stats' := Stats(stats.processed + 1, stats.replayed, stats.skipped + 1);
        return;
      }
      if execute {
        var ok := Publish(x);
        if !ok {
          failed := true;
          return;
        }
      }
      stats' := Stats(stats.processed + 1, stats.replayed + 1, stats.skipped);
    }

    /** The message at hand, below the end and within the limit; `done` when it was the last to replay. */
    method Take(
      ticks: seq<Tick>, i: nat, limit: nat, end: int, stats: Stats, ghost picked: seq<Delivered>,
      ghost was: seq<Extracted>, ghost before: nat)
      returns (stats': Stats, failed: bool, done: bool, ghost picked': seq<Delivered>)
      requires i < |ticks| && ticks[i].Message? && ticks[i].msg.offset < end && stats.processed < limit
      requires Going(ticks, i, limit, end, read, stats, picked) && sent == Sends(execute, was, picked, read)
      requires Tries(execute, sends, before, tried, |picked|, false)
      modifies this
      ensures failed ==> stats' == stats && picked' == picked && execute && read(ticks[i].msg.wire).Replay?
      ensures !failed && done ==> IsScan(ticks, limit, end, read, i + 1, stats', picked', false, false)
      ensures !failed && !done ==> Going(ticks, i + 1, limit, end, read, stats', picked')
      ensures sent == Sends(execute, was, picked', read)
      ensures Tries(execute, sends, before, tried, |picked'|, failed)
    {
      var msg := ticks[i].msg;
      done, picked' := false, picked;
      GoesOn(ticks, i, limit, end, read, stats, picked);
      OneMoreTry(execute, sends, before, tried, |picked|);
      ExtractsAppend(picked, [msg], read);
      stats', failed := Handle(msg, stats);
      if !failed && read(msg.wire).Replay? {
        picked' := picked + [msg];
        done := msg.offset + 1 >= end;
      }
    }

    /** Reads one stream until the limit, the sampled end, silence, or an error. */
    method Scan(ticks: seq<Tick>, limit: nat, end: int) returns (stats: Stats, failed: bool, ghost x: Part)
      modifies this
      ensures stats == x.stats && failed == x.failed && (x.sendFailed ==> failed)
      ensures IsScan(ticks, limit, end, read, x.n, x.stats, x.picked, x.sendFailed, x.failed)
      ensures sent == Sends(execute, old(sent), x.picked, read)
      ensures Tries(execute, sends, old(tried), tried, |x.picked|, x.sendFailed)
    {
      stats, failed := NOTHING, false;
      ghost var picked: seq<Delivered> := [];
      ghost var sendFailed := false;
      var i := 0;
      while stats.processed < limit && i < |ticks|
        invariant 0 <= i <= |ticks| && !failed && !sendFailed && Going(ticks, i, limit, end, read, stats, picked)
        invariant sent == Sends(execute, old(sent), picked, read)
        invariant Tries(execute, sends, old(tried), tried, |picked|, false)
        decreases |ticks| - i
      {
        var tick := ticks[i];
        if tick.ContextDone? || (tick.ConsumerError? && !tick.isNil) {
          failed := true;
          break;
        }
        if tick.Closed? || tick.IdleTimeout? || (tick.Message? && tick.msg.offset >= end) {
          break;
        }
        if tick.ConsumerError? {
          GoesOn(ticks, i, limit, end, read, stats, picked);
        } else {
          var done;
          stats, failed, done, picked := Take(ticks, i, limit, end, stats, picked, old(sent), old(tried));
          if failed {
            sendFailed := true;
            break;
          }
          if done {
            x := Part(stats, false, picked, i + 1, false);
            return;
          }
        }
        i := i + 1;
      }
      GoesNoFurther(ticks, i, limit, end, read, stats, picked, sendFailed, failed);
      x := Part(stats, failed, picked, i, sendFailed);
    }

    method ProcessPartition(p: Partition, limit: int) returns (stats: Stats, failed: bool, ghost x: Part)
      modifies this
      ensures stats == x.stats && failed == x.failed && (x.sendFailed ==> failed)
      ensures IsPart(p, limit, fromNewest, read, x)
      ensures sent == Sends(execute, old(sent), x.picked, read)
      ensures Tries(execute, sends, old(tried), tried, |x.picked|, x.sendFailed)
    {
      stats, failed := NOTHING, false;
      x := Part(NOTHING, false, [], 0, false);
      if limit <= 0 {
        return;
      }
      if p.oldest.None? || p.newest.None? {
        failed, x := true, x.(failed := true);
        return;
      }
      var oldest, newest := p.oldest.value, p.newest.value;
      if newest <= oldest {
        return;
      }
      var start := oldest;
      if fromNewest {
        start := newest - limit;
        if start < oldest {
          start := oldest;
        }
      }
      if !p.opens {
        failed, x := true, x.(failed := true);
        return;
      }
      stats, failed, x := Scan(p.stream(start), limit, newest);
    }

    /** One partition more. */
    method NextPartition(
      partitions: seq<Partition>, i: nat, limit: int, stats: Stats, ghost parts: seq<Part>, ghost was: seq<Extracted>,
      ghost before: nat)
      returns (stats': Stats, failed: bool, ghost parts': seq<Part>)
      requires i < |partitions| && |parts| == i && stats == Sum(parts) && stats.processed < limit
      requires Each(partitions, parts, limit, fromNewest, read) && (parts != [] ==> !parts[i - 1].failed)
      requires sent == Sends(execute, was, AllPicked(parts), read)
      requires Tries(execute, sends, before, tried, |AllPicked(parts)|, false)
      modifies this
      ensures |parts'| == i + 1 && parts'[i].failed == failed && stats' == Sum(parts')
      ensures Each(partitions, parts', limit, fromNewest, read)
      ensures sent == Sends(execute, was, AllPicked(parts'), read)
      ensures Tries(execute, sends, before, tried, |AllPicked(parts')|, parts'[i].sendFailed)
      ensures parts'[i].sendFailed ==> failed
    {
      var s;
      ghost var x;
      s, failed, x := ProcessPartition(partitions[i], limit - stats.processed);
      EachAppend(partitions, parts, limit, fromNewest, read, x);
      parts' := parts + [x];
      SendsAppend(execute, was, AllPicked(parts), x.picked, read);
      TriesJoin(execute, sends, before, old(tried), tried, |AllPicked(parts)|, |x.picked|, x.sendFailed);
      stats' := Plus(stats, s);
    }

    /**
      All partitions in order, with one limit for them together, until it is used up, a
      partition fails, or there is none left.  What was sent is exactly what was replayed,
      message by message.
     */
    method RunReplay(partitions: seq<Partition>, limit: int)
      returns (stats: Stats, failed: bool, ghost parts: seq<Part>)
      modifies this
      ensures stats == Sum(parts) && Each(partitions, parts, limit, fromNewest, read)
      ensures failed <==> parts != [] && parts[|parts| - 1].failed
      ensures !failed ==> |parts| == |partitions| || stats.processed >= limit
      ensures sent == Sends(execute, old(sent), AllPicked(parts), read)
      ensures Tries(execute, sends, old(tried), tried, |AllPicked(parts)|,
                parts != [] && parts[|parts| - 1].sendFailed)
      ensures stats.processed == stats.replayed + stats.skipped && stats.replayed == |AllPicked(parts)|
      ensures stats.processed <= if limit <= 0 then 0 else limit
    {
      ghost var was := sent;
      stats, failed, parts := NOTHING, false, [];
      var i := 0;
      while i < |partitions| && stats.processed < limit
        invariant 0 <= i <= |partitions| && |parts| == i && !failed && (parts != [] ==> !parts[i - 1].failed)
        invariant sent == Sends(execute, was, AllPicked(parts), read)
        invariant Tries(execute, sends, old(tried), tried, |AllPicked(parts)|, false)
        invariant parts != [] ==> !parts[i - 1].sendFailed
        invariant stats == Sum(parts) && Each(partitions, parts, limit, fromNewest, read)
      {
        stats, failed, parts := NextPartition(partitions, i, limit, stats, parts, was, old(tried));
        i := i + 1;
        if failed {
          break;
        }
      }
      RunIsBounded(partitions, parts, limit, fromNewest, read);
    }
  }
}
