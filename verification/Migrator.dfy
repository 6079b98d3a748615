/** Applying and rolling back schema migrations, each in one transaction that may fail. */
module Migrator {
  import opened MigrationLoader

  /** The migration table and the rest of the schema. */
  datatype State<S> = State(applied: set<int>, schema: S)

  /** What executing a migration body does to the schema. */
  type Sql<!S> = (string, S) -> S

  // ------------------------------------------------------------------ what a call does

  function Pending(ms: seq<Migration>, applied: set<int>): seq<Migration> {
    if ms == [] then []
    else
      var last := ms[|ms| - 1];
      Pending(ms[..|ms| - 1], applied) + if last.version in applied then [] else [last]
  }

  function Elements(vs: seq<int>): set<int> {
    set v | v in vs
  }

  ghost function Find(ms: seq<Migration>, version: int): (m: Migration)
    requires version in Numbers(ms)
    ensures m in ms && m.version == version
  {
    var i :| 0 <= i < |ms| && Numbers(ms)[i] == version;
    ms[i]
  }

  /** How many versions go through before the first refusal. */
  function Leading(vs: seq<int>, ok: int -> bool): (n: nat)
    ensures n <= |vs| && (forall i | 0 <= i < n :: ok(vs[i])) && (n < |vs| ==> !ok(vs[n]))
  {
    if vs == [] || !ok(vs[0]) then 0 else 1 + Leading(vs[1..], ok)
  }

  function Forward<S>(sql: Sql<S>, ms: seq<Migration>, s: S): S {
    if ms == [] then s else sql(ms[|ms| - 1].up, Forward(sql, ms[..|ms| - 1], s))
  }

  ghost predicate AllKnown(ms: seq<Migration>, vs: seq<int>) {
    forall i | 0 <= i < |vs| :: vs[i] in Numbers(ms)
  }

  ghost function Backward<S>(sql: Sql<S>, ms: seq<Migration>, vs: seq<int>, s: S): S
    requires AllKnown(ms, vs)
  {
    if vs == [] then s else sql(Find(ms, vs[|vs| - 1]).down, Backward(sql, ms, vs[..|vs| - 1], s))
  }

  /** At most so many steps; no positive number means all. */
  function UpGoal(steps: int, pending: nat): (n: nat)
    ensures n <= pending
  {
    if 0 < steps < pending then steps else pending
  }

  function DownGoal(steps: int, applied: nat): (n: nat)
    ensures n <= applied
  {
    var n := if steps <= 0 then 1 else steps;
    if n < applied then n else applied
  }

  /** What an up call tries, in order. */
  function UpPlan(ms: seq<Migration>, applied: set<int>, steps: int): seq<Migration> {
    var p := Pending(ms, applied);
    p[..UpGoal(steps, |p|)]
  }

  function UpCount(ms: seq<Migration>, applied: set<int>, steps: int, ok: int -> bool): (n: nat)
    ensures n <= |UpPlan(ms, applied, steps)|
  {
    Leading(Numbers(UpPlan(ms, applied, steps)), ok)
  }

  function Up<S>(sql: Sql<S>, ms: seq<Migration>, st: State<S>, steps: int, ok: int -> bool): State<S> {
    var done := UpPlan(ms, st.applied, steps)[..UpCount(ms, st.applied, steps, ok)];
    State(st.applied + Elements(Numbers(done)), Forward(sql, done, st.schema))
  }

  ghost predicate Descending(vs: seq<int>) {
    forall i, j | 0 <= i < j < |vs| :: vs[i] > vs[j]
  }

  /** The applied versions, newest first. */
  function Newest(applied: set<int>): seq<int> {
    if applied == {} then []
    else
      var top := Largest(applied);
      [top] + Newest(applied - {top})
  }

  lemma PutFirst(top: int, rest: seq<int>)
    requires Descending(rest) && forall v | v in Elements(rest) :: v < top
    ensures Descending([top] + rest) && Elements([top] + rest) == Elements(rest) + {top}
  {
    assert forall i | 0 <= i < |rest| :: rest[i] in Elements(rest);
  }

  lemma {:induction false} NewestIsSorted(applied: set<int>)
    ensures Descending(Newest(applied)) && Elements(Newest(applied)) == applied
    decreases |applied|
  {
    if applied != {} {
      var top := Largest(applied);
      var rest := Newest(applied - {top});
      NewestIsSorted(applied - {top});
      PutFirst(top, rest);
    }
  }

  function Largest(vs: set<int>): (top: int)
    requires vs != {}
    ensures top in vs && forall v | v in vs :: v <= top
  {
    LargestExists(vs);
    var top :| top in vs && forall v | v in vs :: v <= top;
    top
  }

  lemma {:induction false} LargestExists(vs: set<int>)
    requires vs != {}
    ensures exists top :: top in vs && forall v | v in vs :: v <= top
    decreases |vs|
  {
    assert (forall v :: v !in vs) ==> vs == {};
    var v :| v in vs;
    var rest := vs - {v};
    if rest == {} {
      assert forall w | w in vs :: w == v || w in rest;
    } else {
      LargestExists(rest);
      var top :| top in rest && forall w | w in rest :: w <= top;
      var best := if v < top then top else v;
      assert best in vs && forall w | w in vs :: w <= best by {
        forall w | w in vs ensures w <= best {
          assert w == v || w in rest;
        }
      }
    }
  }

  function DownPlan(newest: seq<int>, steps: int): seq<int> {
    newest[..DownGoal(steps, |newest|)]
  }

  /** An unknown version is refused like a failing one. */
  function Reversible(ms: seq<Migration>, ok: int -> bool): int -> bool {
    v => v in Numbers(ms) && ok(v)
  }

  ghost function DownDone(ms: seq<Migration>, applied: set<int>, steps: int, ok: int -> bool): (vs: seq<int>)
    ensures AllKnown(ms, vs)
  {
    var plan := DownPlan(Newest(applied), steps);
    plan[..Leading(plan, Reversible(ms, ok))]
  }

  ghost function Down<S>(sql: Sql<S>, ms: seq<Migration>, st: State<S>, steps: int, ok: int -> bool): State<S> {
    var done := DownDone(ms, st.applied, steps, ok);
    State(st.applied - Elements(done), Backward(sql, ms, done, st.schema))
  }

  // --------------------------------------------------------- what a rollback amounts to

  /** A version that cannot be rolled back: it is not in the list, or its transaction fails. */
  predicate Stuck(ms: seq<Migration>, ok: int -> bool, v: int) {
    v !in Numbers(ms) || !ok(v)
  }

  /**
    The newest versions are gone, one at a time, as many as asked for and one if no number
    is; it ends early only with nothing left or at a version that cannot be rolled back.
   */
  ghost predicate RolledBack(ms: seq<Migration>, steps: int, ok: int -> bool, before: set<int>, after: set<int>) {
    var gone, most := before - after, if steps > 0 then steps else 1;
    && after <= before && |gone| <= most
    && (forall v, u | v in gone && u in after :: u < v)
    && (forall v | v in gone :: !Stuck(ms, ok, v))
    && (|gone| < most && after != {} ==>
          exists v :: v in after && (forall u | u in after :: u <= v) && Stuck(ms, ok, v))
  }

  lemma {:induction false} DescendingSize(vs: seq<int>)
    requires Descending(vs)
    ensures |Elements(vs)| == |vs|
  {
    if vs != [] {
      var n := |vs| - 1;
      assert vs == vs[..n] + [vs[n]];
      assert Elements(vs) == Elements(vs[..n]) + {vs[n]};
      DescendingSize(vs[..n]);
    }
  }

  /** Cutting off the first n of descending versions leaves the smaller ones. */
  lemma CutOff(vs: seq<int>, n: nat)
    requires Descending(vs) && n <= |vs|
    ensures Elements(vs[..n]) <= Elements(vs) && |Elements(vs[..n])| == n
    ensures Elements(vs) - Elements(vs[..n]) == Elements(vs[n..])
    ensures forall v, u | v in Elements(vs[..n]) && u in Elements(vs[n..]) :: u < v
    ensures n < |vs| ==> vs[n] in Elements(vs[n..]) && forall u | u in Elements(vs[n..]) :: u <= vs[n]
  {
    DescendingSize(vs[..n]);
    assert vs == vs[..n] + vs[n..];
    if n < |vs| { assert vs[n..][0] == vs[n]; }
  }

  lemma CutIsRollback(ms: seq<Migration>, steps: int, ok: int -> bool, vs: seq<int>, n: nat)
    requires Descending(vs) && n <= |vs| && n <= (if steps > 0 then steps else 1)
    requires forall i | 0 <= i < n :: !Stuck(ms, ok, vs[i])
    requires n < (if steps > 0 then steps else 1) && n < |vs| ==> Stuck(ms, ok, vs[n])
    ensures RolledBack(ms, steps, ok, Elements(vs), Elements(vs[n..]))
    ensures WentDown(steps, Elements(vs), Elements(vs[n..])) <==> n == |vs| || n == if steps > 0 then steps else 1
  {
    CutOff(vs, n);
    assert Elements(vs) - Elements(vs[n..]) == Elements(vs[..n]) by {
      assert Elements(vs[n..]) <= Elements(vs);
    }
    forall v | v in Elements(vs[..n]) ensures !Stuck(ms, ok, v) {
      var i :| 0 <= i < n && vs[i] == v;
    }
    if n < |vs| { assert vs[n] in Elements(vs[n..]); }
  }

  /** A rollback reports success when it went all the way. */
  ghost predicate WentDown(steps: int, before: set<int>, after: set<int>) {
    after == {} || |before - after| == if steps > 0 then steps else 1
  }

  lemma DownRollsBack<S>(sql: Sql<S>, ms: seq<Migration>, st: State<S>, steps: int, ok: int -> bool)
    ensures var after := Down(sql, ms, st, steps, ok).applied;
            && RolledBack(ms, steps, ok, st.applied, after)
            && (|DownDone(ms, st.applied, steps, ok)| == DownGoal(steps, |Newest(st.applied)|) <==>
                  WentDown(steps, st.applied, after))
  {
    var newest := Newest(st.applied);
    var plan := DownPlan(newest, steps);
    var n := Leading(plan, Reversible(ms, ok));
    NewestIsSorted(st.applied);
    assert plan[..n] == newest[..n] && DownDone(ms, st.applied, steps, ok) == newest[..n];
    CutOff(newest, n);
    forall i | 0 <= i < n ensures !Stuck(ms, ok, newest[i]) { assert Reversible(ms, ok)(plan[i]); }
    if n < |plan| { assert !Reversible(ms, ok)(plan[n]); }
    CutIsRollback(ms, steps, ok, newest, n);
  }

  /** Without a number of steps exactly one version is rolled back, if anything can be. */
  lemma OneStepByDefault(ms: seq<Migration>, steps: int, ok: int -> bool, before: set<int>, after: set<int>, v: int)
    requires steps <= 0 && RolledBack(ms, steps, ok, before, after)
    requires v in before && forall u | u in before :: u <= v
    ensures |after| >= |before| - 1
    ensures after == if Stuck(ms, ok, v) then before else before - {v}
  {
    var gone := before - after;
    assert before == after + gone && |before| == |after| + |gone|;
    if gone != {} {
      assert (forall x :: x !in gone) ==> gone == {};
      var x :| x in gone;
      assert |gone - {x}| == 0;
      assert gone == {x} && v !in after;
    }
  }

  // ---------------------------------------------------------- what a climb amounts to

  /** A version of the list that is not applied. */
  predicate Waits(ms: seq<Migration>, applied: set<int>, v: int) {
    v in Numbers(ms) && v !in applied
  }

  /**
    The oldest waiting versions were added, as many as asked for and all if no number is;
    it ends early only at a version whose transaction fails.
   */
  ghost predicate Raised(ms: seq<Migration>, steps: int, ok: int -> bool, before: set<int>, after: set<int>) {
    var added := after - before;
    && before <= after && (steps > 0 ==> |added| <= steps)
    && (forall v | v in added :: Waits(ms, before, v) && ok(v))
    && (forall v, u | v in added && Waits(ms, after, u) :: v < u)
    && (steps <= 0 || |added| < steps ==> (forall u :: !Waits(ms, after, u)) || NextFails(ms, ok, after))
  }

  /** The transaction of the oldest waiting version fails. */
  ghost predicate NextFails(ms: seq<Migration>, ok: int -> bool, applied: set<int>) {
    exists v :: Waits(ms, applied, v) && !ok(v) && forall u | Waits(ms, applied, u) :: v <= u
  }

  /** A climb reports success when nothing is left or enough was added. */
  ghost predicate WentUp(ms: seq<Migration>, steps: int, before: set<int>, after: set<int>) {
    (forall v :: !Waits(ms, after, v)) || (steps > 0 && |after - before| == steps)
  }

  lemma {:induction false} PendingIsWaiting(ms: seq<Migration>, applied: set<int>)
    requires Ascending(Numbers(ms))
    ensures Ascending(Numbers(Pending(ms, applied)))
    ensures forall v :: v in Numbers(Pending(ms, applied)) <==> Waits(ms, applied, v)
  {
    if ms != [] {
      var n := |ms| - 1;
      var before, last := ms[..n], ms[n];
      assert Numbers(ms) == Numbers(before) + [last.version];
      assert Ascending(Numbers(before)) by {
        assert forall i | 0 <= i < n :: Numbers(before)[i] == Numbers(ms)[i];
      }
      PendingIsWaiting(before, applied);
      var p := Pending(before, applied);
      OneMoreWaits(Numbers(before), Numbers(p), applied, last.version);
      assert Numbers(p + [last]) == Numbers(p) + [last.version];
      assert Pending(ms, applied) == if last.version in applied then p else p + [last];
      forall v ensures Waits(ms, applied, v) <==> Waits(before, applied, v) || (v == last.version && v !in applied) {}
    }
  }

  lemma OneMoreWaits(all: seq<int>, waiting: seq<int>, applied: set<int>, last: int)
    requires Ascending(all + [last]) && Ascending(waiting)
    requires forall v :: v in waiting <==> v in all && v !in applied
    ensures Ascending(waiting + [last])
  {
    forall i | 0 <= i < |waiting| ensures waiting[i] < last {
      assert waiting[i] in waiting;
      var j :| 0 <= j < |all| && all[j] == waiting[i];
      assert (all + [last])[j] < (all + [last])[|all|];
    }
  }

  lemma {:induction false} AscendingSize(vs: seq<int>)
    requires Ascending(vs)
    ensures |Elements(vs)| == |vs|
  {
    if vs != [] {
      var n := |vs| - 1;
      assert vs == vs[..n] + [vs[n]];
      assert Elements(vs) == Elements(vs[..n]) + {vs[n]};
      AscendingSize(vs[..n]);
    }
  }

  /** Adding the first n waiting versions leaves the others waiting. */
  lemma StillWaiting(ms: seq<Migration>, before: set<int>, vs: seq<int>, n: nat)
    requires Ascending(vs) && n <= |vs| && forall v :: v in vs <==> Waits(ms, before, v)
    ensures var after := before + Elements(vs[..n]);
            && after - before == Elements(vs[..n]) && |after - before| == n
            && (forall v :: Waits(ms, after, v) <==> v in vs[n..])
  {
    var after := before + Elements(vs[..n]);
    assert vs == vs[..n] + vs[n..];
    AscendingSize(vs[..n]);
    forall v | v in vs[..n] ensures v in vs && v !in before { assert Waits(ms, before, v); }
    assert after - before == Elements(vs[..n]);
    forall v ensures Waits(ms, after, v) <==> v in vs[n..] {
      if v in vs[n..] {
        assert Waits(ms, before, v);
        assert v !in vs[..n];
      } else if v in vs {
        assert v in Elements(vs[..n]);
      }
    }
  }

  /** The first of the others is the next to come, after everything that was added. */
  lemma NextInLine(ms: seq<Migration>, before: set<int>, vs: seq<int>, n: nat)
    requires Ascending(vs) && n <= |vs| && forall v :: v in vs <==> Waits(ms, before, v)
    ensures var after := before + Elements(vs[..n]);
            && (n < |vs| ==> Waits(ms, after, vs[n]) && forall u | Waits(ms, after, u) :: vs[n] <= u)
            && (forall v, u | v in Elements(vs[..n]) && Waits(ms, after, u) :: v < u)
  {
    StillWaiting(ms, before, vs, n);
    if n < |vs| { assert vs[n..][0] == vs[n]; }
  }

  lemma CutIsRaise(ms: seq<Migration>, steps: int, ok: int -> bool, before: set<int>, vs: seq<int>, n: nat)
    requires Ascending(vs) && n <= |vs| && forall v :: v in vs <==> Waits(ms, before, v)
    requires (steps > 0 ==> n <= steps) && forall i | 0 <= i < n :: ok(vs[i])
    requires n < |vs| && (steps <= 0 || n < steps) ==> !ok(vs[n])
    ensures Raised(ms, steps, ok, before, before + Elements(vs[..n]))
  {
    var after := before + Elements(vs[..n]);
    StillWaiting(ms, before, vs, n);
    NextInLine(ms, before, vs, n);
    forall v | v in Elements(vs[..n]) ensures Waits(ms, before, v) && ok(v) {
      assert v in vs;
    }
    if n == |vs| { assert vs[n..] == []; }
  }

  lemma WentUpWhen(ms: seq<Migration>, steps: int, before: set<int>, vs: seq<int>, n: nat)
    requires Ascending(vs) && n <= |vs| && forall v :: v in vs <==> Waits(ms, before, v)
    ensures WentUp(ms, steps, before, before + Elements(vs[..n])) <==> n == |vs| || n == steps > 0
  {
    StillWaiting(ms, before, vs, n);
    NextInLine(ms, before, vs, n);
    assert n == |vs| ==> vs[n..] == [];
    assert n < |vs| ==> Waits(ms, before + Elements(vs[..n]), vs[n]);
  }

  lemma UpRaises<S>(sql: Sql<S>, ms: seq<Migration>, st: State<S>, steps: int, ok: int -> bool)
    requires Ascending(Numbers(ms))
    ensures var after := Up(sql, ms, st, steps, ok).applied;
            && Raised(ms, steps, ok, st.applied, after)
            && (UpCount(ms, st.applied, steps, ok) == |UpPlan(ms, st.applied, steps)| <==>
                  WentUp(ms, steps, st.applied, after))
  {
    var p, plan := Pending(ms, st.applied), UpPlan(ms, st.applied, steps);
    var n := UpCount(ms, st.applied, steps, ok);
    var vs := Numbers(p);
    PendingIsWaiting(ms, st.applied);
    assert Numbers(plan) == vs[..|plan|] && Numbers(plan[..n]) == vs[..n];
    CutIsRaise(ms, steps, ok, st.applied, vs, n);
    WentUpWhen(ms, steps, st.applied, vs, n);
  }

  /** With no number of steps and no failure, everything in the list is applied. */
  lemma AllByDefault(ms: seq<Migration>, steps: int, ok: int -> bool, before: set<int>, after: set<int>)
    requires steps <= 0 && Raised(ms, steps, ok, before, after) && forall v | v in Numbers(ms) :: ok(v)
    ensures after == before + Elements(Numbers(ms))
  {
    assert !NextFails(ms, ok, after);
    assert forall v | v in Numbers(ms) :: v in after || Waits(ms, after, v);
    forall v | v in after ensures v in before + Elements(Numbers(ms)) {
      assert v !in before ==> Waits(ms, before, v);
    }
  }

  // ------------------------------------------------------------------------- the class

  lemma {:induction false} PendingPrefix(ms: seq<Migration>, applied: set<int>, i: nat)
    requires i <= |ms|
    ensures Pending(ms[..i], applied) <= Pending(ms, applied)
  {
    if i == |ms| {
      assert ms[..i] == ms;
    } else {
      var before := ms[..|ms| - 1];
      assert before[..i] == ms[..i];
      PendingPrefix(before, applied, i);
    }
  }

  lemma PendingNext(ms: seq<Migration>, applied: set<int>, i: nat)
    requires i < |ms|
    ensures Pending(ms[..i + 1], applied) == Pending(ms[..i], applied) + if ms[i].version in applied then []
            else [ms[i]]
    ensures Pending(ms[..i + 1], applied) <= Pending(ms, applied)
  {
    assert ms[..i + 1][..i] == ms[..i];
    PendingPrefix(ms, applied, i + 1);
  }

  /** The migrations p[..n] have been applied, and no others. */
  ghost predicate Climbed<S>(sql: Sql<S>, p: seq<Migration>, n: nat, was: State<S>, st: State<S>) {
    n <= |p| && st == State(was.applied + Elements(Numbers(p[..n])), Forward(sql, p[..n], was.schema))
  }

  lemma ClimbOn<S>(sql: Sql<S>, p: seq<Migration>, n: nat, was: State<S>, st: State<S>)
    requires n < |p| && Climbed(sql, p, n, was, st)
    ensures Climbed(sql, p, n + 1, was, State(st.applied + {p[n].version}, sql(p[n].up, st.schema)))
  {
    assert p[..n + 1][..n] == p[..n];
    assert Numbers(p[..n + 1]) == Numbers(p[..n]) + [p[n].version];
    assert Elements(Numbers(p[..n + 1])) == Elements(Numbers(p[..n])) + {p[n].version};
  }

  /** Versions of the list occur once, so a pending migration is not among those just applied. */
  lemma StillFresh(ms: seq<Migration>, applied: set<int>, i: nat)
    requires Ascending(Numbers(ms)) && i < |ms|
    ensures ms[i].version !in Elements(Numbers(Pending(ms[..i], applied)))
  {
    PendingIsEarlier(ms, applied, i);
  }

  lemma {:induction false} PendingIsEarlier(ms: seq<Migration>, applied: set<int>, i: nat)
    requires Ascending(Numbers(ms)) && i < |ms|
    ensures forall m | m in Pending(ms[..i], applied) :: m.version < ms[i].version
  {
    if i > 0 {
      assert ms[..i][..i - 1] == ms[..i - 1];
      PendingIsEarlier(ms, applied, i - 1);
      assert Numbers(ms)[i - 1] < Numbers(ms)[i];
    }
  }

  ghost predicate Descended<S>(sql: Sql<S>, ms: seq<Migration>, plan: seq<int>, n: nat, was: State<S>, st: State<S>) {
    && n <= |plan| && AllKnown(ms, plan[..n])
    && st == State(was.applied - Elements(plan[..n]), Backward(sql, ms, plan[..n], was.schema))
  }

  lemma DescendOn<S>(sql: Sql<S>, ms: seq<Migration>, plan: seq<int>, n: nat, was: State<S>, st: State<S>)
    requires n < |plan| && Descended(sql, ms, plan, n, was, st) && plan[n] in Numbers(ms)
    ensures Descended(sql, ms, plan, n + 1, was, State(st.applied - {plan[n]}, sql(Find(ms, plan[n]).down, st.schema)))
  {
    assert plan[..n + 1][..n] == plan[..n];
    assert Elements(plan[..n + 1]) == Elements(plan[..n]) + {plan[n]};
  }

  lemma FoundAt(ms: seq<Migration>, i: nat)
    requires Ascending(Numbers(ms)) && i < |ms|
    ensures Find(ms, ms[i].version) == ms[i]
  {
    assert Numbers(ms)[i] in Numbers(ms);
    var m := Find(ms, ms[i].version);
    assert m.version == ms[i].version;
    var j :| 0 <= j < |ms| && ms[j] == m;
    assert Numbers(ms)[j] == Numbers(ms)[i];
    assert j == i;
  }

  method IndexByVersion(ms: seq<Migration>) returns (byVersion: map<int, Migration>)
    requires Ascending(Numbers(ms))
    ensures forall v :: v in byVersion <==> v in Numbers(ms)
    ensures forall v | v in byVersion :: byVersion[v] == Find(ms, v)
  {
    byVersion := map[];
    for i := 0 to |ms|
      invariant forall v :: v in byVersion <==> v in Numbers(ms)[..i]
      invariant forall v | v in byVersion :: v in Numbers(ms) && byVersion[v] == Find(ms, v)
    {
      FoundAt(ms, i);
      assert Numbers(ms)[..i + 1] == Numbers(ms)[..i] + [ms[i].version];
      byVersion := byVersion[ms[i].version := ms[i]];
    }
    assert Numbers(ms)[..|ms|] == Numbers(ms);
  }

  lemma UpEnds<S>(sql: Sql<S>, ms: seq<Migration>, was: State<S>, steps: int, ok: int -> bool, n: nat, st: State<S>)
    requires var p := Pending(ms, was.applied);
             && n <= UpGoal(steps, |p|) && Climbed(sql, p, n, was, st)
             && (forall k | 0 <= k < n :: ok(p[k].version)) && (n < UpGoal(steps, |p|) ==> !ok(p[n].version))
    ensures st == Up(sql, ms, was, steps, ok) && UpCount(ms, was.applied, steps, ok) == n
  {
    var p, plan := Pending(ms, was.applied), UpPlan(ms, was.applied, steps);
    var vs := Numbers(plan);
    assert forall k | 0 <= k < |plan| :: vs[k] == p[k].version;
    assert Leading(vs, ok) == n;
    assert plan[..n] == p[..n];
  }

  lemma DownEnds<S>(sql: Sql<S>, ms: seq<Migration>, was: State<S>, steps: int, ok: int -> bool, n: nat, st: State<S>)
    requires var plan := DownPlan(Newest(was.applied), steps);
             && n <= |plan| && Descended(sql, ms, plan, n, was, st)
             && (forall k | 0 <= k < n :: Reversible(ms, ok)(plan[k])) && (n < |plan| ==> !Reversible(ms, ok)(plan[n]))
    ensures st == Down(sql, ms, was, steps, ok) && |DownDone(ms, was.applied, steps, ok)| == n
  {
    assert Leading(DownPlan(Newest(was.applied), steps), Reversible(ms, ok)) == n;
  }

  /** An up call has looked at i migrations and applied n. */
  ghost predicate Climbing<S>(
    sql: Sql<S>, ms: seq<Migration>, i: nat, steps: int, ok: int -> bool, n: nat, was: State<S>, st: State<S>)
  {
    var p := Pending(ms, was.applied);
    && i <= |ms| && n <= |p| && Pending(ms[..i], was.applied) == p[..n] && (steps > 0 ==> n < steps)
    && Climbed(sql, p, n, was, st) && forall k | 0 <= k < n :: ok(p[k].version)
  }

  lemma ClimbSkips<S>(
    sql: Sql<S>, ms: seq<Migration>, i: nat, steps: int, ok: int -> bool, n: nat, was: State<S>, st: State<S>)
    requires i < |ms| && Climbing(sql, ms, i, steps, ok, n, was, st) && ms[i].version in was.applied
    ensures Climbing(sql, ms, i + 1, steps, ok, n, was, st)
  {
    PendingNext(ms, was.applied, i);
  }

  /** The next migration to apply. */
  lemma ClimbMeets<S>(
    sql: Sql<S>, ms: seq<Migration>, i: nat, steps: int, ok: int -> bool, n: nat, was: State<S>, st: State<S>)
    requires i < |ms| && Climbing(sql, ms, i, steps, ok, n, was, st) && ms[i].version !in was.applied
    ensures var p := Pending(ms, was.applied);
            n < |p| && p[n] == ms[i] && Pending(ms[..i + 1], was.applied) == p[..n + 1]
  {
    var p := Pending(ms, was.applied);
    PendingNext(ms, was.applied, i);
    assert p[..n] + [ms[i]] <= p;
  }

  lemma ClimbMeetsFresh<S>(
    sql: Sql<S>, ms: seq<Migration>, i: nat, steps: int, ok: int -> bool, n: nat, was: State<S>, st: State<S>)
    requires Ascending(Numbers(ms)) && i < |ms| && Climbing(sql, ms, i, steps, ok, n, was, st)
    requires ms[i].version !in was.applied
    ensures ms[i].version !in st.applied
  {
    StillFresh(ms, was.applied, i);
  }

  lemma ClimbFails<S>(
    sql: Sql<S>, ms: seq<Migration>, i: nat, steps: int, ok: int -> bool, n: nat, was: State<S>, st: State<S>)
    requires Ascending(Numbers(ms)) && i < |ms| && Climbing(sql, ms, i, steps, ok, n, was, st)
    requires ms[i].version !in was.applied && !ok(ms[i].version)
    ensures st == Up(sql, ms, was, steps, ok)
    ensures UpCount(ms, was.applied, steps, ok) == n < |UpPlan(ms, was.applied, steps)|
  {
    ClimbMeets(sql, ms, i, steps, ok, n, was, st);
    UpEnds(sql, ms, was, steps, ok, n, st);
  }

  lemma ClimbSteps<S>(
    sql: Sql<S>, ms: seq<Migration>, i: nat, steps: int, ok: int -> bool, n: nat, was: State<S>, st: State<S>)
    requires Ascending(Numbers(ms)) && i < |ms| && Climbing(sql, ms, i, steps, ok, n, was, st)
    requires ms[i].version !in was.applied && ok(ms[i].version)
    ensures var st' := State(st.applied + {ms[i].version}, sql(ms[i].up, st.schema));
            if steps > 0 && n + 1 >= steps
            then st' == Up(sql, ms, was, steps, ok)
              && UpCount(ms, was.applied, steps, ok) == n + 1 == |UpPlan(ms, was.applied, steps)|
            else Climbing(sql, ms, i + 1, steps, ok, n + 1, was, st')
  {
    ClimbMeets(sql, ms, i, steps, ok, n, was, st);
    ClimbOn(sql, Pending(ms, was.applied), n, was, st);
    if steps > 0 && n + 1 >= steps {
      UpEnds(sql, ms, was, steps, ok, n + 1, State(st.applied + {ms[i].version}, sql(ms[i].up, st.schema)));
    }
  }

  lemma ClimbEnds<S>(sql: Sql<S>, ms: seq<Migration>, steps: int, ok: int -> bool, n: nat, was: State<S>, st: State<S>)
    requires Climbing(sql, ms, |ms|, steps, ok, n, was, st)
    ensures st == Up(sql, ms, was, steps, ok)
    ensures UpCount(ms, was.applied, steps, ok) == n == |UpPlan(ms, was.applied, steps)|
  {
    assert ms[..|ms|] == ms;
    UpEnds(sql, ms, was, steps, ok, n, st);
  }

  /** The database a migrator works on. */
  class Database<S(!new)> {
    const sql: Sql<S>
    var applied: set<int>
    var schema: S

    constructor (sql: Sql<S>, schema: S)
      ensures this.sql == sql && St() == State({}, schema)
    {
      this.sql, applied, this.schema := sql, {}, schema;
    }

    ghost function St(): State<S>
      reads this
    {
      State(applied, schema)
    }

    /** One transaction: body and record together, or neither. Recording a version twice fails. */
    method ApplyOneUp(m: Migration, commits: bool) returns (success: bool)
      modifies this
      ensures success <==> commits && m.version !in old(applied)
      ensures St() == if success then State(old(applied) + {m.version}, sql(m.up, old(schema))) else old(St())
    {
      if !commits || m.version in applied {
        return false;
      }
      schema := sql(m.up, schema);
      applied := applied + {m.version};
      return true;
    }

    method ApplyOneDown(m: Migration, commits: bool) returns (success: bool)
      modifies this
      ensures success == commits
      ensures St() == if success then State(old(applied) - {m.version}, sql(m.down, old(schema))) else old(St())
    {
      if !commits {
        return false;
      }
      schema := sql(m.down, schema);
      applied := applied - {m.version};
      return true;
    }

    method ApplyUp(ms: seq<Migration>, steps: int, ok: int -> bool) returns (success: bool)
      requires Ascending(Numbers(ms))
      modifies this
      ensures St() == Up(sql, ms, old(St()), steps, ok)
      ensures Raised(ms, steps, ok, old(applied), applied)
      ensures success <==> WentUp(ms, steps, old(applied), applied)
    {
      UpRaises(sql, ms, St(), steps, ok);
      success := Climb(ms, steps, ok);
    }

    method Climb(ms: seq<Migration>, steps: int, ok: int -> bool) returns (success: bool)
      requires Ascending(Numbers(ms))
      modifies this
      ensures St() == Up(sql, ms, old(St()), steps, ok)
      ensures success <==> UpCount(ms, old(applied), steps, ok) == |UpPlan(ms, old(applied), steps)|
    {
      var loaded := applied;
      ghost var was := St();
      var done := 0;
      for i := 0 to |ms|
        invariant Climbing(sql, ms, i, steps, ok, done, was, St())
      {
        var m := ms[i];
        if m.version in loaded {
          ClimbSkips(sql, ms, i, steps, ok, done, was, St());
          continue;
        }
        ClimbMeetsFresh(sql, ms, i, steps, ok, done, was, St());
        if ok(m.version) {
          ClimbSteps(sql, ms, i, steps, ok, done, was, St());
        } else {
          ClimbFails(sql, ms, i, steps, ok, done, was, St());
        }
        var committed := ApplyOneUp(m, ok(m.version));
        if !committed {
          return false;
        }
        done := done + 1;
        if steps > 0 && done >= steps {
          return true;
        }
      }
      ClimbEnds(sql, ms, steps, ok, done, was, St());
      return true;
    }

    method ApplyDown(ms: seq<Migration>, steps: int, ok: int -> bool) returns (success: bool)
      requires Ascending(Numbers(ms))
      modifies this
      ensures St() == Down(sql, ms, old(St()), steps, ok) && RolledBack(ms, steps, ok, old(applied), applied)
      ensures success <==> WentDown(steps, old(applied), applied)
    {
      DownRollsBack(sql, ms, St(), steps, ok);
      success := RollBack(ms, steps, ok);
    }

    method RollBack(ms: seq<Migration>, steps: int, ok: int -> bool) returns (success: bool)
      requires Ascending(Numbers(ms))
      modifies this
      ensures St() == Down(sql, ms, old(St()), steps, ok)
      ensures success <==> |DownDone(ms, old(applied), steps, ok)| == DownGoal(steps, |Newest(old(applied))|)
    {
      var byVersion := IndexByVersion(ms);
      var plan := DownPlan(Newest(applied), steps);
      ghost var was := St();
      assert plan[..0] == [];
      for n := 0 to |plan|
        invariant Descended(sql, ms, plan, n, was, St())
        invariant forall k | 0 <= k < n :: Reversible(ms, ok)(plan[k])
      {
        var version := plan[n];
        if version !in byVersion {
          DownEnds(sql, ms, was, steps, ok, n, St());
          return false;
        }
        DescendOn(sql, ms, plan, n, was, St());
        var committed := ApplyOneDown(byVersion[version], ok(version));
        if !committed {
          DownEnds(sql, ms, was, steps, ok, n, St());
          return false;
        }
      }
      DownEnds(sql, ms, was, steps, ok, |plan|, St());
      return true;
    }
  }
}
