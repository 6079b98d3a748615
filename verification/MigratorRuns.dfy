/** What holds through every sequence of up and down calls, whichever migrations fail. */
module MigratorRuns {
  import opened MigrationLoader
  import opened Migrator

  /** The versions of the first k migrations. */
  function Prefix(ms: seq<Migration>, k: nat): set<int>
    requires k <= |ms|
  {
    Elements(Numbers(ms[..k]))
  }

  /** The database after exactly the first k migrations, starting from schema s. */
  function At<S>(sql: Sql<S>, ms: seq<Migration>, s: S, k: nat): State<S>
    requires k <= |ms|
  {
    State(Prefix(ms, k), Forward(sql, ms[..k], s))
  }

  /** Every rollback undoes its migration. */
  ghost predicate Inverts<S(!new)>(sql: Sql<S>, ms: seq<Migration>) {
    forall i, s | 0 <= i < |ms| :: sql(ms[i].down, sql(ms[i].up, s)) == s
  }

  // -------------------------------------------------------------------- about prefixes

  lemma InPrefix(ms: seq<Migration>, k: nat, i: nat)
    requires Ascending(Numbers(ms)) && k <= |ms| && i < |ms|
    ensures ms[i].version in Prefix(ms, k) <==> i < k
  {
    var vs := Numbers(ms[..k]);
    assert forall j | 0 <= j < k :: vs[j] == Numbers(ms)[j] && (i >= k ==> vs[j] < Numbers(ms)[i]);
    if i < k {
      assert vs[i] in vs;
    }
  }

  lemma {:induction false} PendingWithin(ms: seq<Migration>, k: nat, i: nat)
    requires Ascending(Numbers(ms)) && i <= k <= |ms|
    ensures Pending(ms[..i], Prefix(ms, k)) == []
  {
    if i > 0 {
      assert ms[..i][..i - 1] == ms[..i - 1];
      PendingWithin(ms, k, i - 1);
      InPrefix(ms, k, i - 1);
    }
  }

  lemma {:induction false} PendingUpTo(ms: seq<Migration>, k: nat, i: nat)
    requires Ascending(Numbers(ms)) && k <= i <= |ms|
    ensures Pending(ms[..i], Prefix(ms, k)) == ms[k..i]
  {
    if i == k {
      PendingWithin(ms, k, k);
    } else {
      assert ms[..i][..i - 1] == ms[..i - 1];
      PendingUpTo(ms, k, i - 1);
      InPrefix(ms, k, i - 1);
      assert ms[k..i] == ms[k..i - 1] + [ms[i - 1]];
    }
  }

  lemma Whole(ms: seq<Migration>)
    ensures ms[..|ms|] == ms
  {}

  lemma PendingAfterPrefix(ms: seq<Migration>, k: nat)
    requires Ascending(Numbers(ms)) && k <= |ms|
    ensures Pending(ms, Prefix(ms, k)) == ms[k..|ms|]
  {
    var applied, rest := Prefix(ms, k), ms[k..|ms|];
    assert Pending(ms[..|ms|], applied) == rest by { PendingUpTo(ms, k, |ms|); }
    Whole(ms);
  }

  lemma PrefixGrows(ms: seq<Migration>, k: nat, n: nat)
    requires k + n <= |ms|
    ensures Prefix(ms, k + n) == Prefix(ms, k) + Elements(Numbers(ms[k..k + n]))
  {
    assert ms[..k + n] == ms[..k] + ms[k..k + n];
    assert Numbers(ms[..k + n]) == Numbers(ms[..k]) + Numbers(ms[k..k + n]);
  }

  lemma PrefixTop(ms: seq<Migration>, k: nat)
    requires Ascending(Numbers(ms)) && 0 < k <= |ms|
    ensures Prefix(ms, k) != {} && Largest(Prefix(ms, k)) == ms[k - 1].version
    ensures Prefix(ms, k) - {ms[k - 1].version} == Prefix(ms, k - 1)
  {
    InPrefix(ms, k, k - 1);
    InPrefix(ms, k - 1, k - 1);
    var vs, top := Numbers(ms[..k]), ms[k - 1].version;
    assert forall j | 0 <= j < k :: vs[j] == Numbers(ms)[j];
    assert forall v | v in Prefix(ms, k) :: v <= top;
    assert Numbers(ms[..k]) == Numbers(ms[..k - 1]) + [top];
  }

  function Backwards(ms: seq<Migration>, k: nat): (vs: seq<int>)
    requires k <= |ms|
    ensures |vs| == k && forall i | 0 <= i < k :: vs[i] == ms[k - 1 - i].version
  {
    if k == 0 then [] else [ms[k - 1].version] + Backwards(ms, k - 1)
  }

  /** Newest first is the prefix backwards. */
  lemma {:induction false} NewestOfPrefix(ms: seq<Migration>, k: nat)
    requires Ascending(Numbers(ms)) && k <= |ms|
    ensures Newest(Prefix(ms, k)) == Backwards(ms, k)
  {
    if k > 0 {
      PrefixTop(ms, k);
      NewestOfPrefix(ms, k - 1);
    }
  }

  lemma {:induction false} PrefixShrinks(ms: seq<Migration>, k: nat, vs: seq<int>)
    requires Ascending(Numbers(ms)) && |vs| <= k <= |ms| && forall i | 0 <= i < |vs| :: vs[i] == ms[k - 1 - i].version
    ensures Prefix(ms, k) - Elements(vs) == Prefix(ms, k - |vs|)
    decreases |vs|
  {
    if vs != [] {
      var n := |vs| - 1;
      PrefixShrinks(ms, k, vs[..n]);
      PrefixTop(ms, k - n);
      WithoutLast(Prefix(ms, k), vs);
    }
  }

  lemma WithoutLast(p: set<int>, vs: seq<int>)
    requires vs != []
    ensures p - Elements(vs) == p - Elements(vs[..|vs| - 1]) - {vs[|vs| - 1]}
  {
    var n := |vs| - 1;
    assert vs == vs[..n] + [vs[n]];
    assert Elements(vs) == Elements(vs[..n]) + {vs[n]};
  }

  lemma {:induction false} PrefixSize(ms: seq<Migration>, k: nat)
    requires Ascending(Numbers(ms)) && k <= |ms|
    ensures |Prefix(ms, k)| == k
  {
    if k > 0 {
      PrefixTop(ms, k);
      PrefixSize(ms, k - 1);
      assert ms[k - 1].version in Prefix(ms, k) by { InPrefix(ms, k, k - 1); }
    }
  }

  // ------------------------------------------------------------------------- one call

  lemma {:induction false} ForwardAppend<S>(sql: Sql<S>, a: seq<Migration>, b: seq<Migration>, s: S)
    ensures Forward(sql, a + b, s) == Forward(sql, b, Forward(sql, a, s))
    decreases |b|
  {
    if b == [] {
      assert a + b == a;
    } else {
      var n := |b| - 1;
      assert (a + b)[..|a + b| - 1] == a + b[..n];
      ForwardAppend(sql, a, b[..n], s);
    }
  }

  lemma ForwardOn<S>(sql: Sql<S>, ms: seq<Migration>, k: nat, k': nat, s: S)
    requires k <= k' <= |ms|
    ensures Forward(sql, ms[k..k'], Forward(sql, ms[..k], s)) == Forward(sql, ms[..k'], s)
  {
    ForwardAppend(sql, ms[..k], ms[k..k'], s);
    assert ms[..k] + ms[k..k'] == ms[..k'];
  }

  lemma UpPlanOfPrefix(ms: seq<Migration>, k: nat, steps: int)
    requires Ascending(Numbers(ms)) && k <= |ms|
    ensures UpPlan(ms, Prefix(ms, k), steps) == ms[k..k + UpGoal(steps, |ms| - k)]
  {
    PendingAfterPrefix(ms, k);
  }

  lemma UpDoneOfPrefix(ms: seq<Migration>, k: nat, steps: int, n: nat)
    requires Ascending(Numbers(ms)) && k <= |ms| && n <= |UpPlan(ms, Prefix(ms, k), steps)|
    ensures k + n <= |ms| && UpPlan(ms, Prefix(ms, k), steps)[..n] == ms[k..k + n]
  {
    UpPlanOfPrefix(ms, k, steps);
    var goal := UpGoal(steps, |ms| - k);
    assert ms[k..k + goal][..n] == ms[k..k + n];
  }

  /** An up call from a prefix ends at a prefix, however many migrations it gets through. */
  lemma UpFromPrefix<S>(
    sql: Sql<S>, ms: seq<Migration>, st: State<S>, k: nat, steps: int, ok: int -> bool) returns (k': nat)
    requires Ascending(Numbers(ms)) && k <= |ms| && st.applied == Prefix(ms, k)
    ensures k <= k' <= |ms| && k' == k + UpCount(ms, st.applied, steps, ok)
    ensures Up(sql, ms, st, steps, ok) == State(Prefix(ms, k'), Forward(sql, ms[k..k'], st.schema))
  {
    var n := UpCount(ms, st.applied, steps, ok);
    UpDoneOfPrefix(ms, k, steps, n);
    PrefixGrows(ms, k, n);
    k' := k + n;
  }

  lemma UpKeepsPlace<S>(sql: Sql<S>, ms: seq<Migration>, s: S, k: nat, steps: int, ok: int -> bool) returns (k': nat)
    requires Ascending(Numbers(ms)) && k <= |ms|
    ensures k' <= |ms| && Up(sql, ms, At(sql, ms, s, k), steps, ok) == At(sql, ms, s, k')
  {
    k' := UpFromPrefix(sql, ms, At(sql, ms, s, k), k, steps, ok);
    Arrived(sql, ms, s, k, k', Up(sql, ms, At(sql, ms, s, k), steps, ok));
  }

  lemma Arrived<S>(sql: Sql<S>, ms: seq<Migration>, s: S, k: nat, k': nat, up: State<S>)
    requires k <= k' <= |ms| && up == State(Prefix(ms, k'), Forward(sql, ms[k..k'], At(sql, ms, s, k).schema))
    ensures up == At(sql, ms, s, k')
  {
    ForwardOn(sql, ms, k, k', s);
  }

  /** A down call from a prefix ends at a shorter one. */
  lemma DownFromPrefix<S>(sql: Sql<S>, ms: seq<Migration>, st: State<S>, k: nat, steps: int, ok: int -> bool)
    requires Ascending(Numbers(ms)) && k <= |ms| && st.applied == Prefix(ms, k)
    ensures var vs := DownDone(ms, st.applied, steps, ok);
            && |vs| <= DownGoal(steps, k) && (forall i | 0 <= i < |vs| :: vs[i] == ms[k - 1 - i].version)
            && Down(sql, ms, st, steps, ok).applied == Prefix(ms, k - |vs|)
  {
    DownDoneOfPrefix(ms, k, steps, ok);
    PrefixShrinks(ms, k, DownDone(ms, st.applied, steps, ok));
  }

  lemma DownDoneOfPrefix(ms: seq<Migration>, k: nat, steps: int, ok: int -> bool)
    requires Ascending(Numbers(ms)) && k <= |ms|
    ensures var vs := DownDone(ms, Prefix(ms, k), steps, ok);
            |vs| <= DownGoal(steps, k) && forall i | 0 <= i < |vs| :: vs[i] == ms[k - 1 - i].version
  {
    NewestOfPrefix(ms, k);
    var plan := DownPlan(Backwards(ms, k), steps);
    assert forall i | 0 <= i < |plan| :: plan[i] == ms[k - 1 - i].version;
  }

  lemma {:induction false} BackwardUndoes<S(!new)>(sql: Sql<S>, ms: seq<Migration>, k: nat, vs: seq<int>, s: S)
    requires Ascending(Numbers(ms)) && Inverts(sql, ms) && AllKnown(ms, vs)
    requires |vs| <= k <= |ms| && forall i | 0 <= i < |vs| :: vs[i] == ms[k - 1 - i].version
    ensures Backward(sql, ms, vs, Forward(sql, ms[..k], s)) == Forward(sql, ms[..k - |vs|], s)
    decreases |vs|
  {
    if vs != [] {
      var n := |vs| - 1;
      BackwardUndoes(sql, ms, k, vs[..n], s);
      var i := k - 1 - n;
      FoundAt(ms, i);
      assert ms[..i + 1][..i] == ms[..i];
      assert Forward(sql, ms[..i + 1], s) == sql(ms[i].up, Forward(sql, ms[..i], s));
    }
  }

  lemma DownKeepsPlace<S(!new)>(
    sql: Sql<S>, ms: seq<Migration>, s: S, k: nat, steps: int, ok: int -> bool) returns (k': nat)
    requires Ascending(Numbers(ms)) && k <= |ms| && Inverts(sql, ms)
    ensures k' <= k && Down(sql, ms, At(sql, ms, s, k), steps, ok) == At(sql, ms, s, k')
  {
    var st := At(sql, ms, s, k);
    DownFromPrefix(sql, ms, st, k, steps, ok);
    var vs := DownDone(ms, st.applied, steps, ok);
    BackwardUndoes(sql, ms, k, vs, s);
    k' := k - |vs|;
  }

  // ----------------------------------------------------------------------- many calls

  datatype Call = UpCall(steps: int, ok: int -> bool) | DownCall(steps: int, ok: int -> bool)

  ghost function Perform<S>(sql: Sql<S>, ms: seq<Migration>, st: State<S>, c: Call): State<S> {
    match c
    case UpCall(steps, ok) => Up(sql, ms, st, steps, ok)
    case DownCall(steps, ok) => Down(sql, ms, st, steps, ok)
  }

  ghost function PerformAll<S>(sql: Sql<S>, ms: seq<Migration>, st: State<S>, calls: seq<Call>): State<S> {
    if calls == [] then st
    else Perform(sql, ms, PerformAll(sql, ms, st, calls[..|calls| - 1]), calls[|calls| - 1])
  }

  /** The applied versions stay a prefix of the list through every run, whatever fails. */
  lemma {:induction false} AppliedStaysPrefix<S>(
    sql: Sql<S>, ms: seq<Migration>, st: State<S>, k: nat, calls: seq<Call>) returns (k': nat)
    requires Ascending(Numbers(ms)) && k <= |ms| && st.applied == Prefix(ms, k)
    ensures k' <= |ms| && PerformAll(sql, ms, st, calls).applied == Prefix(ms, k')
  {
    k' := k;
    if calls != [] {
      var before, c := calls[..|calls| - 1], calls[|calls| - 1];
      k' := AppliedStaysPrefix(sql, ms, st, k, before);
      var mid := PerformAll(sql, ms, st, before);
      match c
      case UpCall(steps, ok) =>
        k' := UpFromPrefix(sql, ms, mid, k', steps, ok);
      case DownCall(steps, ok) =>
        DownFromPrefix(sql, ms, mid, k', steps, ok);
        k' := k' - |DownDone(ms, mid.applied, steps, ok)|;
    }
  }

  /** When rollbacks invert their migrations, the schema is always that of the applied prefix. */
  lemma {:induction false} SchemaFollowsTable<S(!new)>(
    sql: Sql<S>, ms: seq<Migration>, s: S, k: nat, calls: seq<Call>) returns (k': nat)
    requires Ascending(Numbers(ms)) && k <= |ms| && Inverts(sql, ms)
    ensures k' <= |ms| && PerformAll(sql, ms, At(sql, ms, s, k), calls) == At(sql, ms, s, k')
  {
    k' := k;
    if calls != [] {
      var before, c := calls[..|calls| - 1], calls[|calls| - 1];
      k' := SchemaFollowsTable(sql, ms, s, k, before);
      match c
      case UpCall(steps, ok) =>
        k' := UpKeepsPlace(sql, ms, s, k', steps, ok);
      case DownCall(steps, ok) =>
        k' := DownKeepsPlace(sql, ms, s, k', steps, ok);
    }
  }

  // --------------------------------------------------------------- up n, then down n

  ghost predicate NeverFails(ms: seq<Migration>, ok: int -> bool) {
    forall i | 0 <= i < |ms| :: ok(ms[i].version)
  }

  lemma UpReachesGoal<S>(sql: Sql<S>, ms: seq<Migration>, st: State<S>, k: nat, steps: int, ok: int -> bool)
    requires Ascending(Numbers(ms)) && k <= |ms| && st.applied == Prefix(ms, k) && NeverFails(ms, ok)
    ensures Up(sql, ms, st, steps, ok).applied == Prefix(ms, k + UpGoal(steps, |ms| - k))
  {
    UpCountIsGoal(ms, k, steps, ok);
    var k' := UpFromPrefix(sql, ms, st, k, steps, ok);
  }

  lemma UpCountIsGoal(ms: seq<Migration>, k: nat, steps: int, ok: int -> bool)
    requires Ascending(Numbers(ms)) && k <= |ms| && NeverFails(ms, ok)
    ensures UpCount(ms, Prefix(ms, k), steps, ok) == UpGoal(steps, |ms| - k)
  {
    UpPlanOfPrefix(ms, k, steps);
    var plan := ms[k..k + UpGoal(steps, |ms| - k)];
    assert forall i | 0 <= i < |plan| :: Numbers(plan)[i] == ms[k + i].version;
    assert Leading(Numbers(plan), ok) == |plan|;
  }

  lemma DownReachesGoal<S>(sql: Sql<S>, ms: seq<Migration>, st: State<S>, k: nat, steps: int, ok: int -> bool)
    requires Ascending(Numbers(ms)) && k <= |ms| && st.applied == Prefix(ms, k) && NeverFails(ms, ok)
    ensures Down(sql, ms, st, steps, ok).applied == Prefix(ms, k - DownGoal(steps, k))
  {
    NewestOfPrefix(ms, k);
    var plan := DownPlan(Backwards(ms, k), steps);
    forall i | 0 <= i < |plan| ensures Reversible(ms, ok)(plan[i]) {
      assert Numbers(ms)[k - 1 - i] in Numbers(ms);
    }
    assert Leading(plan, Reversible(ms, ok)) == |plan|;
    DownFromPrefix(sql, ms, st, k, steps, ok);
  }

  /**
    Without failures, up n and then down n restores the applied versions exactly when there
    were n migrations left to apply, or none was applied to begin with.
   */
  lemma UpThenDown<S>(sql: Sql<S>, ms: seq<Migration>, st: State<S>, k: nat, n: int, ok: int -> bool)
    requires Ascending(Numbers(ms)) && k <= |ms| && st.applied == Prefix(ms, k) && n > 0 && NeverFails(ms, ok)
    ensures Down(sql, ms, Up(sql, ms, st, n, ok), n, ok).applied == st.applied <==> n <= |ms| - k || k == 0
  {
    UpReachesGoal(sql, ms, st, k, n, ok);
    DownBackTo(sql, ms, Up(sql, ms, st, n, ok), k + UpGoal(n, |ms| - k), k, n, ok);
    BackAgain(|ms|, k, n);
  }

  lemma DownBackTo<S>(sql: Sql<S>, ms: seq<Migration>, up: State<S>, top: nat, k: nat, n: int, ok: int -> bool)
    requires Ascending(Numbers(ms)) && top <= |ms| && k <= |ms| && up.applied == Prefix(ms, top) && NeverFails(ms, ok)
    ensures Down(sql, ms, up, n, ok).applied == Prefix(ms, k) <==> top - DownGoal(n, top) == k
  {
    DownReachesGoal(sql, ms, up, top, n, ok);
    SamePrefix(ms, top - DownGoal(n, top), k);
  }

  lemma BackAgain(size: nat, k: nat, n: int)
    requires k <= size && n > 0
    ensures var top := k + UpGoal(n, size - k);
            top - DownGoal(n, top) == k <==> n <= size - k || k == 0
  {}

  lemma SamePrefix(ms: seq<Migration>, j: nat, k: nat)
    requires Ascending(Numbers(ms)) && j <= |ms| && k <= |ms|
    ensures Prefix(ms, j) == Prefix(ms, k) <==> j == k
  {
    PrefixSize(ms, j);
    PrefixSize(ms, k);
  }

  /** It does not always: with its only migration applied, up 1 does nothing and down 1 takes it away. */
  lemma UpThenDownLosesOne<S>(sql: Sql<S>, m: Migration, s: S)
    ensures var st := At(sql, [m], s, 1);
            && st.applied == {m.version}
            && Up(sql, [m], st, 1, _ => true) == st
            && Down(sql, [m], Up(sql, [m], st, 1, _ => true), 1, _ => true).applied == {}
  {
    var ms, st, ok := [m], At(sql, [m], s, 1), (_: int) => true;
    assert ms[..1] == ms && Numbers(ms) == [m.version];
    assert Pending([m], st.applied) == [];
    UpReachesGoal(sql, ms, st, 1, 1, ok);
    DownReachesGoal(sql, ms, st, 1, 1, ok);
  }

  /** And then the schema is restored too, when rollbacks invert their migrations. */
  lemma UpThenDownSchema<S(!new)>(sql: Sql<S>, ms: seq<Migration>, s: S, k: nat, n: int, ok: int -> bool)
    requires Ascending(Numbers(ms)) && k <= |ms| && n > 0 && NeverFails(ms, ok) && Inverts(sql, ms)
    requires n <= |ms| - k || k == 0
    ensures Down(sql, ms, Up(sql, ms, At(sql, ms, s, k), n, ok), n, ok) == At(sql, ms, s, k)
  {
    var st := At(sql, ms, s, k);
    UpThenDown(sql, ms, st, k, n, ok);
    var top := UpKeepsPlace(sql, ms, s, k, n, ok);
    var back := DownKeepsPlace(sql, ms, s, top, n, ok);
    SamePrefix(ms, back, k);
  }
}
