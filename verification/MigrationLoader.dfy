/** Reading migration files: the result is sorted, complete, and independent of the file order. */
module MigrationLoader {
  import opened Common
  import opened Text
  import opened MigrationNames

  /** A file after its name was matched: some names, numbers or contents are unusable. */
  datatype File =
    | Misnamed
    | VersionTooLarge
    | Unreadable(version: int, name: string, up: bool)
    | File(version: int, name: string, up: bool, raw: string)

  /** A file as it is found: its base name, and its contents if it can be read. */
  datatype Source = Source(base: string, contents: Option<string>)

  function Classify(s: Source): File {
    match ParseName(s.base)
    case NoMatch => Misnamed
    case Overflow => VersionTooLarge
    case Parsed(version, name, up) =>
      if s.contents.None? then Unreadable(version, name, up) else File(version, name, up, s.contents.value)
  }

  /** A file is what its name says: read by its only match, with the contents it has. */
  lemma ClassifyIs(s: Source, k: nat, n: nat, name: string, up: bool)
    requires Matches(s.base, Zeros(k) + Decimal(n), name, up)
    ensures Classify(s) ==
            if n > 9_223_372_036_854_775_807 then VersionTooLarge
            else if s.contents == None then Unreadable(n, name, up)
            else File(n, name, up, s.contents.value)
  {
    WrittenIsRead(s.base, k, n, name, up);
  }

  lemma MisnamedIs(s: Source)
    ensures Classify(s) == Misnamed <==> forall d, n, up :: !Matches(s.base, d, n, up)
  {
    NamesAreRead(s.base);
  }

  datatype Migration = Migration(version: int, name: string, up: string, down: string)

  datatype LoadError =
    | NoFiles | BadFileName | VersionOverflow | ReadFailed | EmptyFile | NameMismatch | DuplicateFile
      | Incomplete(version: int)

  datatype Result<T> = Ok(value: T) | Err(error: LoadError)

  // ------------------------------------------------------------------- what is required

  predicate Usable(f: File) {
    f.File? && TrimSpace(f.raw) != ""
  }

  /** Two files can stand side by side: one version has one name and one file for each direction. */
  predicate Compatible(f: File, g: File)
    requires f.File? && g.File?
  {
    f.version == g.version ==> f.name == g.name && f.up != g.up
  }

  ghost predicate Consistent(files: seq<File>) {
    && (forall i | 0 <= i < |files| :: Usable(files[i]))
    && (forall i, j | 0 <= i < j < |files| :: Compatible(files[i], files[j]))
  }

  ghost predicate Seen(files: seq<File>, version: int, up: bool) {
    exists i :: 0 <= i < |files| && files[i].File? && files[i].version == version && files[i].up == up
  }

  /** Every version has both directions. */
  ghost predicate Complete(files: seq<File>) {
    forall i | 0 <= i < |files| && files[i].File? :: Seen(files, files[i].version, !files[i].up)
  }

  ghost predicate WellFormed(files: seq<File>) {
    files != [] && Consistent(files) && Complete(files)
  }

  ghost predicate HasFile(files: seq<File>, version: int, name: string, up: bool, body: string) {
    exists i :: 0 <= i < |files| && files[i].File? && files[i].version == version && files[i].name == name
      && files[i].up == up
                && TrimSpace(files[i].raw) == body
  }

  ghost predicate Documented(files: seq<File>, m: Migration) {
    HasFile(files, m.version, m.name, true, m.up) && HasFile(files, m.version, m.name, false, m.down)
  }

  ghost predicate Named(files: seq<File>, version: int) {
    Seen(files, version, true) || Seen(files, version, false)
  }

  function Numbers(ms: seq<Migration>): (r: seq<int>)
    ensures |r| == |ms| && forall i | 0 <= i < |ms| :: r[i] == ms[i].version
  {
    seq(|ms|, i requires 0 <= i < |ms| => ms[i].version)
  }

  ghost predicate Ascending(s: seq<int>) {
    forall i, j | 0 <= i < j < |s| :: s[i] < s[j]
  }

  /** The migrations of some files: in version order, each with the two bodies found under its version, none missing. */
  ghost predicate IsLoaded(files: seq<File>, ms: seq<Migration>) {
    && Ascending(Numbers(ms))
    && (forall i | 0 <= i < |ms| :: Documented(files, ms[i]))
    && (forall v :: v in Numbers(ms) <==> Named(files, v))
  }

  // ------------------------------------------------------------- what goes wrong first

  ghost predicate OtherName(files: seq<File>, f: File)
    requires f.File?
  {
    exists i :: 0 <= i < |files| && files[i].File? && files[i].version == f.version && files[i].name != f.name
  }

  /** Why a file cannot follow consistent ones. */
  ghost predicate Complains(files: seq<File>, f: File, e: LoadError) {
    match f
    case Misnamed => e == BadFileName
    case VersionTooLarge => e == VersionOverflow
    case Unreadable(_, _, _) => e == ReadFailed
    case File(version, _, up, raw) =>
      if TrimSpace(raw) == "" then e == EmptyFile
      else if OtherName(files, f) then e == NameMismatch
      else Seen(files, version, up) && e == DuplicateFile
  }

  ghost predicate Both(files: seq<File>, version: int) {
    Seen(files, version, true) && Seen(files, version, false)
  }

  /** The error names the first thing wrong: no file, the first file that does not fit, the least incomplete version. */
  ghost predicate Explains(files: seq<File>, e: LoadError) {
    match e
    case NoFiles => files == []
    case Incomplete(v) =>
      Consistent(files) && Named(files, v) && !Both(files, v) && forall u | u < v && Named(files, u) :: Both(files, u)
    case _ => exists n :: 0 <= n < |files| && Consistent(files[..n]) && Complains(files[..n], files[n], e)
  }

  // ------------------------------------------------------------------------ the loader

  datatype Builder = Builder(name: string, up: string, down: string)

  type Builders = map<int, Builder>

  function Body(b: Builder, up: bool): string { if up then b.up else b.down }

  predicate Holds(b: Builder, f: File) {
    f.File? && b.name == f.name && Body(b, f.up) == TrimSpace(f.raw)
  }

  /** What has been collected from the files seen; a missing body is empty. */
  ghost predicate Collected(files: seq<File>, bs: Builders) {
    && Consistent(files)
    && (forall i | 0 <= i < |files| :: files[i].version in bs && Holds(bs[files[i].version], files[i]))
    && (forall v :: v in bs <==> Named(files, v))
    && (forall v, up | v in bs && Body(bs[v], up) != "" :: Seen(files, v, up))
  }

  /** One round of the loop: a second name or a second body for a version is refused. */
  function Collect(bs: Builders, f: File): Result<Builders>
    requires f.File?
  {
    var b := if f.version in bs then bs[f.version] else Builder(f.name, "", "");
    if b.name != f.name then Err(NameMismatch)
    else if Body(b, f.up) != "" then Err(DuplicateFile)
    else Ok(bs[f.version := if f.up then b.(up := TrimSpace(f.raw)) else b.(down := TrimSpace(f.raw))])
  }

  lemma SeenLonger(files: seq<File>, f: File, v: int, up: bool)
    ensures Seen(files + [f], v, up) <==> Seen(files, v, up) || (f.File? && f.version == v && f.up == up)
  {
    var longer := files + [f];
    if Seen(files, v, up) {
      var i :| 0 <= i < |files| && files[i].File? && files[i].version == v && files[i].up == up;
      assert longer[i].File?;
    }
    assert longer[|files|] == f;
  }

  lemma Refused(files: seq<File>, bs: Builders, f: File)
    requires Collected(files, bs) && f.File? && Collect(bs, f).Err?
    ensures !Consistent(files + [f])
  {
    var longer, up := files + [f], if Seen(files, f.version, f.up) then f.up else !f.up;
    assert Seen(files, f.version, up);
    var i :| 0 <= i < |files| && files[i].File? && files[i].version == f.version && files[i].up == up;
    assert Holds(bs[f.version], files[i]);
    assert longer[i] == files[i] && longer[|files|] == f;
    assert !Compatible(longer[i], longer[|files|]);
  }

  lemma MismatchIsExplained(files: seq<File>, bs: Builders, f: File)
    requires Collected(files, bs) && f.File? && Collect(bs, f) == Err(NameMismatch)
    ensures OtherName(files, f)
  {
    var up := Seen(files, f.version, true);
    assert Seen(files, f.version, up);
    var i :| 0 <= i < |files| && files[i].File? && files[i].version == f.version && files[i].up == up;
    assert Holds(bs[f.version], files[i]);
  }

  lemma DuplicateIsExplained(files: seq<File>, bs: Builders, f: File)
    requires Collected(files, bs) && f.File? && Collect(bs, f) == Err(DuplicateFile)
    ensures !OtherName(files, f) && Seen(files, f.version, f.up)
  {
    forall i | 0 <= i < |files| && files[i].File? && files[i].version == f.version ensures files[i].name == f.name {
      assert Holds(bs[f.version], files[i]);
    }
  }

  lemma RefusalIsExplained(files: seq<File>, bs: Builders, f: File)
    requires Collected(files, bs) && Usable(f) && Collect(bs, f).Err?
    ensures Complains(files, f, Collect(bs, f).error)
  {
    if Collect(bs, f).error == NameMismatch {
      MismatchIsExplained(files, bs, f);
    } else {
      DuplicateIsExplained(files, bs, f);
    }
  }

  lemma StaysConsistent(files: seq<File>, bs: Builders, f: File)
    requires Collected(files, bs) && Usable(f) && Collect(bs, f).Ok?
    ensures Consistent(files + [f])
  {
    var longer := files + [f];
    forall i | 0 <= i < |files| ensures Compatible(files[i], f) {
      assert Usable(files[i]) && Holds(bs[files[i].version], files[i]);
    }
    forall i | 0 <= i < |longer| ensures Usable(longer[i]) {
      assert i < |files| ==> longer[i] == files[i];
    }
    forall i, j | 0 <= i < j < |longer| ensures Compatible(longer[i], longer[j]) {
      assert longer[i] == files[i];
      assert j < |files| ==> longer[j] == files[j];
    }
  }

  lemma StillHolds(files: seq<File>, bs: Builders, f: File)
    requires Collected(files, bs) && Usable(f) && Collect(bs, f).Ok?
    ensures var bs' := Collect(bs, f).value;
            forall i | 0 <= i < |files| :: files[i].version in bs' && Holds(bs'[files[i].version], files[i])
  {
    var bs' := Collect(bs, f).value;
    forall i | 0 <= i < |files| ensures files[i].version in bs' && Holds(bs'[files[i].version], files[i]) {
      assert Usable(files[i]) && Holds(bs[files[i].version], files[i]);
    }
  }

  lemma StillSeen(files: seq<File>, bs: Builders, f: File)
    requires Collected(files, bs) && Usable(f) && Collect(bs, f).Ok?
    ensures var longer, bs' := files + [f], Collect(bs, f).value;
            && (forall v :: v in bs' <==> Named(longer, v))
            && (forall v, up | v in bs' && Body(bs'[v], up) != "" :: Seen(longer, v, up))
  {
    var longer, bs' := files + [f], Collect(bs, f).value;
    forall v ensures v in bs' <==> Named(longer, v) {
      SeenLonger(files, f, v, true);
      SeenLonger(files, f, v, false);
    }
    forall v, up | v in bs' && Body(bs'[v], up) != "" ensures Seen(longer, v, up) {
      SeenLonger(files, f, v, up);
    }
  }

  lemma StaysCollected(files: seq<File>, bs: Builders, f: File)
    requires Collected(files, bs) && Usable(f) && Collect(bs, f).Ok?
    ensures Collected(files + [f], Collect(bs, f).value)
  {
    StaysConsistent(files, bs, f);
    StillHolds(files, bs, f);
    StillSeen(files, bs, f);
    var longer, bs' := files + [f], Collect(bs, f).value;
    forall i | 0 <= i < |longer| ensures longer[i].version in bs' && Holds(bs'[longer[i].version], longer[i]) {
      assert i < |files| ==> longer[i] == files[i];
    }
  }

  lemma PrefixConsistent(files: seq<File>, n: nat)
    requires n <= |files| && Consistent(files)
    ensures Consistent(files[..n])
  {}

  lemma CollectNext(files: seq<File>, n: nat, bs: Builders)
    requires n < |files| && Collected(files[..n], bs) && Usable(files[n])
    ensures Collect(bs, files[n]).Err? ==> !Consistent(files)
    ensures Collect(bs, files[n]).Ok? ==> Collected(files[..n + 1], Collect(bs, files[n]).value)
  {
    assert files[..n + 1] == files[..n] + [files[n]];
    if Collect(bs, files[n]).Ok? {
      StaysCollected(files[..n], bs, files[n]);
    } else {
      Refused(files[..n], bs, files[n]);
      if Consistent(files) { PrefixConsistent(files, n + 1); }
    }
  }

  function FileError(f: File): Option<LoadError> {
    match f
    case Misnamed => Some(BadFileName)
    case VersionTooLarge => Some(VersionOverflow)
    case Unreadable(_, _, _) => Some(ReadFailed)
    case File(_, _, _, raw) => if TrimSpace(raw) == "" then Some(EmptyFile) else None
  }

  /** Reads every file; fails on the first that is unusable or does not fit. */
  method CollectAll(files: seq<File>) returns (r: Result<Builders>)
    ensures r.Ok? <==> Consistent(files)
    ensures r.Ok? ==> Collected(files, r.value)
    ensures r.Err? ==> Explains(files, r.error)
  {
    var bs: Builders := map[];
    for n := 0 to |files|
      invariant Collected(files[..n], bs)
    {
      var f := files[n];
      var bad := FileError(f);
      if bad.Some? {
        assert !Usable(files[n]) && Complains(files[..n], files[n], bad.value);
        return Err(bad.value);
      }
      CollectNext(files, n, bs);
      var next := Collect(bs, f);
      if next.Err? {
        RefusalIsExplained(files[..n], bs, f);
        return Err(next.error);
      }
      bs := next.value;
    }
    assert files[..|files|] == files;
    return Ok(bs);
  }

  method Smallest(keys: set<int>) returns (least: int)
    requires keys != {}
    ensures least in keys && forall k | k in keys :: least <= k
  {
    assert (forall k :: k !in keys) ==> keys == {};
    least :| least in keys;
    var todo := keys - {least};
    while todo != {}
      invariant todo <= keys && least in keys && forall k | k in keys && k !in todo :: least <= k
      decreases |todo|
    {
      assert (forall k :: k !in todo) ==> todo == {};
      var k :| k in todo;
      if k < least { least := k; }
      todo := todo - {k};
    }
  }

  method Sorted(keys: set<int>) returns (s: seq<int>)
    ensures Ascending(s) && forall k :: k in s <==> k in keys
  {
    s := [];
    var todo := keys;
    while todo != {}
      invariant todo <= keys && Ascending(s)
      invariant forall k :: k in s <==> k in keys && k !in todo
      invariant forall i, k | 0 <= i < |s| && k in todo :: s[i] < k
      decreases |todo|
    {
      var least := Smallest(todo);
      s, todo := s + [least], todo - {least};
    }
  }

  ghost predicate Ready(b: Builder) {
    b.up != "" && b.down != ""
  }

  ghost predicate AllReady(bs: Builders) {
    forall v | v in bs :: Ready(bs[v])
  }

  lemma ReadyThenComplete(files: seq<File>, bs: Builders)
    requires Collected(files, bs) && AllReady(bs)
    ensures Complete(files)
  {
    forall i | 0 <= i < |files| && files[i].File? ensures Seen(files, files[i].version, !files[i].up) {
      var v := files[i].version;
      assert Ready(bs[v]) && Body(bs[v], !files[i].up) != "";
    }
  }

  lemma SeenHasBody(files: seq<File>, bs: Builders, v: int, up: bool)
    requires Collected(files, bs) && v in bs && Seen(files, v, up)
    ensures Body(bs[v], up) != ""
  {
    var i :| 0 <= i < |files| && files[i].File? && files[i].version == v && files[i].up == up;
    assert Holds(bs[v], files[i]) && Usable(files[i]);
  }

  lemma CompleteThenReady(files: seq<File>, bs: Builders, v: int)
    requires Collected(files, bs) && Complete(files) && v in bs
    ensures Ready(bs[v])
  {
    var up := Seen(files, v, true);
    assert Seen(files, v, up);
    var i :| 0 <= i < |files| && files[i].File? && files[i].version == v && files[i].up == up;
    assert Seen(files, v, !up);
    SeenHasBody(files, bs, v, true);
    SeenHasBody(files, bs, v, false);
  }

  /** Every version has both directions exactly when no body is missing. */
  lemma ReadyIsComplete(files: seq<File>, bs: Builders)
    requires Collected(files, bs)
    ensures Complete(files) <==> AllReady(bs)
  {
    if AllReady(bs) {
      ReadyThenComplete(files, bs);
    }
    if Complete(files) {
      forall v | v in bs ensures Ready(bs[v]) { CompleteThenReady(files, bs, v); }
    }
  }

  function Built(bs: Builders, v: int): Migration
    requires v in bs
  {
    Migration(v, bs[v].name, bs[v].up, bs[v].down)
  }

  lemma BuiltHasFiles(files: seq<File>, bs: Builders, v: int)
    requires Collected(files, bs) && v in bs && Ready(bs[v])
    ensures HasFile(files, v, bs[v].name, true, bs[v].up) && HasFile(files, v, bs[v].name, false, bs[v].down)
  {
    assert Body(bs[v], true) != "" && Body(bs[v], false) != "";
    assert Seen(files, v, true) && Seen(files, v, false);
    var i :| 0 <= i < |files| && files[i].File? && files[i].version == v && files[i].up;
    var j :| 0 <= j < |files| && files[j].File? && files[j].version == v && !files[j].up;
    assert Holds(bs[v], files[i]) && Holds(bs[v], files[j]);
  }

  lemma BuiltIsLoaded(files: seq<File>, bs: Builders, versions: seq<int>, ms: seq<Migration>)
    requires Collected(files, bs) && Ascending(versions) && (forall v :: v in versions <==> v in bs)
    requires |ms| == |versions|
    requires forall i | 0 <= i < |versions| :: versions[i] in bs && Ready(bs[versions[i]])
    requires forall i | 0 <= i < |versions| :: ms[i] == Built(bs, versions[i])
    ensures IsLoaded(files, ms)
  {
    forall i | 0 <= i < |ms| ensures Documented(files, ms[i]) {
      BuiltHasFiles(files, bs, versions[i]);
    }
    assert Numbers(ms) == versions;
  }

  /** Every version before the n-th is ready, so it has both files. */
  lemma EarlierAreBoth(files: seq<File>, bs: Builders, versions: seq<int>, n: nat, u: int)
    requires Collected(files, bs) && Ascending(versions) && (forall v :: v in versions <==> v in bs) && n < |versions|
    requires forall i | 0 <= i < n :: versions[i] in bs && Ready(bs[versions[i]])
    requires u < versions[n] && Named(files, u)
    ensures Both(files, u)
  {
    assert u in versions;
    var i :| 0 <= i < |versions| && versions[i] == u;
    assert i < n && Ready(bs[u]) && Body(bs[u], true) != "" && Body(bs[u], false) != "";
  }

  /** The first version in order without both bodies is the least incomplete one. */
  lemma FirstIncomplete(files: seq<File>, bs: Builders, versions: seq<int>, n: nat)
    requires Collected(files, bs) && Ascending(versions) && (forall v :: v in versions <==> v in bs) && n < |versions|
    requires forall i | 0 <= i < n :: versions[i] in bs && Ready(bs[versions[i]])
    requires versions[n] in bs && !Ready(bs[versions[n]])
    ensures Explains(files, Incomplete(versions[n]))
  {
    var v := versions[n];
    if Both(files, v) {
      SeenHasBody(files, bs, v, true);
      SeenHasBody(files, bs, v, false);
    }
    forall u | u < v && Named(files, u) ensures Both(files, u) {
      EarlierAreBoth(files, bs, versions, n, u);
    }
  }

  /** Succeeds exactly on well-formed files, with their migrations; otherwise says what is wrong first. */
  method Load(files: seq<File>) returns (r: Result<seq<Migration>>)
    ensures r.Ok? <==> WellFormed(files)
    ensures r.Ok? ==> IsLoaded(files, r.value)
    ensures r.Err? ==> Explains(files, r.error)
  {
    if |files| == 0 {
      return Err(NoFiles);
    }
    var collected := CollectAll(files);
    if collected.Err? {
      return Err(collected.error);
    }
    ghost var versions;
    r, versions := Assemble(collected.value);
    AssembledRight(files, collected.value, versions, r);
  }

  /** Versions in order, up to the first that misses a body. */
  ghost predicate Assembled(bs: Builders, versions: seq<int>, r: Result<seq<Migration>>) {
    && Ascending(versions) && (forall v :: v in versions <==> v in bs)
    && match r
       case Ok(ms) =>
         |ms| == |versions|
         && forall i | 0 <= i < |ms| :: versions[i] in bs && Ready(bs[versions[i]]) && ms[i] == Built(bs, versions[i])
       case Err(e) =>
         exists n :: 0 <= n < |versions| && Stuck(bs, versions, n) && e == Incomplete(versions[n])
  }

  ghost predicate Stuck(bs: Builders, versions: seq<int>, n: nat)
    requires n < |versions|
  {
    && (forall i | 0 <= i < n :: versions[i] in bs && Ready(bs[versions[i]]))
    && versions[n] in bs && !Ready(bs[versions[n]])
  }

  method Assemble(bs: Builders) returns (r: Result<seq<Migration>>, ghost versions: seq<int>)
    ensures Assembled(bs, versions, r)
  {
    var ordered := Sorted(bs.Keys);
    versions := ordered;
    var ms := [];
    for n := 0 to |ordered|
      invariant |ms| == n
      invariant forall i | 0 <= i < n :: ordered[i] in bs && Ready(bs[ordered[i]]) && ms[i] == Built(bs, ordered[i])
    {
      assert ordered[n] in ordered;
      var b := bs[ordered[n]];
      if b.up == "" || b.down == "" {
        assert Stuck(bs, ordered, n);
        r := Err(Incomplete(ordered[n]));
        return;
      }
      ms := ms + [Migration(ordered[n], b.name, b.up, b.down)];
    }
    r := Ok(ms);
  }

  lemma AssembledRight(files: seq<File>, bs: Builders, versions: seq<int>, r: Result<seq<Migration>>)
    requires Collected(files, bs) && Assembled(bs, versions, r)
    ensures r.Ok? <==> Complete(files)
    ensures r.Ok? ==> IsLoaded(files, r.value)
    ensures r.Err? ==> Explains(files, r.error)
  {
    ReadyIsComplete(files, bs);
    if r.Ok? {
      BuiltIsLoaded(files, bs, versions, r.value);
      forall v | v in bs ensures Ready(bs[v]) {
        assert v in versions;
      }
    } else {
      var n :| 0 <= n < |versions| && Stuck(bs, versions, n) && r.error == Incomplete(versions[n]);
      FirstIncomplete(files, bs, versions, n);
    }
  }

  function Classifier(): Source -> File { (s: Source) => Classify(s) }

  function Files(sources: seq<Source>): seq<File> {
    Map(sources, Classifier())
  }

  /** Loading from names and contents. */
  method LoadSources(sources: seq<Source>) returns (r: Result<seq<Migration>>)
    ensures r.Ok? <==> WellFormed(Files(sources))
    ensures r.Ok? ==> IsLoaded(Files(sources), r.value)
    ensures r.Err? ==> Explains(Files(sources), r.error)
  {
    r := Load(Files(sources));
  }

  // -------------------------------------------------------------- order independence

  lemma {:induction false} Twice(s: seq<File>, x: File) returns (i: nat, j: nat)
    requires multiset(s)[x] >= 2
    ensures i < j < |s| && s[i] == x && s[j] == x
  {
    var n := |s| - 1;
    assert s == s[..n] + [s[n]];
    if s[n] == x {
      assert x in multiset(s[..n]);
      i :| 0 <= i < n && s[i] == x;
      j := n;
    } else {
      i, j := Twice(s[..n], x);
    }
  }

  lemma CountedTwice(s: seq<File>, i: nat, j: nat)
    requires i < j < |s| && s[i] == s[j]
    ensures multiset(s)[s[i]] >= 2
  {
    assert s == s[..j] + s[j..];
    assert s[i] in s[..j] && s[j] in s[j..];
    assert s[i] in multiset(s[..j]) && s[i] in multiset(s[j..]);
  }

  lemma SameMembers(f: seq<File>, g: seq<File>, x: File)
    requires multiset(f) == multiset(g)
    ensures x in f <==> x in g
  {
    assert x in f <==> x in multiset(f);
    assert x in g <==> x in multiset(g);
  }

  /** Two places in one order have two places in the other. */
  lemma TwoPlaces(f: seq<File>, g: seq<File>, i: nat, j: nat) returns (p: nat, q: nat)
    requires multiset(f) == multiset(g) && i < j < |g|
    ensures p < |f| && q < |f| && p != q && f[p] == g[i] && f[q] == g[j]
  {
    if g[i] == g[j] {
      CountedTwice(g, i, j);
      p, q := Twice(f, g[i]);
    } else {
      SameMembers(f, g, g[i]);
      SameMembers(f, g, g[j]);
      p :| p < |f| && f[p] == g[i];
      q :| q < |f| && f[q] == g[j];
    }
  }

  lemma Anywhere(f: seq<File>, p: nat, q: nat)
    requires Consistent(f) && p < |f| && q < |f| && p != q
    ensures Usable(f[p]) && Usable(f[q]) && Compatible(f[p], f[q])
  {
    assert Usable(f[p]) && Usable(f[q]);
    assert Compatible(f[if p < q then p else q], f[if p < q then q else p]);
  }

  lemma CompatibleElsewhere(f: seq<File>, g: seq<File>, i: nat, j: nat)
    requires multiset(f) == multiset(g) && Consistent(f) && i < j < |g|
    ensures Usable(g[i]) && Usable(g[j]) && Compatible(g[i], g[j])
  {
    var p, q := TwoPlaces(f, g, i, j);
    Anywhere(f, p, q);
  }

  lemma SeenElsewhere(f: seq<File>, g: seq<File>, version: int, up: bool)
    requires multiset(f) == multiset(g) && Seen(f, version, up)
    ensures Seen(g, version, up)
  {
    var i :| 0 <= i < |f| && f[i].File? && f[i].version == version && f[i].up == up;
    SameMembers(f, g, f[i]);
    var j :| 0 <= j < |g| && g[j] == f[i];
  }

  lemma ConsistentElsewhere(f: seq<File>, g: seq<File>)
    requires multiset(f) == multiset(g) && Consistent(f)
    ensures Consistent(g)
  {
    forall i | 0 <= i < |g| ensures Usable(g[i]) {
      SameMembers(f, g, g[i]);
      var p :| 0 <= p < |f| && f[p] == g[i];
      assert Usable(f[p]);
    }
    forall i, j | 0 <= i < j < |g| ensures Compatible(g[i], g[j]) {
      CompatibleElsewhere(f, g, i, j);
    }
  }

  lemma CompleteElsewhere(f: seq<File>, g: seq<File>)
    requires multiset(f) == multiset(g) && Complete(f)
    ensures Complete(g)
  {
    forall i | 0 <= i < |g| && g[i].File? ensures Seen(g, g[i].version, !g[i].up) {
      SameMembers(f, g, g[i]);
      var p :| 0 <= p < |f| && f[p] == g[i];
      SeenElsewhere(f, g, f[p].version, !f[p].up);
    }
  }

  lemma WellFormedElsewhere(f: seq<File>, g: seq<File>)
    requires multiset(f) == multiset(g) && WellFormed(f)
    ensures WellFormed(g)
  {
    SameMembers(f, g, f[0]);
    ConsistentElsewhere(f, g);
    CompleteElsewhere(f, g);
  }

  ghost predicate Among(a: seq<int>, b: seq<int>) {
    forall i | 0 <= i < |a| :: a[i] in b
  }

  lemma SmallerTop(a: seq<int>, b: seq<int>)
    requires a != [] && Ascending(b) && Among(a, b)
    ensures b != [] && a[|a| - 1] <= b[|b| - 1]
  {
    assert a[|a| - 1] in b;
  }

  lemma WithoutTop(a: seq<int>, b: seq<int>)
    requires a != [] && b != [] && Ascending(a) && Among(a, b) && a[|a| - 1] == b[|b| - 1]
    ensures Among(a[..|a| - 1], b[..|b| - 1])
  {
    forall i | 0 <= i < |a| - 1 ensures a[i] in b[..|b| - 1] {
      assert a[i] in b && a[i] < a[|a| - 1];
    }
  }

  /** Strictly ascending sequences with the same elements are the same. */
  lemma {:induction false} AscendingUnique(a: seq<int>, b: seq<int>)
    requires Ascending(a) && Ascending(b) && Among(a, b) && Among(b, a)
    ensures a == b
  {
    if a != [] { SmallerTop(a, b); }
    if b != [] {
      SmallerTop(b, a);
      WithoutTop(a, b);
      WithoutTop(b, a);
      AscendingUnique(a[..|a| - 1], b[..|b| - 1]);
      assert a == a[..|a| - 1] + [a[|a| - 1]] && b == b[..|b| - 1] + [b[|b| - 1]];
    }
  }

  lemma FileIsUnique(f: seq<File>, version: int, up: bool, name1: string, body1: string, name2: string, body2: string)
    requires Consistent(f) && HasFile(f, version, name1, up, body1) && HasFile(f, version, name2, up, body2)
    ensures name1 == name2 && body1 == body2
  {
    var i :| 0 <= i < |f| && f[i].File? && f[i].version == version && f[i].name == name1 && f[i].up == up
             && TrimSpace(f[i].raw) == body1;
    var j :| 0 <= j < |f| && f[j].File? && f[j].version == version && f[j].name == name2 && f[j].up == up
             && TrimSpace(f[j].raw) == body2;
    if i != j { Anywhere(f, i, j); }
  }

  /** The files determine their migrations. */
  lemma LoadedIsUnique(files: seq<File>, a: seq<Migration>, b: seq<Migration>)
    requires Consistent(files) && IsLoaded(files, a) && IsLoaded(files, b)
    ensures a == b
  {
    assert forall i | 0 <= i < |a| :: Numbers(a)[i] in Numbers(a);
    assert forall i | 0 <= i < |b| :: Numbers(b)[i] in Numbers(b);
    AscendingUnique(Numbers(a), Numbers(b));
    forall i | 0 <= i < |a| ensures a[i] == b[i] {
      assert Numbers(a)[i] == Numbers(b)[i] && Documented(files, a[i]) && Documented(files, b[i]);
      FileIsUnique(files, a[i].version, true, a[i].name, a[i].up, b[i].name, b[i].up);
      FileIsUnique(files, a[i].version, false, a[i].name, a[i].down, b[i].name, b[i].down);
    }
  }

  lemma HasFileElsewhere(f: seq<File>, g: seq<File>, version: int, name: string, up: bool, body: string)
    requires multiset(f) == multiset(g) && HasFile(f, version, name, up, body)
    ensures HasFile(g, version, name, up, body)
  {
    var i :| 0 <= i < |f| && f[i].File? && f[i].version == version && f[i].name == name && f[i].up == up
             && TrimSpace(f[i].raw) == body;
    SameMembers(f, g, f[i]);
    var j :| 0 <= j < |g| && g[j] == f[i];
  }

  lemma LoadedElsewhere(f: seq<File>, g: seq<File>, ms: seq<Migration>)
    requires multiset(f) == multiset(g) && IsLoaded(f, ms)
    ensures IsLoaded(g, ms)
  {
    forall i | 0 <= i < |ms| ensures Documented(g, ms[i]) {
      var m := ms[i];
      assert Documented(f, m);
      HasFileElsewhere(f, g, m.version, m.name, true, m.up);
      HasFileElsewhere(f, g, m.version, m.name, false, m.down);
    }
    forall v ensures Named(f, v) <==> Named(g, v) {
      NamedElsewhere(f, g, v);
      NamedElsewhere(g, f, v);
    }
  }

  lemma NamedElsewhere(f: seq<File>, g: seq<File>, version: int)
    requires multiset(f) == multiset(g)
    ensures Named(f, version) ==> Named(g, version)
  {
    if Seen(f, version, true) {
      SeenElsewhere(f, g, version, true);
    } else if Seen(f, version, false) {
      SeenElsewhere(f, g, version, false);
    }
  }

  /** Whether loading succeeds, and with what, does not depend on the order of the files. */
  lemma OrderDoesNotMatter(f: seq<File>, g: seq<File>, a: seq<Migration>, b: seq<Migration>)
    requires multiset(f) == multiset(g)
    ensures WellFormed(f) <==> WellFormed(g)
    ensures WellFormed(f) && IsLoaded(f, a) && IsLoaded(g, b) ==> a == b
  {
    if WellFormed(f) {
      WellFormedElsewhere(f, g);
    }
    if WellFormed(g) {
      WellFormedElsewhere(g, f);
    }
    if WellFormed(f) && IsLoaded(f, a) && IsLoaded(g, b) {
      LoadedElsewhere(g, f, b);
      LoadedIsUnique(f, a, b);
    }
  }

  /** The same for sources. */
  lemma SourceOrderDoesNotMatter(a: seq<Source>, b: seq<Source>, x: seq<Migration>, y: seq<Migration>)
    requires multiset(a) == multiset(b)
    ensures WellFormed(Files(a)) <==> WellFormed(Files(b))
    ensures WellFormed(Files(a)) && IsLoaded(Files(a), x) && IsLoaded(Files(b), y) ==> x == y
  {
    MapPermutes(a, b, Classifier());
    OrderDoesNotMatter(Files(a), Files(b), x, y);
  }
}
