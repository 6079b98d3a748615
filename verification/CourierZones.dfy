/** Zone assignments: capacity, primary zones, and two ways to check capacity. */
module CourierZones {
  import opened Common
  import opened CourierDomain

  datatype Zone = Zone(zoneId: string, primary: bool, assignedAt: int)

  /** The zones of one courier, and of all. */
  type Zones = map<string, Zone>
  type Assignments = map<string, Zones>

  const MAX_COURIERS := 100

  function Holders(all: Assignments, zone: string): set<string> {
    set c | c in all && zone in all[c]
  }

  ghost predicate WithinCapacity(all: Assignments) {
    forall zone :: |Holders(all, zone)| <= 100
  }

  ghost predicate OnePrimary(zones: Zones) {
    exists z :: z in zones && zones[z].primary && forall y | y in zones && zones[y].primary :: y == z
  }

  function Held(all: Assignments, courier: string): set<string> {
    if courier in all then all[courier].Keys else {}
  }

  /** The in-memory check: zones the courier already holds are skipped. */
  ghost predicate FitsSkippingHeld(all: Assignments, courier: string, wanted: set<string>) {
    forall z | z in wanted && z !in Held(all, courier) :: |Holders(all, z) - {courier}| < 100
  }

  /** The database check: every wanted zone is counted. */
  ghost predicate FitsCheckingAll(all: Assignments, courier: string, wanted: set<string>) {
    forall z | z in wanted :: |Holders(all, z) - {courier}| < 100
  }

  /** Within capacity the two checks decide alike. */
  lemma ChecksAgree(all: Assignments, courier: string, wanted: set<string>)
    requires WithinCapacity(all)
    ensures FitsSkippingHeld(all, courier, wanted) <==> FitsCheckingAll(all, courier, wanted)
  {
    forall z | z in Held(all, courier) ensures |Holders(all, z) - {courier}| < 100 {
      assert courier in Holders(all, z);
      assert |Holders(all, z)| <= 100;
      assert Holders(all, z) == (Holders(all, z) - {courier}) + {courier};
    }
  }

  /** Replacing a courier's zones by ones that fit keeps every zone within capacity. */
  lemma ReplacementFits(all: Assignments, courier: string, next: Zones)
    requires WithinCapacity(all) && FitsSkippingHeld(all, courier, next.Keys)
    ensures WithinCapacity(all[courier := next])
  {
    ChecksAgree(all, courier, next.Keys);
    var all' := all[courier := next];
    forall zone ensures |Holders(all', zone)| <= 100 {
      OneZoneFits(all, courier, next, zone);
    }
  }

  lemma OneZoneFits(all: Assignments, courier: string, next: Zones, zone: string)
    requires |Holders(all, zone)| <= 100
    requires zone in next ==> |Holders(all, zone) - {courier}| < 100
    ensures |Holders(all[courier := next], zone)| <= 100
  {
    HoldersAfter(all, courier, next, zone);
    SubsetSize(Holders(all, zone) - {courier}, Holders(all, zone));
  }

  lemma HoldersAfter(all: Assignments, courier: string, next: Zones, zone: string)
    ensures Holders(all[courier := next], zone)
            == Holders(all, zone) - {courier} + (if zone in next then {courier} else {})
  {
  }

  /**
    Checking is not the same outside capacity: a courier of an overfull zone could not
    keep that zone under the database check, but can under the in-memory one.
   */
  lemma ChecksDifferWhenOverfull(all: Assignments, courier: string, zone: string)
    requires courier in all && zone in all[courier] && |Holders(all, zone)| > 100
    ensures FitsSkippingHeld(all, courier, {zone}) && !FitsCheckingAll(all, courier, {zone})
  {
    assert courier in Holders(all, zone);
    assert Holders(all, zone) == (Holders(all, zone) - {courier}) + {courier};
    assert zone in {zone};
  }

  /** Counts the other couriers of a zone, in any order. */
  method CountOthers(all: Assignments, zone: string, courier: string) returns (count: nat)
    ensures count == |Holders(all, zone) - {courier}|
  {
    count := 0;
    var todo := all.Keys;
    ghost var found: set<string> := {};
    while todo != {}
      invariant todo <= all.Keys && count == |found|
      invariant forall c :: c in found <==> c in all && c !in todo && c != courier && zone in all[c]
      decreases |todo|
    {
      var c :| c in todo;
      todo := todo - {c};
      if c != courier && zone in all[c] {
        count, found := count + 1, found + {c};
      }
    }
    assert found == Holders(all, zone) - {courier};
  }

  // ------------------------------------------------------------- one assignment request

  /** How zone names are canonicalized, and the canonical names there are. */
  datatype Catalogue = Catalogue(normalize: string -> string, known: set<string>)

  /** The known check canonicalizes once more. */
  function ZoneError(cat: Catalogue, zone: string): Option<Error> {
    var n := cat.normalize(zone);
    if n == "" then Some(ZoneRequired) else if cat.normalize(n) !in cat.known then Some(ZoneUnknown) else None
  }

  /** A zone is refused as missing when its canonical name is empty, and otherwise exactly when it is not known. */
  lemma ZoneErrorsAre(cat: Catalogue, zone: string)
    ensures var n, e := cat.normalize(zone), ZoneError(cat, zone);
            && (e == Some(ZoneRequired) <==> n == "")
            && (e == Some(ZoneUnknown) <==> n != "" && cat.normalize(n) !in cat.known)
            && (e == None <==> n != "" && cat.normalize(n) in cat.known)
  {
  }

  predicate Repeated(cat: Catalogue, input: seq<Zone>, k: nat)
    requires k < |input|
  {
    exists i | 0 <= i < k :: cat.normalize(input[i].zoneId) == cat.normalize(input[k].zoneId)
  }

  /** The first complaint about the first n zones. */
  ghost function ListError(cat: Catalogue, input: seq<Zone>, n: nat): Option<Error>
    requires n <= |input|
  {
    if n == 0 then None
    else if ListError(cat, input, n - 1).Some? then ListError(cat, input, n - 1)
    else if ZoneError(cat, input[n - 1].zoneId).Some? then ZoneError(cat, input[n - 1].zoneId)
    else if Repeated(cat, input, n - 1) then Some(ZoneDuplicate)
    else None
  }

  predicate NoPrimary(input: seq<Zone>) {
    forall i | 0 <= i < |input| :: !input[i].primary
  }

  ghost predicate AtMostOnePrimary(input: seq<Zone>) {
    forall i, j | 0 <= i < j < |input| :: !(input[i].primary && input[j].primary)
  }

  ghost predicate DistinctZones(list: seq<Zone>) {
    forall i, j | 0 <= i < j < |list| :: list[i].zoneId != list[j].zoneId
  }

  function Stamp(at: int, now: int): int { if at == ZERO_TIME then now else at }

  function Canonicalized(cat: Catalogue, z: Zone, now: int): Zone {
    Zone(cat.normalize(z.zoneId), z.primary, Stamp(z.assignedAt, now))
  }

  /** The list with canonical names and times filled in. */
  ghost predicate Prepared(cat: Catalogue, input: seq<Zone>, now: int, list: seq<Zone>) {
    && |list| == |input|
    && forall i | 0 <= i < |input| :: list[i] == Canonicalized(cat, input[i], now)
  }

  ghost predicate CountsPrimaries(list: seq<Zone>, n: nat) {
    (n == 0 <==> NoPrimary(list)) && (n <= 1 <==> AtMostOnePrimary(list))
  }

  function Primaries(list: seq<Zone>): nat {
    if list == [] then 0 else Primaries(list[..|list| - 1]) + if list[|list| - 1].primary then 1 else 0
  }

  lemma {:induction false} PrimariesCount(list: seq<Zone>)
    ensures CountsPrimaries(list, Primaries(list))
  {
    if list != [] {
      var before := list[..|list| - 1];
      PrimariesCount(before);
      OneMorePrimary(before, Primaries(before), list[|list| - 1]);
      assert list == before + [list[|list| - 1]];
    }
  }

  lemma OneMorePrimary(list: seq<Zone>, n: nat, z: Zone)
    requires CountsPrimaries(list, n)
    ensures CountsPrimaries(list + [z], if z.primary then n + 1 else n)
  {
    var longer := list + [z];
    assert forall i | 0 <= i < |list| :: longer[i] == list[i];
    if z.primary {
      assert longer[|list|].primary;
      if n > 0 {
        var i :| 0 <= i < |list| && list[i].primary;
        assert longer[i].primary && longer[|list|].primary;
      }
    } else if n > 0 {
      var i :| 0 <= i < |list| && list[i].primary;
      assert longer[i].primary;
      if n > 1 {
        var j, k :| 0 <= j < k < |list| && list[j].primary && list[k].primary;
        assert longer[j].primary && longer[k].primary;
      }
    }
  }

  /** The first i zones are prepared and their names remembered. */
  ghost predicate Progress(cat: Catalogue, input: seq<Zone>, now: int, i: nat, list: seq<Zone>, seen: set<string>) {
    && i <= |input| && Prepared(cat, input[..i], now, list) && DistinctZones(list)
    && (forall k | 0 <= k < i :: list[k].zoneId in seen)
    && (forall z | z in seen :: exists k :: 0 <= k < i && list[k].zoneId == z)
  }

  lemma ProgressStep(cat: Catalogue, input: seq<Zone>, now: int, i: nat, list: seq<Zone>, seen: set<string>)
    requires i < |input| && Progress(cat, input, now, i, list, seen)
    ensures cat.normalize(input[i].zoneId) in seen <==> Repeated(cat, input, i)
    ensures !Repeated(cat, input, i) ==>
              Progress(cat, input, now, i + 1, list + [Canonicalized(cat, input[i], now)],
                seen + {cat.normalize(input[i].zoneId)})
  {
    var id := cat.normalize(input[i].zoneId);
    assert forall k | 0 <= k < i :: input[..i][k] == input[k];
    if id in seen {
      var k :| 0 <= k < i && list[k].zoneId == id;
      assert Repeated(cat, input, i);
    } else {
      var longer, known := list + [Canonicalized(cat, input[i], now)], seen + {id};
      assert longer[i].zoneId == id;
      forall z | z in known ensures exists k :: 0 <= k < i + 1 && longer[k].zoneId == z {
        if z in seen {
          var k :| 0 <= k < i && list[k].zoneId == z;
          assert longer[k].zoneId == z;
        }
      }
    }
  }

  method Prepare(
    cat: Catalogue, input: seq<Zone>, now: int) returns (error: Option<Error>, list: seq<Zone>, primaries: nat)
    ensures error == ListError(cat, input, |input|)
    ensures error.None? ==> Prepared(cat, input, now, list) && DistinctZones(list) && CountsPrimaries(list, primaries)
  {
    error, list, primaries := None, [], 0;
    var seen: set<string> := {};
    for i := 0 to |input|
      invariant ListError(cat, input, i).None? && primaries == Primaries(list)
      invariant Progress(cat, input, now, i, list, seen)
    {
      var zone := input[i];
      Complaint(cat, input, i);
      var complaint := ZoneError(cat, zone.zoneId);
      if complaint.Some? {
        return complaint, list, primaries;
      }
      ProgressStep(cat, input, now, i, list, seen);
      var id := cat.normalize(zone.zoneId);
      if id in seen {
        return Some(ZoneDuplicate), list, primaries;
      }
      var prepared := Canonicalized(cat, zone, now);
      assert (list + [prepared])[..|list|] == list;
      seen := seen + {id};
      if zone.primary {
        primaries := primaries + 1;
      }
      list := list + [prepared];
    }
    PrimariesCount(list);
    ProgressEnds(cat, input, now, list, seen);
  }

  lemma ProgressEnds(cat: Catalogue, input: seq<Zone>, now: int, list: seq<Zone>, seen: set<string>)
    requires Progress(cat, input, now, |input|, list, seen)
    ensures Prepared(cat, input, now, list) && DistinctZones(list)
  {
    assert input[..|input|] == input;
  }

  lemma {:induction false} ErrorStays(cat: Catalogue, input: seq<Zone>, n: nat, m: nat)
    requires n <= m <= |input| && ListError(cat, input, n).Some?
    ensures ListError(cat, input, m) == ListError(cat, input, n)
    decreases m
  {
    if n < m { ErrorStays(cat, input, n, m - 1); }
  }

  /** The first complaint is the one that is returned. */
  lemma Complaint(cat: Catalogue, input: seq<Zone>, i: nat)
    requires i < |input| && ListError(cat, input, i).None?
    ensures ZoneError(cat, input[i].zoneId).Some? ==> ListError(cat, input, |input|) == ZoneError(cat, input[i].zoneId)
    ensures ZoneError(cat, input[i].zoneId).None? && Repeated(cat, input, i) ==>
            ListError(cat, input, |input|) == Some(ZoneDuplicate)
    ensures ZoneError(cat, input[i].zoneId).None? && !Repeated(cat, input, i) ==> ListError(cat, input, i + 1).None?
  {
    if ListError(cat, input, i + 1).Some? {
      ErrorStays(cat, input, i + 1, |input|);
    }
  }

  /** A list has no complaint exactly when every zone is known and none appears twice. */
  lemma {:induction false} NoComplaint(cat: Catalogue, input: seq<Zone>, n: nat)
    requires n <= |input|
    ensures ListError(cat, input, n).None? <==>
              && (forall i | 0 <= i < n :: ZoneError(cat, input[i].zoneId).None?)
              && (forall i | 0 <= i < n :: !Repeated(cat, input, i))
  {
    if n > 0 { NoComplaint(cat, input, n - 1); }
  }

  function ZoneIds(list: seq<Zone>): set<string> {
    set z | z in list :: z.zoneId
  }

  lemma OneMoreZone(list: seq<Zone>, i: nat)
    requires i < |list|
    ensures ZoneIds(list[..i + 1]) == ZoneIds(list[..i]) + {list[i].zoneId} && list[i].zoneId in ZoneIds(list)
  {
    assert list[..i + 1] == list[..i] + [list[i]];
    assert list[i] in list;
  }

  /** The in-memory capacity check. */
  method HasRoom(all: Assignments, courier: string, list: seq<Zone>) returns (room: bool)
    ensures room <==> FitsSkippingHeld(all, courier, ZoneIds(list))
  {
    for i := 0 to |list|
      invariant FitsSkippingHeld(all, courier, ZoneIds(list[..i]))
    {
      var zone := list[i].zoneId;
      OneMoreZone(list, i);
      if zone !in Held(all, courier) {
        var count := CountOthers(all, zone, courier);
        if count >= MAX_COURIERS {
          return false;
        }
      }
    }
    assert list[..|list|] == list;
    return true;
  }

  /** The assignment a list stands for: the first zone is primary if none says so. */
  ghost predicate Assigned(list: seq<Zone>, next: Zones) {
    && next.Keys == ZoneIds(list)
    && forall i | 0 <= i < |list| :: list[i].zoneId in next
                                     && next[list[i].zoneId]
                                        == list[i].(primary := list[i].primary || (i == 0 && NoPrimary(list)))
  }

  method KeyById(list: seq<Zone>) returns (next: Zones)
    requires DistinctZones(list)
    ensures next.Keys == ZoneIds(list)
    ensures forall i | 0 <= i < |list| :: list[i].zoneId in next && next[list[i].zoneId] == list[i]
  {
    next := map[];
    for i := 0 to |list|
      invariant next.Keys == ZoneIds(list[..i])
      invariant forall k | 0 <= k < i :: list[k].zoneId in next && next[list[k].zoneId] == list[k]
    {
      OneMoreZone(list, i);
      next := next[list[i].zoneId := list[i]];
    }
    assert list[..|list|] == list;
  }

  /** Making a zone primary does not rename it. */
  lemma SameIds(a: seq<Zone>, b: seq<Zone>)
    requires |a| == |b| && forall i | 0 <= i < |a| :: a[i].zoneId == b[i].zoneId
    ensures ZoneIds(a) == ZoneIds(b)
  {
    forall z ensures z in ZoneIds(a) <==> z in ZoneIds(b) {
      if z in ZoneIds(a) {
        var i :| 0 <= i < |a| && a[i].zoneId == z;
        assert b[i] in b;
      }
      if z in ZoneIds(b) {
        var i :| 0 <= i < |b| && b[i].zoneId == z;
        assert a[i] in a;
      }
    }
  }

  method Assign(list: seq<Zone>, primaries: nat) returns (next: Zones)
    requires DistinctZones(list) && CountsPrimaries(list, primaries)
    ensures Assigned(list, next)
  {
    var final := list;
    if |list| > 0 && primaries == 0 {
      final := list[0 := list[0].(primary := true)];
    }
    SameIds(list, final);
    next := KeyById(final);
  }

  lemma AssignmentHasOnePrimary(list: seq<Zone>, next: Zones)
    requires list != [] && Assigned(list, next) && AtMostOnePrimary(list) && DistinctZones(list)
    ensures OnePrimary(next)
  {
    var p := 0;
    if !NoPrimary(list) {
      p :| 0 <= p < |list| && list[p].primary;
    }
    var z := list[p].zoneId;
    assert next[z].primary;
    forall y | y in next && next[y].primary ensures y == z {
      var i :| 0 <= i < |list| && list[i].zoneId == y;
    }
  }
}
