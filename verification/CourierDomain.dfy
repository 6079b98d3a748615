/** Couriers, their slots and their ratings, with the validation the domain promises. */
module CourierDomain {
  import opened Common
  import opened Text

  datatype Error =
    | IdRequired | PhoneRequired | PhoneInvalid | FirstNameRequired | LastNameRequired | VehicleInvalid
    | NotFound | AlreadyExists | PhoneExists
    | ZoneRequired | ZoneUnknown | ZoneLimitExceeded | ZonesRequired | ZoneDuplicate | PrimaryConflict | ZoneFull
    | SlotIdRequired | SlotRangeInvalid | SlotDurationInvalid | SlotDurationMismatch | SlotStatusInvalid
    | SlotConflict | NightCarOnly
    | RatingIdRequired | ScoreInvalid | TagInvalid | TagDuplicate | ReasonsRequired | PositiveOnly | RatingExists

  const MOSCOW_OFFSET := 3 * HOUR

  // ---------------------------------------------------------------- phone numbers

  const MIN_DIGITS := 11
  const MAX_DIGITS := 15

  predicate IsDigit(c: char) {
    '0' <= c <= '9'
  }

  predicate IsSeparator(c: char) {
    c == ' ' || c == '-' || c == '(' || c == ')' || c == '\t'
  }

  predicate Allowed(s: string, i: nat)
    requires i < |s|
  {
    IsDigit(s[i]) || (s[i] == '+' && i == 0) || IsSeparator(s[i])
  }

  function Digits(s: string): string {
    if s == "" then ""
    else Digits(s[..|s| - 1]) + (if IsDigit(s[|s| - 1]) then [s[|s| - 1]] else "")
  }

  datatype Phone = Phone(number: string) | Blank' | Malformed

  /** A canonical number: a plus sign and 11 to 15 digits. */
  predicate Canonical(s: string) {
    && 12 <= |s| <= 16 && s[0] == '+'
    && forall i | 1 <= i < |s| :: IsDigit(s[i])
  }

  /** What normalization means, without the loop. */
  ghost function Normalized(phone: string): Phone {
    var t := TrimSpace(phone);
    if t == "" then Blank'
    else if (forall i | 0 <= i < |t| :: Allowed(t, i))
            && 11 <= |Digits(t)| <= 15 then Phone("+" + Digits(t))
    else Malformed
  }

  method NormalizePhone(phone: string) returns (r: Phone)
    ensures r == Normalized(phone)
  {
    var trimmed := TrimSpace(phone);
    if trimmed == "" {
      return Blank';
    }
    var digits := "";
    var i := 0;
    while i < |trimmed|
      invariant 0 <= i <= |trimmed| && digits == Digits(trimmed[..i])
      invariant forall k | 0 <= k < i :: Allowed(trimmed, k)
    {
      var c := trimmed[i];
      assert trimmed[..i + 1][..i] == trimmed[..i];
      if IsDigit(c) {
        digits := digits + [c];
      } else if c == '+' && i == 0 {
      } else if IsSeparator(c) {
      } else {
        assert !Allowed(trimmed, i);
        return Malformed;
      }
      i := i + 1;
    }
    assert trimmed[..i] == trimmed;
    if |digits| < MIN_DIGITS || |digits| > MAX_DIGITS {
      return Malformed;
    }
    return Phone("+" + digits);
  }

  lemma {:induction false} DigitsAreDigits(s: string)
    ensures forall i | 0 <= i < |Digits(s)| :: IsDigit(Digits(s)[i])
  {
    if s != "" { DigitsAreDigits(s[..|s| - 1]); }
  }

  lemma {:induction false} DigitsConcat(a: string, b: string)
    ensures Digits(a + b) == Digits(a) + Digits(b)
    decreases |b|
  {
    if b == "" {
      assert a + b == a;
    } else {
      assert (a + b)[..|a + b| - 1] == a + b[..|b| - 1];
      DigitsConcat(a, b[..|b| - 1]);
    }
  }

  lemma {:induction false} DigitsOfDigits(s: string)
    requires forall i | 0 <= i < |s| :: IsDigit(s[i])
    ensures Digits(s) == s
  {
    if s != "" {
      DigitsOfDigits(s[..|s| - 1]);
      assert s == s[..|s| - 1] + [s[|s| - 1]];
    }
  }

  lemma {:induction false} NoDigits(s: string)
    requires forall i | 0 <= i < |s| :: !IsDigit(s[i])
    ensures Digits(s) == ""
  {
    if s != "" { NoDigits(s[..|s| - 1]); }
  }

  lemma TrimKeepsDigits(s: string)
    ensures Digits(TrimSpace(s)) == Digits(s)
  {
    var left, right := TrimSplits(s);
    DigitsBetween(left, TrimSpace(s), right);
  }

  lemma DigitsBetween(left: string, t: string, right: string)
    requires forall i | 0 <= i < |left| :: !IsDigit(left[i])
    requires forall i | 0 <= i < |right| :: !IsDigit(right[i])
    ensures Digits(left + t + right) == Digits(t)
  {
    DigitsConcat(left + t, right);
    DigitsConcat(left, t);
    NoDigits(left);
    NoDigits(right);
  }

  /** Canonical numbers normalize to themselves. */
  lemma CanonicalIsFixed(s: string)
    requires Canonical(s)
    ensures Normalized(s) == Phone(s) && TrimSpace(s) == s
  {
    var rest := s[1..];
    assert TrimSpace(s) == s by { assert Tight(s); }
    assert s == "+" + rest;
    assert Digits(s) == rest by {
      DigitsConcat("+", rest);
      NoDigits("+");
      DigitsOfDigits(rest);
    }
    assert forall i | 0 <= i < |s| :: Allowed(s, i);
  }

  /** Normalization is idempotent, keeps the digits and their order, and yields canonical numbers. */
  lemma NormalizationLaws(phone: string)
    ensures Normalized(phone).Phone? ==>
              var n := Normalized(phone).number;
              Canonical(n) && Digits(n) == Digits(phone) && Normalized(n) == Phone(n)
  {
    if Normalized(phone).Phone? {
      var t := TrimSpace(phone);
      DigitsAreDigits(t);
      var n := "+" + Digits(t);
      CanonicalIsFixed(n);
      TrimKeepsDigits(phone);
      DigitsConcat("+", Digits(t));
      NoDigits("+");
      DigitsOfDigits(Digits(t));
    }
  }

  /** The characters a number may be written with, besides a plus sign at the front. */
  const WRITTEN := "0123456789 -()\t"

  /** A number is accepted exactly when it is written with these and has 11 to 15 digits; blank is missing. */
  lemma AcceptedNumbers(phone: string)
    ensures var t := TrimSpace(phone);
            && (Normalized(phone).Blank'? <==> Blank(phone))
            && (Normalized(phone).Phone? <==>
                  && (forall i | 0 <= i < |t| :: t[i] in WRITTEN || (i == 0 && t[i] == '+'))
                  && 11 <= |Digits(t)| <= 15)
  {
    var t := TrimSpace(phone);
    forall c: char ensures (IsDigit(c) || IsSeparator(c)) <==> c in WRITTEN { WrittenIs(c); }
    assert forall i | 0 <= i < |t| :: Allowed(t, i) <==> t[i] in WRITTEN || (i == 0 && t[i] == '+');
    if t == "" { assert Digits(t) == ""; }
  }

  lemma WrittenIs(c: char)
    ensures (IsDigit(c) || IsSeparator(c)) <==> c in WRITTEN
  {
  }

  // --------------------------------------------------------------------- couriers

  datatype Vehicle = Scooter | Bike | Car | UnknownVehicle(name: string)

  datatype Courier = Courier(
    id: string, phone: string, firstName: string, lastName: string, vehicle: Vehicle, active: bool, createdAt: int,
      updatedAt: int)

  /** The first complaint of the profile validation. */
  function ProfileError(c: Courier, phone: Phone): Option<Error> {
    if TrimSpace(c.id) == "" then Some(IdRequired)
    else if phone.Blank'? then Some(PhoneRequired)
    else if phone.Malformed? then Some(PhoneInvalid)
    else if TrimSpace(c.firstName) == "" then Some(FirstNameRequired)
    else if TrimSpace(c.lastName) == "" then Some(LastNameRequired)
    else if c.vehicle.UnknownVehicle? then Some(VehicleInvalid)
    else None
  }

  ghost function CourierError(c: Courier): Option<Error> {
    ProfileError(c, Normalized(c.phone))
  }

  method ValidateCourier(c: Courier) returns (error: Option<Error>, phone: string)
    ensures error == CourierError(c)
    ensures error.None? ==> Normalized(c.phone) == Phone(phone) && Canonical(phone)
  {
    var p := NormalizePhone(c.phone);
    NormalizationLaws(c.phone);
    phone := if p.Phone? then p.number else "";
    error := ProfileError(c, p);
  }

  /** Each complaint about a profile is made exactly when its field is at fault and none before it is. */
  lemma ProfileErrorsAre(c: Courier)
    ensures var e, blank := CourierError(c), Blank(c.id);
            && (e == Some(IdRequired) <==> blank)
            && (e == Some(PhoneRequired) <==> !blank && Blank(c.phone))
            && (e == Some(PhoneInvalid) <==> !blank && Normalized(c.phone).Malformed?)
            && (e == Some(FirstNameRequired) <==> !blank && Normalized(c.phone).Phone? && Blank(c.firstName))
            && (e == Some(LastNameRequired) <==>
                  !blank && Normalized(c.phone).Phone? && !Blank(c.firstName) && Blank(c.lastName))
            && (e == None <==>
                  && !blank && Normalized(c.phone).Phone? && !Blank(c.firstName) && !Blank(c.lastName)
                  && (c.vehicle == Scooter || c.vehicle == Bike || c.vehicle == Car))
            && (e.Some? && e.value != VehicleInvalid ==>
                  e.value in {IdRequired, PhoneRequired, PhoneInvalid, FirstNameRequired, LastNameRequired})
  {
  }

  // ------------------------------------------------------------------------ slots

  datatype SlotStatus = NoStatus | Planned | Active | Completed | CanceledSlot | UnknownStatus(name: string)

  datatype Slot = Slot(
    id: string, courierId: string, start: int, end: int, hours: int, status: SlotStatus, createdAt: int, updatedAt: int)

  /** The first complaint of the slot validation. */
  function SlotError(s: Slot): Option<Error> {
    if TrimSpace(s.id) == "" then Some(SlotIdRequired)
    else if TrimSpace(s.courierId) == "" then Some(IdRequired)
    else if s.start == ZERO_TIME || s.end == ZERO_TIME || s.end <= s.start then Some(SlotRangeInvalid)
    else if s.hours != 4 && s.hours != 8 && s.hours != 12 then Some(SlotDurationInvalid)
    else if s.end - s.start != s.hours * HOUR then Some(SlotDurationMismatch)
    else if s.status.UnknownStatus? then Some(SlotStatusInvalid)
    else None
  }

  /** Exactly the night shift from 20:00 to 08:00 Moscow time. */
  predicate IsNightShift(start: int, end: int) {
    && start != ZERO_TIME && end != ZERO_TIME
    && end - start == 12 * HOUR
    && (start + MOSCOW_OFFSET) % DAY == 20 * HOUR
    && (end + MOSCOW_OFFSET) % DAY == 8 * HOUR
  }

  predicate Overlaps(a: Slot, b: Slot) {
    a.start < b.end && b.start < a.end
  }

  /** Each complaint about a slot is made exactly when it applies and none before it does. */
  lemma SlotErrorsAre(s: Slot)
    ensures var e, named := SlotError(s), !Blank(s.id) && !Blank(s.courierId);
            var ranged := s.start != ZERO_TIME && s.end != ZERO_TIME && s.start < s.end;
            var shift := s.hours == 4 || s.hours == 8 || s.hours == 12;
            var exact := s.end == s.start + s.hours * 3_600_000_000_000;
            && (e == Some(SlotIdRequired) <==> Blank(s.id))
            && (e == Some(IdRequired) <==> !Blank(s.id) && Blank(s.courierId))
            && (e == Some(SlotRangeInvalid) <==> named && !ranged)
            && (e == Some(SlotDurationInvalid) <==> named && ranged && !shift)
            && (e == Some(SlotDurationMismatch) <==> named && ranged && shift && !exact)
            && (e == Some(SlotStatusInvalid) <==> named && ranged && shift && exact && s.status.UnknownStatus?)
            && (e == None <==> named && ranged && shift && exact && !s.status.UnknownStatus?)
  {
  }

  /** The night shift begins at 17:00 UTC, which is 20:00 in Moscow, and lasts twelve hours. */
  ghost predicate AtNight(start: int, end: int) {
    exists day: int :: BeginsOn(start, day) && end == start + 12 * 3_600_000_000_000
  }

  predicate BeginsOn(start: int, day: int) {
    start == day * 86_400_000_000_000 + 17 * 3_600_000_000_000
  }

  lemma NightShiftIs(start: int, end: int)
    ensures IsNightShift(start, end) <==> AtNight(start, end)
  {
    if IsNightShift(start, end) {
      var day := (start + MOSCOW_OFFSET) / DAY;
      assert start + MOSCOW_OFFSET == day * DAY + 20 * HOUR;
      assert BeginsOn(start, day);
    }
    if AtNight(start, end) {
      var day :| BeginsOn(start, day);
      Remainder(day, 20 * HOUR);
      Remainder(day + 1, 8 * HOUR);
    }
  }

  lemma Remainder(day: int, rest: int)
    requires 0 <= rest < DAY
    ensures (day * DAY + rest) % DAY == rest
  {
  }

  /** Slots overlap exactly when some instant lies in both. */
  lemma OverlapsWhen(a: Slot, b: Slot)
    requires a.start < a.end && b.start < b.end
    ensures Overlaps(a, b) <==> exists x :: InSlot(a, x) && InSlot(b, x)
  {
    if Overlaps(a, b) {
      var x := if a.start < b.start then b.start else a.start;
      assert InSlot(a, x) && InSlot(b, x);
    }
  }

  predicate InSlot(s: Slot, x: int) { s.start <= x < s.end }

  // ---------------------------------------------------------------------- ratings

  datatype Tag = OnTime | Polite | CarefulHandling | DelayedDelivery | RudeBehavior | DamagedOrder | OtherIssue
    | UnknownTag(name: string)

  predicate Negative(t: Tag) {
    t.DelayedDelivery? || t.RudeBehavior? || t.DamagedOrder? || t.OtherIssue?
  }

  datatype Rating = Rating(id: string, courierId: string, score: int, tags: seq<Tag>, comment: string, createdAt: int)

  /** The ratings that are accepted. */
  ghost predicate AcceptableRating(r: Rating) {
    && !Blank(r.id) && !Blank(r.courierId)
    && 1 <= r.score <= 5
    && (forall i | 0 <= i < |r.tags| :: !r.tags[i].UnknownTag?)
    && (forall i | 0 <= i < |r.tags| :: r.tags[i] !in r.tags[..i])
    && (r.score == 5 ==> forall i | 0 <= i < |r.tags| :: !Negative(r.tags[i]))
    && (r.score < 3 ==> exists i :: 0 <= i < |r.tags| && Negative(r.tags[i]))
  }

  /** What is wrong with the tags among the first n. */
  ghost predicate TagsOk(r: Rating, n: nat)
    requires n <= |r.tags|
  {
    && (forall i | 0 <= i < n :: !r.tags[i].UnknownTag?)
    && (forall i | 0 <= i < n :: r.tags[i] !in r.tags[..i])
    && (r.score == 5 ==> forall i | 0 <= i < n :: !Negative(r.tags[i]))
  }

  /** What is said about the i-th tag. */
  function TagComplaint(r: Rating, i: nat): seq<Error>
    requires i < |r.tags|
  {
    if r.tags[i].UnknownTag? then [TagInvalid]
    else if r.tags[i] in r.tags[..i] then [TagDuplicate]
    else if Negative(r.tags[i]) && r.score == 5 then [PositiveOnly]
    else []
  }

  function TagErrors(r: Rating, n: nat): seq<Error>
    requires n <= |r.tags|
  {
    if n == 0 then [] else TagErrors(r, n - 1) + TagComplaint(r, n - 1)
  }

  lemma {:induction false} NoTagErrors(r: Rating, n: nat)
    requires n <= |r.tags|
    ensures TagErrors(r, n) == [] <==> TagsOk(r, n)
  {
    if n > 0 {
      NoTagErrors(r, n - 1);
      OneTagMore(r, n - 1);
      assert |TagErrors(r, n)| == |TagErrors(r, n - 1)| + |TagComplaint(r, n - 1)|;
    }
  }

  lemma OneTagMore(r: Rating, i: nat)
    requires i < |r.tags|
    ensures TagsOk(r, i + 1) <==> TagsOk(r, i) && TagComplaint(r, i) == []
  {
  }

  predicate HasNegative(tags: seq<Tag>) {
    exists i :: 0 <= i < |tags| && Negative(tags[i])
  }

  /** Every complaint about a rating, in the order in which they are collected. */
  function RatingErrors(r: Rating): seq<Error> {
    var missing := And(And([], TrimSpace(r.id) == "", RatingIdRequired), TrimSpace(r.courierId) == "", IdRequired);
    var scored := And(missing, r.score < 1 || r.score > 5, ScoreInvalid);
    And(scored + TagErrors(r, |r.tags|), r.score < 3 && !HasNegative(r.tags), ReasonsRequired)
  }

  function And(errors: seq<Error>, wrong: bool, e: Error): seq<Error> {
    if wrong then errors + [e] else errors
  }

  /** A rating is accepted exactly when there is nothing to complain about. */
  lemma NoRatingErrors(r: Rating)
    ensures RatingErrors(r) == [] <==> AcceptableRating(r)
  {
    NoTagErrors(r, |r.tags|);
    assert (TrimSpace(r.id) == "" <==> Blank(r.id)) && (TrimSpace(r.courierId) == "" <==> Blank(r.courierId));
  }

  /** The i-th tag is one of the seven and new. */
  predicate FreshTag(r: Rating, i: nat)
    requires i < |r.tags|
  {
    !r.tags[i].UnknownTag? && r.tags[i] !in r.tags[..i]
  }

  const BAD_TAGS := {DelayedDelivery, RudeBehavior, DamagedOrder, OtherIssue}

  /** What is said about a tag: unknown, repeated, or bad for the best score. */
  lemma TagComplaintIs(r: Rating, i: nat)
    requires i < |r.tags|
    ensures r.tags[i].UnknownTag? ==> TagComplaint(r, i) == [TagInvalid]
    ensures !r.tags[i].UnknownTag? && !FreshTag(r, i) ==> TagComplaint(r, i) == [TagDuplicate]
    ensures FreshTag(r, i) ==>
              TagComplaint(r, i) == if r.score == 5 && r.tags[i] in BAD_TAGS then [PositiveOnly] else []
  {
  }

  lemma NoReasonIs(tags: seq<Tag>)
    ensures !HasNegative(tags) <==> forall i | 0 <= i < |tags| :: tags[i] !in BAD_TAGS
  {
    assert forall i | 0 <= i < |tags| :: Negative(tags[i]) <==> tags[i] in BAD_TAGS;
  }

  function When(wrong: bool, e: Error): seq<Error> { if wrong then [e] else [] }

  /** Every complaint about a rating, in order. */
  lemma RatingErrorsAre(r: Rating)
    ensures RatingErrors(r)
         == When(Blank(r.id), RatingIdRequired) + When(Blank(r.courierId), IdRequired)
          + When(r.score !in {1, 2, 3, 4, 5}, ScoreInvalid)
          + TagErrors(r, |r.tags|)
          + When(r.score < 3 && (forall i | 0 <= i < |r.tags| :: r.tags[i] !in BAD_TAGS), ReasonsRequired)
  {
    NoReasonIs(r.tags);
    var reasons := forall i | 0 <= i < |r.tags| :: r.tags[i] !in BAD_TAGS;
    Appended(TrimSpace(r.id) == "", TrimSpace(r.courierId) == "", r.score !in {1, 2, 3, 4, 5}, TagErrors(r, |r.tags|),
             r.score < 3 && reasons);
  }

  lemma Appended(id: bool, courier: bool, score: bool, tags: seq<Error>, reasons: bool)
    ensures And(And(And(And([], id, RatingIdRequired), courier, IdRequired), score, ScoreInvalid) + tags,
                reasons, ReasonsRequired)
         == When(id, RatingIdRequired) + When(courier, IdRequired) + When(score, ScoreInvalid) + tags
          + When(reasons, ReasonsRequired)
  {
  }

  method ValidateTags(r: Rating) returns (errors: seq<Error>, hasNegative: bool)
    ensures errors == TagErrors(r, |r.tags|) && (hasNegative <==> HasNegative(r.tags))
  {
    errors, hasNegative := [], false;
    var seen: set<Tag> := {};
    for i := 0 to |r.tags|
      invariant errors == TagErrors(r, i) && (hasNegative <==> HasNegative(r.tags[..i]))
      invariant forall t: Tag :: t in seen <==> t in r.tags[..i] && !t.UnknownTag?
    {
      var tag := r.tags[i];
      NegativeSoFar(r.tags, i);
      assert r.tags[..i + 1] == r.tags[..i] + [tag];
      if tag.UnknownTag? {
        errors := errors + [TagInvalid];
      } else if tag in seen {
        errors := errors + [TagDuplicate];
      } else {
        seen := seen + {tag};
        if Negative(tag) {
          hasNegative := true;
          if r.score == 5 {
            errors := errors + [PositiveOnly];
          }
        }
      }
    }
    assert r.tags[..|r.tags|] == r.tags;
  }

  lemma NegativeSoFar(tags: seq<Tag>, i: nat)
    requires i < |tags|
    ensures HasNegative(tags[..i + 1]) <==> HasNegative(tags[..i]) || Negative(tags[i])
    ensures tags[i] in tags[..i] && Negative(tags[i]) ==> HasNegative(tags[..i])
  {
    var longer := tags[..i + 1];
    if HasNegative(tags[..i]) {
      var k :| 0 <= k < i && Negative(tags[..i][k]);
      assert Negative(longer[k]);
    }
    assert longer[i] == tags[i];
    assert forall k | 0 <= k < i :: longer[k] == tags[..i][k];
  }

  method ValidateRating(r: Rating) returns (errors: seq<Error>)
    ensures errors == RatingErrors(r)
  {
    errors := [];
    if TrimSpace(r.id) == "" {
      errors := errors + [RatingIdRequired];
    }
    if TrimSpace(r.courierId) == "" {
      errors := errors + [IdRequired];
    }
    if r.score < 1 || r.score > 5 {
      errors := errors + [ScoreInvalid];
    }
    var bad, hasNegative := ValidateTags(r);
    errors := errors + bad;
    if r.score < 3 && !hasNegative {
      errors := errors + [ReasonsRequired];
    }
  }
}
