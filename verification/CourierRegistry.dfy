/** The in-memory courier registry: five maps that must agree. */
module CourierRegistry {
  import opened Common
  import opened Text
  import opened CourierDomain
  import opened CourierZones
  import opened CourierSlots
  import opened CourierRatings

  type Couriers = map<string, Courier>
  type PhoneIndex = map<string, string>

  // ------------------------------------------------------------------ the phone index

  /** The index and the profiles are exact inverses. */
  ghost predicate PhonesOk(couriers: Couriers, byPhone: PhoneIndex) {
    && (forall id | id in couriers :: Indexed(couriers[id], id, byPhone))
    && (forall p | p in byPhone :: byPhone[p] in couriers && couriers[byPhone[p]].phone == p)
  }

  ghost predicate Indexed(c: Courier, id: string, byPhone: PhoneIndex) {
    c.id == id && Canonical(c.phone) && c.phone in byPhone && byPhone[c.phone] == id
  }

  /** Found by scanning the profiles, without the index. */
  ghost predicate TakenByOther(couriers: Couriers, phone: string, id: string) {
    exists other :: other in couriers && other != id && couriers[other].phone == phone
  }

  ghost predicate Listed(couriers: Couriers, phone: string) {
    exists id :: id in couriers && couriers[id].phone == phone
  }

  lemma IndexAgreesWithScan(couriers: Couriers, byPhone: PhoneIndex, phone: string, id: string)
    requires PhonesOk(couriers, byPhone)
    ensures (phone in byPhone && byPhone[phone] != id) <==> TakenByOther(couriers, phone, id)
  {
    if phone in byPhone && byPhone[phone] != id {
      assert byPhone[phone] in couriers;
    }
    if TakenByOther(couriers, phone, id) {
      var other :| other in couriers && other != id && couriers[other].phone == phone;
      assert Indexed(couriers[other], other, byPhone);
    }
  }

  /** A phone number belongs to one courier at most. */
  lemma PhonesAreUnique(couriers: Couriers, byPhone: PhoneIndex, a: string, b: string)
    requires PhonesOk(couriers, byPhone) && a in couriers && b in couriers && couriers[a].phone == couriers[b].phone
    ensures a == b
  {
    assert Indexed(couriers[a], a, byPhone) && Indexed(couriers[b], b, byPhone);
  }

  /** Indexing a new courier keeps the index exact. */
  lemma InsertKeepsIndex(couriers: Couriers, byPhone: PhoneIndex, c: Courier)
    requires PhonesOk(couriers, byPhone) && Canonical(c.phone) && !TakenByOther(couriers, c.phone, c.id)
    requires c.id !in couriers
    ensures PhonesOk(couriers[c.id := c], byPhone[c.phone := c.id])
  {
    var couriers', byPhone' := couriers[c.id := c], byPhone[c.phone := c.id];
    forall id | id in couriers' ensures Indexed(couriers'[id], id, byPhone') {
      if id != c.id {
        assert Indexed(couriers[id], id, byPhone) && couriers[id].phone != c.phone;
      }
    }
  }

  function Reindexed(byPhone: PhoneIndex, was: string, phone: string, id: string): PhoneIndex {
    if was == phone then byPhone else (byPhone - {was})[phone := id]
  }

  /** So does moving the entry of a courier whose number changes. */
  lemma UpdateKeepsIndex(couriers: Couriers, byPhone: PhoneIndex, c: Courier)
    requires PhonesOk(couriers, byPhone) && Canonical(c.phone) && !TakenByOther(couriers, c.phone, c.id)
    requires c.id in couriers
    ensures PhonesOk(couriers[c.id := c], Reindexed(byPhone, couriers[c.id].phone, c.phone, c.id))
  {
    var was := couriers[c.id].phone;
    var couriers', byPhone' := couriers[c.id := c], Reindexed(byPhone, was, c.phone, c.id);
    assert Indexed(couriers[c.id], c.id, byPhone);
    forall id | id in couriers' ensures Indexed(couriers'[id], id, byPhone') {
      if id != c.id {
        assert Indexed(couriers[id], id, byPhone) && couriers[id].phone != c.phone;
      }
    }
    forall p | p in byPhone' ensures byPhone'[p] in couriers' && couriers'[byPhone'[p]].phone == p {
      if p != c.phone {
        assert p != was && byPhone[p] in couriers;
      }
    }
  }

  // --------------------------------------------------------------- the other agreements

  ghost predicate ZonesOk(couriers: Couriers, zones: Assignments) {
    zones.Keys <= couriers.Keys && WithinCapacity(zones) && forall c | c in zones :: OnePrimary(zones[c])
  }

  ghost predicate AllSlotsOk(couriers: Couriers, slots: map<string, Slots>) {
    slots.Keys <= couriers.Keys && forall c | c in slots :: SlotsOk(slots[c])
  }

  ghost predicate AllRatingsOk(couriers: Couriers, ratings: map<string, Ratings>) {
    ratings.Keys <= couriers.Keys && forall c | c in ratings :: RatingsOk(ratings[c])
  }

  ghost predicate RestOk(
    couriers: Couriers, zones: Assignments, slots: map<string, Slots>, ratings: map<string, Ratings>) {
    ZonesOk(couriers, zones) && AllSlotsOk(couriers, slots) && AllRatingsOk(couriers, ratings)
  }

  lemma StoreKeepsRest(
    couriers: Couriers, zones: Assignments, slots: map<string, Slots>, ratings: map<string, Ratings>, c: Courier)
    requires RestOk(couriers, zones, slots, ratings)
    ensures RestOk(couriers[c.id := c], zones, slots, ratings)
  {}

  // ---------------------------------------------------------- rules about the vehicle

  predicate NightSlot(s: Slot) { IsNightShift(s.start, s.end) }

  /** What only a car may have: several zones, or a night slot. */
  ghost predicate NeedsCar(zones: Zones, slots: Slots) {
    |zones| > 1 || exists k :: k in slots && NightSlot(slots[k])
  }

  ghost function Of<T>(all: map<string, map<string, T>>, courier: string): map<string, T> {
    if courier in all then all[courier] else map[]
  }

  ghost predicate VehiclesFit(couriers: Couriers, zones: Assignments, slots: map<string, Slots>) {
    forall c | c in couriers :: NeedsCar(Of(zones, c), Of(slots, c)) ==> couriers[c].vehicle.Car?
  }

  /** Saving a profile keeps the rules exactly when it does not take the car from a courier who needs it. */
  lemma SaveKeepsVehicleRules(couriers: Couriers, zones: Assignments, slots: map<string, Slots>, c: Courier)
    requires VehiclesFit(couriers, zones, slots)
    ensures VehiclesFit(couriers[c.id := c], zones, slots) <==>
              (NeedsCar(Of(zones, c.id), Of(slots, c.id)) ==> c.vehicle.Car?)
  {
    assert c.id in couriers[c.id := c];
  }

  lemma SavedVehicle(couriers: Couriers, zones: Assignments, slots: map<string, Slots>, c: Courier)
    ensures VehiclesFit(couriers, zones, slots) ==>
              (VehiclesFit(couriers[c.id := c], zones, slots) <==>
                 (NeedsCar(Of(zones, c.id), Of(slots, c.id)) ==> c.vehicle.Car?))
  {
    if VehiclesFit(couriers, zones, slots) { SaveKeepsVehicleRules(couriers, zones, slots, c); }
  }

  /** A courier without zones or slots may come with any vehicle. */
  lemma CreateKeepsVehicleRules(couriers: Couriers, zones: Assignments, slots: map<string, Slots>, c: Courier)
    requires zones.Keys <= couriers.Keys && slots.Keys <= couriers.Keys && c.id !in couriers
    ensures VehiclesFit(couriers, zones, slots) ==> VehiclesFit(couriers[c.id := c], zones, slots)
  {
    if VehiclesFit(couriers, zones, slots) {
      assert !NeedsCar(Of(zones, c.id), Of(slots, c.id));
      SaveKeepsVehicleRules(couriers, zones, slots, c);
    }
  }

  // ---------------------------------------------------------------- expected complaints

  /** The profile as it is kept. */
  ghost function Recorded(c: Courier, created: int, updated: int): Courier
    requires Normalized(c.phone).Phone?
  {
    c.(phone := Normalized(c.phone).number, createdAt := created, updatedAt := updated)
  }

  ghost function CreateError(couriers: Couriers, c: Courier): Option<Error> {
    if CourierError(c).Some? then CourierError(c)
    else if c.id in couriers then Some(AlreadyExists)
    else if TakenByOther(couriers, Normalized(c.phone).number, c.id) then Some(PhoneExists)
    else None
  }

  ghost function SaveError(couriers: Couriers, c: Courier): Option<Error> {
    if CourierError(c).Some? then CourierError(c)
    else if c.id !in couriers then Some(NotFound)
    else if TakenByOther(couriers, Normalized(c.phone).number, c.id) then Some(PhoneExists)
    else None
  }

  ghost function ZonesError(
    couriers: Couriers, zones: Assignments, cat: Catalogue, courier: string, input: seq<Zone>): Option<Error> {
    if courier == "" then Some(IdRequired)
    else if input == [] then Some(ZonesRequired)
    else if courier !in couriers then Some(NotFound)
    else if !couriers[courier].vehicle.Car? && |input| > 1 then Some(ZoneLimitExceeded)
    else if ListError(cat, input, |input|).Some? then ListError(cat, input, |input|)
    else if !AtMostOnePrimary(input) then Some(PrimaryConflict)
    else if !FitsSkippingHeld(zones, courier, CanonicalIds(cat, input)) then Some(ZoneFull)
    else None
  }

  ghost function CanonicalIds(cat: Catalogue, input: seq<Zone>): set<string> {
    set z | z in input :: cat.normalize(z.zoneId)
  }

  ghost function CreateSlotError(couriers: Couriers, slots: map<string, Slots>, s: Slot): Option<Error> {
    if SlotError(s).Some? then SlotError(s)
    else if s.courierId !in couriers then Some(NotFound)
    else if NightSlot(s) && !couriers[s.courierId].vehicle.Car? then Some(NightCarOnly)
    else if s.id in Of(slots, s.courierId) || Clash(Of(slots, s.courierId), s) then Some(SlotConflict)
    else None
  }

  /** Both calls refuse a valid profile only over its id or over a number that another profile holds. */
  lemma ProfileAnswersAre(couriers: Couriers, c: Courier)
    requires CourierError(c).None?
    ensures var known, number := c.id in couriers, Normalized(c.phone).number;
            var taken := exists other :: other in couriers && other != c.id && couriers[other].phone == number;
            && (CreateError(couriers, c) == Some(AlreadyExists) <==> known)
            && (CreateError(couriers, c) == Some(PhoneExists) <==> !known && taken)
            && (CreateError(couriers, c) == None <==> !known && !taken)
            && (SaveError(couriers, c) == Some(NotFound) <==> !known)
            && (SaveError(couriers, c) == Some(PhoneExists) <==> known && taken)
            && (SaveError(couriers, c) == None <==> known && !taken)
  {
  }

  /** What can be wrong with a request once its zones are known and named once. */
  lemma ZoneAnswersAre(couriers: Couriers, zones: Assignments, cat: Catalogue, courier: string, input: seq<Zone>)
    requires courier != "" && courier in couriers && input != [] && ListError(cat, input, |input|).None?
    ensures var e := ZonesError(couriers, zones, cat, courier, input);
            var two := exists i, j :: 0 <= i < j < |input| && input[i].primary && input[j].primary;
            var limited := |input| > 1 && couriers[courier].vehicle != Car;
            && (e == Some(ZoneLimitExceeded) <==> limited)
            && (e == Some(PrimaryConflict) <==> !limited && two)
            && (e == Some(ZoneFull) <==>
                  !limited && !two && exists z :: z in CanonicalIds(cat, input) && NoRoom(zones, courier, z))
            && (e.Some? ==> e.value in {ZoneLimitExceeded, PrimaryConflict, ZoneFull})
  {
    FullWhen(zones, courier, CanonicalIds(cat, input));
  }

  lemma FullWhen(zones: Assignments, courier: string, wanted: set<string>)
    ensures FitsSkippingHeld(zones, courier, wanted) <==> !exists z :: z in wanted && NoRoom(zones, courier, z)
  {
    forall z
      ensures NoRoom(zones, courier, z) <==> z !in Held(zones, courier) && |Holders(zones, z) - {courier}| >= 100
    {
      assert (set c | c in zones && c != courier && z in zones[c]) == Holders(zones, z) - {courier};
    }
  }

  /** A hundred others hold the zone and the courier does not. */
  ghost predicate NoRoom(zones: Assignments, courier: string, zone: string) {
    && !(courier in zones && zone in zones[courier])
    && |set c | c in zones && c != courier && zone in zones[c]| >= 100
  }

  /**
    The answers to a valid slot.  Only a car takes the shift that begins at 17:00 UTC and
    lasts twelve hours; a known courier is refused otherwise exactly when the id is used
    or some instant of the slot is booked already.
   */
  lemma SlotAnswersAre(couriers: Couriers, slots: map<string, Slots>, s: Slot)
    requires SlotError(s).None? && AllSlotsOk(couriers, slots)
    ensures var e, mine := CreateSlotError(couriers, slots, s), Of(slots, s.courierId);
            && (e == Some(NotFound) <==> s.courierId !in couriers)
            && (e == Some(NightCarOnly) <==>
                  s.courierId in couriers && !couriers[s.courierId].vehicle.Car? && AtNight(s.start, s.end))
            && (e == Some(SlotConflict) <==>
                  && s.courierId in couriers && (couriers[s.courierId].vehicle.Car? || !AtNight(s.start, s.end))
                  && (s.id in mine || Taken(mine, s)))
            && (e.Some? ==> e.value in {NotFound, NightCarOnly, SlotConflict})
  {
    NightShiftIs(s.start, s.end);
    ValidIsTimed(s);
    TakenIsClash(Of(slots, s.courierId), s);
  }

  /** Some instant of the slot belongs to a slot that is not canceled. */
  ghost predicate Taken(mine: Slots, s: Slot) {
    exists x, k :: InSlot(s, x) && k in mine && !mine[k].status.CanceledSlot? && InSlot(mine[k], x)
  }

  lemma TakenIsClash(mine: Slots, s: Slot)
    requires Timed(s) && SlotsOk(mine)
    ensures Clash(mine, s) <==> Taken(mine, s)
  {
    forall k | k in mine ensures Overlaps(mine[k], s) <==> exists x :: InSlot(mine[k], x) && InSlot(s, x) {
      assert Timed(mine[k]);
      OverlapsWhen(mine[k], s);
    }
  }

  ghost function SubmitError(couriers: Couriers, ratings: map<string, Ratings>, r: Rating): Option<Error> {
    if RatingErrors(r) != [] then Some(RatingErrors(r)[0])
    else if r.courierId !in couriers then Some(NotFound)
    else if r.id in Of(ratings, r.courierId) then Some(RatingExists)
    else None
  }

  // ------------------------------------------------------------------- zone requests

  /** The assignment a request asks for: the first zone is primary if none says so. */
  ghost predicate Requested(cat: Catalogue, input: seq<Zone>, now: int, next: Zones) {
    && next.Keys == CanonicalIds(cat, input)
    && forall i | 0 <= i < |input| :: AssignedTo(input[i], cat.normalize(input[i].zoneId), now, next,
         input[i].primary || (i == 0 && forall j | 0 <= j < |input| :: !input[j].primary))
  }

  /** One zone of a request: under its canonical name, with its own time or the current one. */
  ghost predicate AssignedTo(z: Zone, name: string, now: int, next: Zones, primary: bool) {
    && name in next && next[name].zoneId == name && next[name].primary == primary
    && next[name].assignedAt == if z.assignedAt == ZERO_TIME then now else z.assignedAt
  }

  lemma PreparedIds(cat: Catalogue, input: seq<Zone>, now: int, list: seq<Zone>)
    requires Prepared(cat, input, now, list)
    ensures ZoneIds(list) == CanonicalIds(cat, input)
    ensures (AtMostOnePrimary(list) <==> AtMostOnePrimary(input)) && (NoPrimary(list) <==> NoPrimary(input))
  {
    assert forall i | 0 <= i < |input| :: list[i].zoneId == cat.normalize(input[i].zoneId);
    assert forall i | 0 <= i < |input| :: list[i].primary == input[i].primary;
    forall z ensures z in ZoneIds(list) <==> z in CanonicalIds(cat, input) {
      if z in ZoneIds(list) {
        var i :| 0 <= i < |list| && list[i].zoneId == z;
        assert input[i] in input;
      }
      if z in CanonicalIds(cat, input) {
        var i :| 0 <= i < |input| && cat.normalize(input[i].zoneId) == z;
        assert list[i] in list;
      }
    }
  }

  lemma AssignedAsRequested(cat: Catalogue, input: seq<Zone>, now: int, list: seq<Zone>, next: Zones)
    requires Prepared(cat, input, now, list) && Assigned(list, next)
    ensures Requested(cat, input, now, next)
  {
    PreparedIds(cat, input, now, list);
    forall i | 0 <= i < |input|
      ensures AssignedTo(input[i], cat.normalize(input[i].zoneId), now, next,
                input[i].primary || (i == 0 && NoPrimary(input)))
    {
      assert list[i] == Canonicalized(cat, input[i], now);
    }
  }

  lemma OneZoneRequested(cat: Catalogue, input: seq<Zone>)
    requires |input| == 1
    ensures |CanonicalIds(cat, input)| == 1
  {
    assert input[0] in input;
    assert CanonicalIds(cat, input) == {cat.normalize(input[0].zoneId)};
  }

  /** A plan that was accepted. */
  ghost predicate Accepted(couriers: Couriers, zones: Assignments, courier: string, next: Zones) {
    && courier in couriers && OnePrimary(next) && FitsSkippingHeld(zones, courier, next.Keys)
    && (|next| > 1 ==> couriers[courier].vehicle.Car?)
  }

  /** An accepted plan keeps capacity and primary zones. */
  lemma ZonesKeepOk(couriers: Couriers, zones: Assignments, courier: string, next: Zones)
    requires ZonesOk(couriers, zones) && Accepted(couriers, zones, courier, next)
    ensures ZonesOk(couriers, zones[courier := next])
  {
    ReplacementFits(zones, courier, next);
  }

  /** It also keeps the vehicle rules. */
  lemma ZonesKeepVehicleRules(
    couriers: Couriers, zones: Assignments, slots: map<string, Slots>, courier: string, next: Zones)
    requires VehiclesFit(couriers, zones, slots) && courier in couriers
    requires (|next| > 1 ==> couriers[courier].vehicle.Car?)
    ensures VehiclesFit(couriers, zones[courier := next], slots)
  {
    var zones' := zones[courier := next];
    forall c | c in couriers ensures NeedsCar(Of(zones', c), Of(slots, c)) ==> couriers[c].vehicle.Car? {
      assert c != courier ==> Of(zones', c) == Of(zones, c);
      assert NeedsCar(Of(zones', c), Of(slots, c)) ==>
          (c == courier && |next| > 1) || NeedsCar(Of(zones, c), Of(slots, c));
    }
  }

  lemma ZonesKeepRest(
    couriers: Couriers, zones: Assignments, slots: map<string, Slots>, ratings: map<string, Ratings>,
      courier: string, next: Zones)
    requires RestOk(couriers, zones, slots, ratings) && Accepted(couriers, zones, courier, next)
    ensures RestOk(couriers, zones[courier := next], slots, ratings)
    ensures VehiclesFit(couriers, zones, slots) ==> VehiclesFit(couriers, zones[courier := next], slots)
  {
    ZonesKeepOk(couriers, zones, courier, next);
    if VehiclesFit(couriers, zones, slots) {
      ZonesKeepVehicleRules(couriers, zones, slots, courier, next);
    }
  }

  // ------------------------------------------------------------------- slots and ratings

  ghost function Grown<T>(
    all: map<string, map<string, T>>, courier: string, id: string, value: T): map<string, map<string, T>> {
    all[courier := Of(all, courier)[id := value]]
  }

  lemma SlotKeepsDisjoint(couriers: Couriers, slots: map<string, Slots>, s: Slot)
    requires AllSlotsOk(couriers, slots) && CreateSlotError(couriers, slots, s).None?
    ensures AllSlotsOk(couriers, Grown(slots, s.courierId, s.id, s))
  {
    ValidIsTimed(s);
    NewSlotFits(Of(slots, s.courierId), s);
  }

  lemma SlotKeepsVehicleRules(couriers: Couriers, zones: Assignments, slots: map<string, Slots>, s: Slot)
    requires VehiclesFit(couriers, zones, slots) && s.courierId in couriers
    requires (NightSlot(s) ==> couriers[s.courierId].vehicle.Car?)
    ensures VehiclesFit(couriers, zones, Grown(slots, s.courierId, s.id, s))
  {
    var slots' := Grown(slots, s.courierId, s.id, s);
    forall c | c in couriers ensures NeedsCar(Of(zones, c), Of(slots', c)) ==> couriers[c].vehicle.Car? {
      assert c != s.courierId ==> Of(slots', c) == Of(slots, c);
      if NeedsCar(Of(zones, c), Of(slots', c)) && |Of(zones, c)| <= 1 {
        var k :| k in Of(slots', c) && NightSlot(Of(slots', c)[k]);
        assert (c == s.courierId && k == s.id) || (k in Of(slots, c) && NightSlot(Of(slots, c)[k]));
      }
    }
  }

  lemma SlotKeepsRest(
    couriers: Couriers, zones: Assignments, slots: map<string, Slots>, ratings: map<string, Ratings>, s: Slot)
    requires RestOk(couriers, zones, slots, ratings) && CreateSlotError(couriers, slots, s).None?
    ensures RestOk(couriers, zones, Grown(slots, s.courierId, s.id, s), ratings)
    ensures VehiclesFit(couriers, zones, slots) ==> VehiclesFit(couriers, zones, Grown(slots, s.courierId, s.id, s))
  {
    SlotKeepsDisjoint(couriers, slots, s);
    if VehiclesFit(couriers, zones, slots) {
      SlotKeepsVehicleRules(couriers, zones, slots, s);
    }
  }

  /** A slot without a status is planned. */
  function WithStatus(s: Slot): Slot {
    if s.status.NoStatus? then s.(status := Planned) else s
  }

  function StampedSlot(s: Slot, now: int): Slot {
    var created := Stamp(s.createdAt, now);
    WithStatus(s).(createdAt := created, updatedAt := Stamp(s.updatedAt, created))
  }

  lemma StampingIsHarmless(couriers: Couriers, slots: map<string, Slots>, s: Slot, now: int)
    ensures CreateSlotError(couriers, slots, StampedSlot(s, now)) == CreateSlotError(couriers, slots, WithStatus(s))
  {
    var a, b, mine := StampedSlot(s, now), WithStatus(s), Of(slots, s.courierId);
    assert SlotError(a) == SlotError(b);
    assert forall k | k in mine :: Overlaps(mine[k], a) == Overlaps(mine[k], b);
  }

  lemma RatingKeepsRest(couriers: Couriers, ratings: map<string, Ratings>, r: Rating)
    requires AllRatingsOk(couriers, ratings) && r.courierId in couriers && AcceptableRating(r)
    requires r.createdAt != ZERO_TIME
    ensures AllRatingsOk(couriers, Grown(ratings, r.courierId, r.id, r))
  {
    assert RatingsOk(Of(ratings, r.courierId)[r.id := r]);
  }

  // ------------------------------------------------------------------------- the class

  class Registry {
    const cat: Catalogue
    var couriers: Couriers
    var byPhone: PhoneIndex
    var zones: Assignments
    var slots: map<string, Slots>
    var ratings: map<string, Ratings>

    ghost predicate Valid()
      reads this
    {
      PhonesOk(couriers, byPhone) && RestOk(couriers, zones, slots, ratings)
    }

    ghost predicate VehicleRules()
      reads this
    {
      VehiclesFit(couriers, zones, slots)
    }

    constructor (cat: Catalogue)
      ensures Valid() && VehicleRules() && this.cat == cat
      ensures couriers == map[] && zones == map[] && slots == map[] && ratings == map[]
    {
      this.cat := cat;
      couriers, byPhone, zones, slots, ratings := map[], map[], map[], map[], map[];
      new;
      assert forall z :: Holders(zones, z) == {};
    }

    method Create(c: Courier, now: int) returns (error: Option<Error>)
      requires Valid()
      modifies this`couriers, this`byPhone
      ensures Valid() && error == CreateError(old(couriers), c)
      ensures error.Some? ==> couriers == old(couriers) && byPhone == old(byPhone)
      ensures error.None? ==>
                var created := if c.createdAt == ZERO_TIME then now else c.createdAt;
                var updated := if c.updatedAt == ZERO_TIME then created else c.updatedAt;
                couriers == old(couriers)[c.id := Recorded(c, created, updated)]
      ensures old(VehicleRules()) ==> VehicleRules()
    {
      var invalid, phone := ValidateCourier(c);
      if invalid.Some? {
        return invalid;
      }
      ghost var was := couriers;
      error := Insert(c, phone, now);
      if error.None? {
        StoreKeepsRest(was, zones, slots, ratings, couriers[c.id]);
        CreateKeepsVehicleRules(was, zones, slots, couriers[c.id]);
      }
    }

    /** Create, once the profile is validated. */
    method Insert(c: Courier, phone: string, now: int) returns (error: Option<Error>)
      requires PhonesOk(couriers, byPhone) && Canonical(phone)
      modifies this`couriers, this`byPhone
      ensures PhonesOk(couriers, byPhone)
      ensures error == if c.id in old(couriers) then Some(AlreadyExists)
              else if TakenByOther(old(couriers), phone, c.id) then Some(PhoneExists) else None
      ensures error.Some? ==> couriers == old(couriers) && byPhone == old(byPhone)
      ensures error.None? ==>
                couriers == old(couriers)[c.id := c.(phone := phone, createdAt := Stamp(c.createdAt, now),
                  updatedAt := Stamp(c.updatedAt, Stamp(c.createdAt, now)))]
    {
      if c.id in couriers {
        return Some(AlreadyExists);
      }
      IndexAgreesWithScan(couriers, byPhone, phone, c.id);
      if phone in byPhone && byPhone[phone] != c.id {
        return Some(PhoneExists);
      }
      var created := Stamp(c.createdAt, now);
      var stored := c.(phone := phone, createdAt := created, updatedAt := Stamp(c.updatedAt, created));
      InsertKeepsIndex(couriers, byPhone, stored);
      couriers := couriers[c.id := stored];
      byPhone := byPhone[phone := c.id];
      return None;
    }

    method Save(c: Courier, now: int) returns (error: Option<Error>)
      requires Valid()
      modifies this`couriers, this`byPhone
      ensures Valid() && error == SaveError(old(couriers), c)
      ensures error.Some? ==> couriers == old(couriers) && byPhone == old(byPhone)
      ensures error.None? ==>
                var created := if c.createdAt == ZERO_TIME then old(couriers)[c.id].createdAt else c.createdAt;
                var updated := if c.updatedAt == ZERO_TIME then now else c.updatedAt;
                couriers == old(couriers)[c.id := Recorded(c, created, updated)]
      ensures old(VehicleRules()) && error.None? ==>
                (VehicleRules() <==> (NeedsCar(Of(zones, c.id), Of(slots, c.id)) ==> c.vehicle.Car?))
    {
      var invalid, phone := ValidateCourier(c);
      if invalid.Some? {
        return invalid;
      }
      ghost var was := couriers;
      error := Update(c, phone, now);
      if error.None? {
        StoreKeepsRest(was, zones, slots, ratings, couriers[c.id]);
        SavedVehicle(was, zones, slots, couriers[c.id]);
      }
    }

    /** Save, once the profile is validated. */
    method Update(c: Courier, phone: string, now: int) returns (error: Option<Error>)
      requires PhonesOk(couriers, byPhone) && Canonical(phone)
      modifies this`couriers, this`byPhone
      ensures PhonesOk(couriers, byPhone)
      ensures error == if c.id !in old(couriers) then Some(NotFound)
              else if TakenByOther(old(couriers), phone, c.id) then Some(PhoneExists) else None
      ensures error.Some? ==> couriers == old(couriers) && byPhone == old(byPhone)
      ensures error.None? ==>
                couriers == old(couriers)[c.id := c.(phone := phone,
                  createdAt := Stamp(c.createdAt, old(couriers)[c.id].createdAt), updatedAt := Stamp(c.updatedAt, now))]
    {
      if c.id !in couriers {
        return Some(NotFound);
      }
      IndexAgreesWithScan(couriers, byPhone, phone, c.id);
      if phone in byPhone && byPhone[phone] != c.id {
        return Some(PhoneExists);
      }
      var stored := c.(phone := phone, createdAt := Stamp(c.createdAt, couriers[c.id].createdAt),
                    updatedAt := Stamp(c.updatedAt, now));
      var current := TrimSpace(couriers[c.id].phone);
      assert current == couriers[c.id].phone by {
        assert Indexed(couriers[c.id], c.id, byPhone);
        CanonicalIsFixed(couriers[c.id].phone);
      }
      UpdateKeepsIndex(couriers, byPhone, stored);
      if current != phone {
        byPhone := byPhone - {current};
        byPhone := byPhone[phone := c.id];
      }
      couriers := couriers[c.id := stored];
      return None;
    }

    /** Finds exactly what a scan of the profiles would find. */
    method GetByPhone(phone: string) returns (found: Option<Courier>, error: Option<Error>)
      requires Valid()
      ensures Normalized(phone).Blank'? ==> error == Some(PhoneRequired)
      ensures Normalized(phone).Malformed? ==> error == Some(PhoneInvalid)
      ensures found.Some? <==> Normalized(phone).Phone? && Listed(couriers, Normalized(phone).number)
      ensures found.Some? ==>
                && error == None && found.value.phone == Normalized(phone).number
                && found.value.id in couriers && couriers[found.value.id] == found.value
      ensures found.None? && Normalized(phone).Phone? ==> error == Some(NotFound)
    {
      var n := NormalizePhone(phone);
      if n.Blank'? {
        return None, Some(PhoneRequired);
      }
      if n.Malformed? {
        return None, Some(PhoneInvalid);
      }
      found, error := Lookup(n.number);
    }

    method Lookup(number: string) returns (found: Option<Courier>, error: Option<Error>)
      requires Valid()
      ensures error == if found.Some? then None else Some(NotFound)
      ensures found.Some? <==> Listed(couriers, number)
      ensures found.Some? ==>
                found.value.phone == number && found.value.id in couriers && couriers[found.value.id] == found.value
    {
      IndexAgreesWithScan(couriers, byPhone, number, "");
      if number !in byPhone {
        assert forall id | id in couriers :: Indexed(couriers[id], id, byPhone);
        return None, Some(NotFound);
      }
      var id := byPhone[number];
      if id !in couriers {
        return None, Some(NotFound);
      }
      assert Indexed(couriers[id], id, byPhone);
      return Some(couriers[id]), None;
    }

    // ------------------------------------------------------------------------- zones

    method ReplaceZones(courierId: string, input: seq<Zone>, now: int) returns (error: Option<Error>)
      requires Valid()
      modifies this`zones
      ensures Valid() && (old(VehicleRules()) ==> VehicleRules())
      ensures error == ZonesError(couriers, old(zones), cat, TrimSpace(courierId), input)
      ensures error.Some? ==> zones == old(zones)
      ensures error.None? ==>
                var id := TrimSpace(courierId);
                id in zones && zones == old(zones)[id := zones[id]] && Requested(cat, input, now, zones[id])
    {
      var id := TrimSpace(courierId);
      var next: Zones;
      error, next := PlanZones(id, input, now);
      if error.None? {
        PutZones(id, next);
      }
    }

    method PutZones(courier: string, next: Zones)
      requires Valid() && Accepted(couriers, zones, courier, next)
      modifies this`zones
      ensures Valid() && (old(VehicleRules()) ==> VehicleRules())
      ensures zones == old(zones)[courier := next]
    {
      ZonesKeepRest(couriers, zones, slots, ratings, courier, next);
      zones := zones[courier := next];
    }

    /** Everything a zone request goes through before the assignment is replaced. */
    method PlanZones(courier: string, input: seq<Zone>, now: int) returns (error: Option<Error>, next: Zones)
      ensures error == ZonesError(couriers, zones, cat, courier, input)
      ensures error.None? ==>
                Requested(cat, input, now, next) && Accepted(couriers, zones, courier, next)
    {
      next := map[];
      if courier == "" {
        return Some(IdRequired), next;
      }
      if |input| == 0 {
        return Some(ZonesRequired), next;
      }
      if courier !in couriers {
        return Some(NotFound), next;
      }
      if !couriers[courier].vehicle.Car? && |input| > 1 {
        return Some(ZoneLimitExceeded), next;
      }
      var complaint, list, primaries := Prepare(cat, input, now);
      if complaint.Some? {
        return complaint, next;
      }
      PreparedIds(cat, input, now, list);
      if primaries > 1 {
        return Some(PrimaryConflict), next;
      }
      var room := HasRoom(zones, courier, list);
      if !room {
        return Some(ZoneFull), next;
      }
      next := Assign(list, primaries);
      AssignedAsRequested(cat, input, now, list, next);
      AssignmentHasOnePrimary(list, next);
      if |input| == 1 {
        OneZoneRequested(cat, input);
        assert |next| == |next.Keys|;
      }
      return None, next;
    }

    // ------------------------------------------------------------------------- slots

    method CreateSlot(slot: Slot, now: int) returns (error: Option<Error>)
      requires Valid()
      modifies this`slots
      ensures Valid() && (old(VehicleRules()) ==> VehicleRules())
      ensures var status := if slot.status.NoStatus? then Planned else slot.status;
              error == CreateSlotError(couriers, old(slots), slot.(status := status))
      ensures error.Some? ==> slots == old(slots)
      ensures error.None? ==>
                var status := if slot.status.NoStatus? then Planned else slot.status;
                var created := if slot.createdAt == ZERO_TIME then now else slot.createdAt;
                var updated := if slot.updatedAt == ZERO_TIME then created else slot.updatedAt;
                slots == Grown(old(slots), slot.courierId, slot.id,
                  slot.(status := status, createdAt := created, updatedAt := updated))
    {
      var s := WithStatus(slot);
      error := CheckSlot(s);
      if error.None? {
        StampingIsHarmless(couriers, slots, slot, now);
        PutSlot(StampedSlot(slot, now));
      }
    }

    /** Everything a slot goes through before it is stored. */
    method CheckSlot(s: Slot) returns (error: Option<Error>)
      ensures error == CreateSlotError(couriers, slots, s)
    {
      var invalid := SlotError(s);
      if invalid.Some? {
        return invalid;
      }
      if s.courierId !in couriers {
        return Some(NotFound);
      }
      if IsNightShift(s.start, s.end) && !couriers[s.courierId].vehicle.Car? {
        return Some(NightCarOnly);
      }
      var mine: Slots := if s.courierId in slots then slots[s.courierId] else map[];
      if s.id in mine {
        return Some(SlotConflict);
      }
      var clash := FindClash(mine, s);
      return if clash then Some(SlotConflict) else None;
    }

    method PutSlot(s: Slot)
      requires Valid() && CreateSlotError(couriers, slots, s).None?
      modifies this`slots
      ensures Valid() && (old(VehicleRules()) ==> VehicleRules())
      ensures slots == Grown(old(slots), s.courierId, s.id, s)
    {
      SlotKeepsRest(couriers, zones, slots, ratings, s);
      var mine: Slots := if s.courierId in slots then slots[s.courierId] else map[];
      slots := slots[s.courierId := mine[s.id := s]];
    }

    /** In every reachable state the booked hours inside a window fit in the window. */
    lemma BookedHoursFit(courier: string, keys: set<string>, from: int, to: int)
      requires Valid() && courier in slots && from <= to && Inside(slots[courier], keys, from, to)
      ensures Hours(slots[courier], keys) * HOUR <= to - from
    {
      WindowHoldsItsSlots(slots[courier], keys, from, to);
    }

    // ----------------------------------------------------------------------- ratings

    method SubmitRating(r: Rating, now: int) returns (error: Option<Error>)
      requires Valid() && now != ZERO_TIME
      modifies this`ratings
      ensures Valid()
      ensures error == SubmitError(couriers, old(ratings), r)
      ensures error.Some? ==> ratings == old(ratings)
      ensures error.None? ==>
                var created := if r.createdAt == ZERO_TIME then now else r.createdAt;
                ratings == Grown(old(ratings), r.courierId, r.id, r.(createdAt := created))
    {
      var errors := ValidateRating(r);
      NoRatingErrors(r);
      if |errors| > 0 {
        return Some(errors[0]);
      }
      if r.courierId !in couriers {
        return Some(NotFound);
      }
      var mine: Ratings := if r.courierId in ratings then ratings[r.courierId] else map[];
      if r.id in mine {
        return Some(RatingExists);
      }
      var stored := r.(createdAt := Stamp(r.createdAt, now));
      RatingKeepsRest(couriers, ratings, stored);
      ratings := ratings[r.courierId := mine[r.id := stored]];
      return None;
    }

    method GetRatingSummary(courierId: string) returns (summary: Summary, error: Option<Error>)
      requires Valid()
      ensures error == if TrimSpace(courierId) == "" then Some(IdRequired)
              else if TrimSpace(courierId) !in couriers then Some(NotFound) else None
      ensures error.None? ==>
                var mine := Of(ratings, TrimSpace(courierId));
                Describes(summary, mine, mine.Keys) && SummaryConsistent(summary)
    {
      var id := TrimSpace(courierId);
      summary := NOTHING;
      if id == "" {
        return summary, Some(IdRequired);
      }
      if id !in couriers {
        return summary, Some(NotFound);
      }
      var mine: Ratings := if id in ratings then ratings[id] else map[];
      summary := Summarize(mine);
      SummaryLaws(summary, mine);
      return summary, None;
    }
  }

  // --------------------------------------------------------- how the rules can be lost

  lemma CarIsFine(c: Courier)
    requires CourierError(c).None?
    ensures CourierError(c.(vehicle := Car)).None?
  {
  }

  /** A list without complaint names as many zones as it has entries, so more than one if it has more than one. */
  lemma SeveralZones(cat: Catalogue, input: seq<Zone>)
    requires |input| > 1 && ListError(cat, input, |input|).None?
    ensures |CanonicalIds(cat, input)| > 1
  {
    NoComplaint(cat, input, |input|);
    var a, b := cat.normalize(input[0].zoneId), cat.normalize(input[1].zoneId);
    assert !Repeated(cat, input, 1);
    assert input[0] in input && input[1] in input;
    SubsetSize({a, b}, CanonicalIds(cat, input));
  }

  lemma FirstCourierIsAccepted(c: Courier)
    requires CourierError(c).None?
    ensures CreateError(map[], c.(vehicle := Car)).None?
  {
    CarIsFine(c);
  }

  lemma OnlyCourierIsSaved(couriers: Couriers, c: Courier)
    requires CourierError(c).None? && couriers.Keys == {c.id}
    ensures SaveError(couriers, c).None?
  {
  }

  lemma FirstZonesAreAccepted(couriers: Couriers, cat: Catalogue, courier: string, input: seq<Zone>)
    requires courier != "" && courier in couriers && couriers[courier].vehicle.Car? && input != []
    requires ListError(cat, input, |input|).None? && AtMostOnePrimary(input)
    ensures ZonesError(couriers, map[], cat, courier, input).None?
  {
    assert forall z :: Holders(map[], z) - {courier} == {};
  }

  method EnrollDriver(cat: Catalogue, c: Courier, now: int) returns (r: Registry)
    requires CourierError(c).None?
    ensures fresh(r) && r.Valid() && r.VehicleRules() && r.cat == cat
    ensures r.couriers.Keys == {c.id} && r.couriers[c.id].vehicle.Car? && r.zones == map[] && r.slots == map[]
  {
    r := new Registry(cat);
    FirstCourierIsAccepted(c);
    var error := r.Create(c.(vehicle := Car), now);
  }

  method EnrollWithZones(cat: Catalogue, c: Courier, input: seq<Zone>, now: int) returns (r: Registry)
    requires CourierError(c).None? && TrimSpace(c.id) == c.id
    requires |input| > 1 && ListError(cat, input, |input|).None? && AtMostOnePrimary(input)
    ensures fresh(r) && r.Valid() && r.VehicleRules() && r.couriers.Keys == {c.id}
    ensures NeedsCar(Of(r.zones, c.id), Of(r.slots, c.id))
  {
    r := EnrollDriver(cat, c, now);
    FirstZonesAreAccepted(r.couriers, cat, c.id, input);
    var error := r.ReplaceZones(c.id, input, now);
    SeveralZones(cat, input);
    assert |r.zones[c.id]| == |r.zones[c.id].Keys|;
  }

  /**
    From an empty registry, for every valid profile without a car and every acceptable
    list of several zones: the courier is created with a car, takes the zones and is then
    saved without the car.  All three calls are accepted and the rules are lost.
   */
  method TradeTheCar(cat: Catalogue, c: Courier, input: seq<Zone>, now: int) returns (r: Registry)
    requires CourierError(c).None? && !c.vehicle.Car? && TrimSpace(c.id) == c.id
    requires |input| > 1 && ListError(cat, input, |input|).None? && AtMostOnePrimary(input)
    ensures fresh(r) && r.Valid() && !r.VehicleRules() && c.id in r.couriers && r.couriers[c.id].vehicle == c.vehicle
  {
    r := EnrollWithZones(cat, c, input, now);
    OnlyCourierIsSaved(r.couriers, c);
    var error := r.Save(c, now);
  }
}
