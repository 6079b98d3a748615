/** Why a courier can never be booked for more hours than a window has. */
module CourierSlots {
  import opened Common
  import opened CourierDomain

  type Slots = map<string, Slot>

  predicate Booked(s: Slot) {
    !s.status.CanceledSlot?
  }

  /** Exactly 4, 8 or 12 hours long, as recorded. */
  predicate Timed(s: Slot) {
    s.end - s.start == s.hours * HOUR && (s.hours == 4 || s.hours == 8 || s.hours == 12)
  }

  /** Every slot has an allowed length and the booked ones are pairwise disjoint. */
  ghost predicate SlotsOk(slots: Slots) {
    && (forall k | k in slots :: Timed(slots[k]))
    && (forall j, k | j in slots && k in slots && j != k && Booked(slots[j]) && Booked(slots[k]) ::
       !Overlaps(slots[j], slots[k]))
  }

  ghost predicate Clash(slots: Slots, s: Slot) {
    exists k :: k in slots && !slots[k].status.CanceledSlot? && Overlaps(slots[k], s)
  }

  /** Looks for a booked slot in the way, in any order. */
  method FindClash(slots: Slots, s: Slot) returns (clash: bool)
    ensures clash <==> Clash(slots, s)
  {
    var todo := slots.Keys;
    while todo != {}
      invariant todo <= slots.Keys
      invariant forall k | k in slots && k !in todo :: !(Booked(slots[k]) && Overlaps(slots[k], s))
      decreases |todo|
    {
      var k :| k in todo;
      if Booked(slots[k]) && Overlaps(slots[k], s) {
        return true;
      }
      todo := todo - {k};
    }
    return false;
  }

  lemma ValidIsTimed(s: Slot)
    requires SlotError(s).None?
    ensures Timed(s)
  {}

  /** A valid slot that clashes with none keeps the slots disjoint. */
  lemma NewSlotFits(slots: Slots, s: Slot)
    requires SlotsOk(slots) && Timed(s) && !Clash(slots, s) && s.id !in slots
    ensures SlotsOk(slots[s.id := s])
  {
    var slots' := slots[s.id := s];
    forall j, k | j in slots' && k in slots' && j != k && Booked(slots'[j]) && Booked(slots'[k])
      ensures !Overlaps(slots'[j], slots'[k])
    {
      if j == s.id {
        assert !(k in slots && Booked(slots[k]) && Overlaps(slots[k], s));
      } else if k == s.id {
        assert !(j in slots && Booked(slots[j]) && Overlaps(slots[j], s));
      }
    }
  }

  /** Hours of a set of slots. */
  ghost function Hours(slots: Slots, keys: set<string>): int
    requires keys <= slots.Keys
  {
    if keys == {} then 0
    else
      var k :| k in keys;
      slots[k].hours + Hours(slots, keys - {k})
  }

  /** Summing may start with any slot. */
  lemma {:induction false} HoursWithout(slots: Slots, keys: set<string>, k: string)
    requires keys <= slots.Keys && k in keys
    ensures Hours(slots, keys) == slots[k].hours + Hours(slots, keys - {k})
    decreases |keys|
  {
    var j :| j in keys && Hours(slots, keys) == slots[j].hours + Hours(slots, keys - {j});
    if j != k {
      HoursWithout(slots, keys - {j}, k);
      HoursWithout(slots, keys - {k}, j);
      assert keys - {j} - {k} == keys - {k} - {j};
    }
  }

  lemma {:induction false} LatestSlot(slots: Slots, keys: set<string>) returns (last: string)
    requires keys <= slots.Keys && keys != {}
    ensures last in keys && forall k | k in keys :: slots[k].start <= slots[last].start
    decreases |keys|
  {
    last :| last in keys;
    if keys != {last} {
      var other := LatestSlot(slots, keys - {last});
      if slots[other].start > slots[last].start { last := other; }
    }
  }

  ghost predicate Inside(slots: Slots, keys: set<string>, from: int, to: int) {
    keys <= slots.Keys && forall k | k in keys :: Booked(slots[k]) && from <= slots[k].start && slots[k].end <= to
  }

  /** Booked slots that do not start after another booked slot end before it starts. */
  lemma EarlierEndsFirst(slots: Slots, keys: set<string>, last: string, from: int, to: int)
    requires SlotsOk(slots) && Inside(slots, keys, from, to) && last in keys
    requires forall k | k in keys :: slots[k].start <= slots[last].start
    ensures Inside(slots, keys - {last}, from, slots[last].start)
  {
    forall k | k in keys - {last} ensures slots[k].end <= slots[last].start {
      assert Timed(slots[last]) && !Overlaps(slots[k], slots[last]);
    }
  }

  lemma TimedLength(s: Slot)
    requires Timed(s)
    ensures s.start < s.end && s.end == s.start + s.hours * HOUR
  {}

  lemma AddHours(a: int, b: int)
    ensures (a + b) * HOUR == a * HOUR + b * HOUR
  {}

  /** The booked hours inside any window never exceed the length of the window. */
  lemma {:induction false} WindowHoldsItsSlots(slots: Slots, keys: set<string>, from: int, to: int)
    requires SlotsOk(slots) && from <= to && Inside(slots, keys, from, to)
    ensures Hours(slots, keys) * HOUR <= to - from
    decreases |keys|
  {
    if keys != {} {
      var last := LatestSlot(slots, keys);
      EarlierEndsFirst(slots, keys, last, from, to);
      WindowHoldsItsSlots(slots, keys - {last}, from, slots[last].start);
      HoursWithout(slots, keys, last);
      TimedLength(slots[last]);
      AddHours(slots[last].hours, Hours(slots, keys - {last}));
    }
  }
}
