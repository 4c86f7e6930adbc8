/** When two bookings of one pitch and date clash, and the two invariants the
    admission path keeps: no two bookings of a pitch and date overlap, and
    booking ids are never reused. */
module Schedule {
  import opened Js
  import opened Entities

  /** The test in `checkAvailability`, branch for branch: the requested start
      lies inside the booking, the requested end lies inside the booking, or the
      booking lies within the request. */
  predicate ThreeBranchOverlap(bookedStart: string, bookedEnd: string, startTime: string, endTime: string)
  {
    || (Less(bookedStart, startTime) && Less(startTime, bookedEnd))
    || (Less(bookedStart, endTime) && Less(endTime, bookedEnd))
    || (!Less(bookedStart, startTime) && !Less(endTime, bookedEnd))
  }

  /** The half-open intervals `[s1, e1)` and `[s2, e2)` share an instant. */
  predicate Intersects(s1: string, e1: string, s2: string, e2: string)
  {
    Less(s1, e2) && Less(s2, e1)
  }

  /** For a well-formed booking and a well-formed request, the three branches
      together are exactly half-open interval intersection. */
  lemma ThreeBranchIsIntersection(bookedStart: string, bookedEnd: string, startTime: string, endTime: string)
    requires Less(bookedStart, bookedEnd) && Less(startTime, endTime)
    ensures ThreeBranchOverlap(bookedStart, bookedEnd, startTime, endTime)
        <==> Intersects(bookedStart, bookedEnd, startTime, endTime)
  {
    var bs, be, s, e := bookedStart, bookedEnd, startTime, endTime;
    LessTrichotomous(bs, s);
    LessTrichotomous(be, e);
    if Less(bs, s) && Less(s, be) {
      LessTransitive(bs, s, e);
    }
    if Less(bs, e) && Less(e, be) {
      LessTransitive(s, e, be);
    }
    if !Less(bs, s) && !Less(e, be) {
      if bs != s {
        LessTransitive(s, bs, be);
      }
      if be != e {
        LessTransitive(bs, be, e);
      }
    }
    if Less(bs, e) && Less(s, be) && !Less(bs, s) && Less(e, be) {
      assert ThreeBranchOverlap(bs, be, s, e);
    }
  }

  /** Back-to-back slots do not clash, in either order. */
  lemma AdjacentSlotsDoNotConflict(a: string, b: string, c: string)
    requires Less(a, b) && Less(b, c)
    ensures !ThreeBranchOverlap(a, b, b, c)
    ensures !ThreeBranchOverlap(b, c, a, b)
  {
    LessIrreflexive(b);
    LessAsymmetric(a, b);
    LessAsymmetric(b, c);
  }

  /** A slot clashes with itself. */
  lemma SameSlotConflicts(a: string, b: string)
    ensures ThreeBranchOverlap(a, b, a, b)
  {
    LessIrreflexive(a);
    LessIrreflexive(b);
  }

  /** With the end before the start, which the availability endpoint lets
      through, the three branches are not interval intersection: a request
      10:30-09:00 is reported against a booking 10:00-11:00 it does not
      intersect. */
  lemma ReversedRequestIsNotIntersection()
    ensures ThreeBranchOverlap("10:00", "11:00", "10:30", "09:00")
    ensures !Intersects("10:00", "11:00", "10:30", "09:00")
  {
    assert Less("10:00", "10:30") by {
      LessAtFirstDifference("10:00", "10:30", 3);
    }
    assert Less("10:30", "11:00") by {
      LessAtFirstDifference("10:30", "11:00", 1);
    }
    assert !Less("10:00", "09:00") by {
      LessAtFirstDifference("10:00", "09:00", 0);
    }
  }

  /** Same pitch, same date. */
  predicate SameDayOnPitch(a: Booking, b: Booking)
  {
    a.pitchId == b.pitchId && a.bookingDate == b.bookingDate
  }

  predicate WellFormed(b: Booking)
  {
    Less(b.startTime, b.endTime)
  }

  predicate Clash(a: Booking, b: Booking)
  {
    SameDayOnPitch(a, b) && Intersects(a.startTime, a.endTime, b.startTime, b.endTime)
  }

  /** Every booking ends after it starts, and no two bookings of one pitch and
      date overlap. */
  ghost predicate Scheduled(bs: seq<Booking>)
  {
    && (forall i :: 0 <= i < |bs| ==> WellFormed(bs[i]))
    && (forall i, j :: 0 <= i < |bs| && 0 <= j < |bs| && i != j ==> !Clash(bs[i], bs[j]))
  }

  /** Every booking id is below the counter and no two bookings share one, so
      the counter's next value is unused. */
  ghost predicate IdsFresh(bs: seq<Booking>, nextBookingId: nat)
  {
    && (forall i :: 0 <= i < |bs| ==> bs[i].id < nextBookingId)
    && (forall i, j :: 0 <= i < |bs| && 0 <= j < |bs| && i != j ==> bs[i].id != bs[j].id)
  }

  lemma ClashSymmetric(a: Booking, b: Booking)
    ensures Clash(a, b) <==> Clash(b, a)
  {
  }

  /** Appending a well-formed booking that clashes with none keeps the schedule. */
  lemma {:induction false} AppendKeepsSchedule(bs: seq<Booking>, b: Booking)
    requires Scheduled(bs) && WellFormed(b)
    requires forall i :: 0 <= i < |bs| ==> !Clash(bs[i], b)
    ensures Scheduled(bs + [b])
  {
    var r := bs + [b];
    forall i, j | 0 <= i < |r| && 0 <= j < |r| && i != j
      ensures !Clash(r[i], r[j])
    {
      if j == |bs| {
        assert r[i] == bs[i];
      } else if i == |bs| {
        ClashSymmetric(r[i], r[j]);
        assert r[j] == bs[j];
      } else {
        assert r[i] == bs[i] && r[j] == bs[j];
      }
    }
  }

  /** Stamping a booking with the counter and then raising the counter keeps
      ids fresh. */
  lemma AppendKeepsIdsFresh(bs: seq<Booking>, next: nat, b: Booking)
    requires IdsFresh(bs, next) && b.id == next
    ensures IdsFresh(bs + [b], next + 1)
  {
  }
}
