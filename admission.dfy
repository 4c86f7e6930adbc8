/** The POST /bookings pipeline both variants run: a fixed chain of guards,
    the price, then `createBooking`. */
module Admission {
  import opened Wrappers
  import opened Js
  import opened Seqs
  import opened Email
  import opened Clock
  import opened Entities
  import opened Schedule
  import opened Pricing
  import opened Database
  import opened Http

  /** The fields read from the request body; `None` is a field that is absent. */
  datatype BookingRequest = BookingRequest(pitchId: JsArg, customerName: Option<string>,
                                           customerEmail: Option<string>, customerPhone: Option<string>,
                                           bookingDate: Option<string>, startTime: Option<string>,
                                           endTime: Option<string>)

  /** The first guard: no field missing or falsy. */
  predicate HasAllFields(req: BookingRequest)
  {
    && Truthy(req.pitchId) && Given(req.customerName) && Given(req.customerEmail)
    && Given(req.customerPhone) && Given(req.bookingDate) && Given(req.startTime) && Given(req.endTime)
  }

  /** A guard's refusal, or the booking to create. */
  datatype Verdict = Reject(response: Response) | Admit(draft: BookingDraft)

  /** The overlapping bookings the fourth guard looks at. */
  function Conflicts(bookings: seq<Booking>, req: BookingRequest): seq<Booking>
    requires HasAllFields(req)
  {
    CheckAvailability(bookings, req.pitchId, req.bookingDate.value, req.startTime.value, req.endTime.value)
  }

  /** The guards in their order: missing field, email, time order, overlap,
      unknown pitch; then the draft with the server's price. */
  function Decide(pitches: seq<Pitch>, bookings: seq<Booking>, req: BookingRequest): Verdict
  {
    if !HasAllFields(req) then
      Reject(Response(400, Error("All fields are required")))
    else if !IsValidEmail(req.customerEmail.value) then
      Reject(Response(400, Error("Invalid email format")))
    else if !Less(req.startTime.value, req.endTime.value) then
      Reject(Response(400, Error("End time must be after start time")))
    else if |Conflicts(bookings, req)| > 0 then
      Reject(Response(409, Error("Time slot is already booked")))
    else
      match GetPitchById(pitches, req.pitchId)
      case None => Reject(Response(404, Error("Pitch not found")))
      case Some(pitch) =>
        Admit(BookingDraft(ParseIntArg(req.pitchId).value, req.customerName.value, req.customerEmail.value,
                           req.customerPhone.value, req.bookingDate.value, req.startTime.value,
                           req.endTime.value,
                           TotalPrice(req.startTime.value, req.endTime.value, pitch.pricePerHour)))
  }

  /** Which guard decides: each status comes exactly when every guard before
      it passed and its own failed. */
  lemma GuardOrder(pitches: seq<Pitch>, bookings: seq<Booking>, req: BookingRequest)
    ensures var v := Decide(pitches, bookings, req);
      && (v == Reject(Response(400, Error("All fields are required"))) <==> !HasAllFields(req))
      && (v == Reject(Response(400, Error("Invalid email format"))) <==>
            HasAllFields(req) && !MatchesPattern(req.customerEmail.value))
      && (v == Reject(Response(400, Error("End time must be after start time"))) <==>
            HasAllFields(req) && MatchesPattern(req.customerEmail.value)
            && !Less(req.startTime.value, req.endTime.value))
      && (v == Reject(Response(409, Error("Time slot is already booked"))) <==>
            HasAllFields(req) && MatchesPattern(req.customerEmail.value)
            && Less(req.startTime.value, req.endTime.value) && Conflicts(bookings, req) != [])
      && (v == Reject(Response(404, Error("Pitch not found"))) <==>
            HasAllFields(req) && MatchesPattern(req.customerEmail.value)
            && Less(req.startTime.value, req.endTime.value) && Conflicts(bookings, req) == []
            && GetPitchById(pitches, req.pitchId).None?)
      && (v.Admit? <==>
            HasAllFields(req) && MatchesPattern(req.customerEmail.value)
            && Less(req.startTime.value, req.endTime.value) && Conflicts(bookings, req) == []
            && GetPitchById(pitches, req.pitchId).Some?)
  {
  }

  /** The overlap guard comes before the pitch lookup: a conflicting request
      gets 409 whatever pitches exist, even when its pitch is unknown. */
  lemma ConflictReportedBeforeUnknownPitch(p1: seq<Pitch>, p2: seq<Pitch>, bookings: seq<Booking>,
                                           req: BookingRequest)
    requires HasAllFields(req) && IsValidEmail(req.customerEmail.value)
    requires Less(req.startTime.value, req.endTime.value) && Conflicts(bookings, req) != []
    ensures Decide(p1, bookings, req) == Decide(p2, bookings, req)
              == Reject(Response(409, Error("Time slot is already booked")))
  {
  }

  /** An admitted booking carries the request's fields, `parseInt(pitchId)`,
      which is the found pitch's id, and the price computed from that pitch's
      rate; the request has no say in the price. */
  lemma AdmittedDraft(pitches: seq<Pitch>, bookings: seq<Booking>, req: BookingRequest)
    requires Decide(pitches, bookings, req).Admit?
    ensures var d := Decide(pitches, bookings, req).draft;
      var pitch := GetPitchById(pitches, req.pitchId).value;
      && pitch in pitches
      && Some(d.pitchId) == ParseIntArg(req.pitchId) && d.pitchId == pitch.id
      && d.customerName == req.customerName.value && d.customerEmail == req.customerEmail.value
      && d.customerPhone == req.customerPhone.value && d.bookingDate == req.bookingDate.value
      && d.startTime == req.startTime.value && d.endTime == req.endTime.value
      && Less(d.startTime, d.endTime)
      && d.totalPrice == TotalPrice(d.startTime, d.endTime, pitch.pricePerHour)
  {
  }

  /** For times written `HH:MM` the admitted price is the slot's length in
      hours times the pitch's rate, and positive for a positive rate. */
  lemma AdmittedPrice(pitches: seq<Pitch>, bookings: seq<Booking>, req: BookingRequest,
                      d: BookingDraft, pitch: Pitch)
    requires Decide(pitches, bookings, req) == Admit(d) && GetPitchById(pitches, req.pitchId) == Some(pitch)
    requires IsClockTime(d.startTime) && IsClockTime(d.endTime)
    ensures var minutes := Minutes(d.endTime).value - Minutes(d.startTime).value;
      && minutes > 0
      && d.totalPrice == Amount(Charge(minutes, pitch.pricePerHour))
      && (pitch.pricePerHour > 0.0 ==> d.totalPrice.value > 0.0)
  {
    AdmittedDraft(pitches, bookings, req);
    PriceOfSlot(d.startTime, d.endTime, pitch.pricePerHour);
  }

  /** An admitted booking ends after it starts and, when the stored bookings
      are well formed, clashes with none of them. */
  lemma AdmittedIsFree(pitches: seq<Pitch>, bookings: seq<Booking>, req: BookingRequest,
                       id: int, createdAt: string)
    requires Decide(pitches, bookings, req).Admit?
    requires forall i :: 0 <= i < |bookings| ==> WellFormed(bookings[i])
    ensures var b := Decide(pitches, bookings, req).draft.WithId(id, createdAt);
      WellFormed(b) && forall i :: 0 <= i < |bookings| ==> !Clash(bookings[i], b)
  {
    var b := Decide(pitches, bookings, req).draft.WithId(id, createdAt);
    FreeIffNoIntersection(bookings, req.pitchId, b.bookingDate, b.startTime, b.endTime);
  }

  /** One POST /bookings on the document `doc`, stamped `createdAt` if it is
      created: `201` with the enriched booking, or the guard's refusal. */
  function Post(doc: Document, req: BookingRequest, createdAt: string): Outcome
  {
    match Decide(doc.pitches, doc.bookings, req)
    case Reject(response) => Outcome(response, doc)
    case Admit(draft) =>
      var b := draft.WithId(doc.nextBookingId, createdAt);
      Outcome(Response(201, Created(Enrich(b, doc.pitches))),
              doc.(bookings := doc.bookings + [b], nextBookingId := doc.nextBookingId + 1))
  }

  /** A refused POST writes nothing; an accepted one answers 201 and appends
      exactly one booking with the next id, leaving the rest alone. */
  lemma PostEffect(doc: Document, req: BookingRequest, createdAt: string)
    ensures var o := Post(doc, req, createdAt);
      && (o.response.status != 201 ==> o.after == doc)
      && (o.response.status == 201 <==> Decide(doc.pitches, doc.bookings, req).Admit?)
      && (o.response.status == 201 ==>
            && o.after.pitches == doc.pitches && o.after.nextPitchId == doc.nextPitchId
            && o.after.nextBookingId == doc.nextBookingId + 1
            && |o.after.bookings| == |doc.bookings| + 1
            && o.after.bookings[..|doc.bookings|] == doc.bookings
            && o.after.bookings[|doc.bookings|].id == doc.nextBookingId
            && o.after.bookings[|doc.bookings|]
                 == Decide(doc.pitches, doc.bookings, req).draft.WithId(doc.nextBookingId, createdAt)
            && Some(o.after.bookings[|doc.bookings|].pitchId) == ParseIntArg(req.pitchId)
            && o.after.bookings[|doc.bookings|].customerName == req.customerName.value
            && o.after.bookings[|doc.bookings|].customerEmail == req.customerEmail.value
            && o.after.bookings[|doc.bookings|].customerPhone == req.customerPhone.value
            && o.after.bookings[|doc.bookings|].bookingDate == req.bookingDate.value
            && o.after.bookings[|doc.bookings|].startTime == req.startTime.value
            && o.after.bookings[|doc.bookings|].endTime == req.endTime.value
            && o.after.bookings[|doc.bookings|].totalPrice
                 == TotalPrice(req.startTime.value, req.endTime.value,
                               GetPitchById(doc.pitches, req.pitchId).value.pricePerHour)
            && o.after.bookings[|doc.bookings|].createdAt == createdAt
            && o.response.body == Created(Enrich(o.after.bookings[|doc.bookings|], doc.pitches)))
  {
    var o := Post(doc, req, createdAt);
    if o.response.status == 201 {
      assert o.after.bookings[..|doc.bookings|] == doc.bookings;
      AdmittedDraft(doc.pitches, doc.bookings, req);
    }
  }

  /** POST /bookings keeps the schedule: bookings of one pitch and date never
      overlap and every booking ends after it starts. */
  lemma PostKeepsSchedule(doc: Document, req: BookingRequest, createdAt: string)
    requires Scheduled(doc.bookings)
    ensures Scheduled(Post(doc, req, createdAt).after.bookings)
  {
    if Decide(doc.pitches, doc.bookings, req).Admit? {
      var b := Decide(doc.pitches, doc.bookings, req).draft.WithId(doc.nextBookingId, createdAt);
      AdmittedIsFree(doc.pitches, doc.bookings, req, doc.nextBookingId, createdAt);
      AppendKeepsSchedule(doc.bookings, b);
    }
  }

  /** POST /bookings never reuses a booking id. */
  lemma PostKeepsIdsFresh(doc: Document, req: BookingRequest, createdAt: string)
    requires IdsFresh(doc.bookings, doc.nextBookingId)
    ensures var after := Post(doc, req, createdAt).after;
      IdsFresh(after.bookings, after.nextBookingId) && after.nextBookingId >= doc.nextBookingId
  {
    if Decide(doc.pitches, doc.bookings, req).Admit? {
      var b := Decide(doc.pitches, doc.bookings, req).draft.WithId(doc.nextBookingId, createdAt);
      AppendKeepsIdsFresh(doc.bookings, doc.nextBookingId, b);
    }
  }

  /** The handler body on the store: the guards, then `createBooking` when
      they all pass. */
  method PostBooking(store: Store, req: BookingRequest, createdAt: string) returns (response: Response)
    modifies store
    ensures Outcome(response, store.Contents()) == Post(old(store.Contents()), req, createdAt)
  {
    var verdict := Decide(store.pitches, store.bookings, req);
    match verdict
    case Reject(refusal) =>
      response := refusal;
    case Admit(draft) =>
      var booking := store.CreateBooking(draft, createdAt);
      response := Response(201, Created(booking));
  }
}
