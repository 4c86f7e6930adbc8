/** The records of the store document: pitches, bookings, and the booking
    as the listing endpoints and POST /bookings return it. */
module Entities {

  /** A pitch as the seed lists it, before `createPitch` gives it an id. */
  datatype PitchData = PitchData(name: string, location: string, pricePerHour: real,
                                 imageUrl: string, description: string)
  {
    /** `{ id, ...pitch }`. */
    function WithId(id: int): Pitch
    {
      Pitch(id, name, location, pricePerHour, imageUrl, description)
    }
  }

  /** `{ id, name, location, price_per_hour, image_url, description }`. */
  datatype Pitch = Pitch(id: int, name: string, location: string, pricePerHour: real,
                         imageUrl: string, description: string)

  /** A JavaScript number computed from dates: a real amount, or `NaN` when a
      date did not parse. */
  datatype Price = Amount(value: real) | NotANumber

  /** The object POST /bookings hands to `createBooking`. */
  datatype BookingDraft = BookingDraft(pitchId: int, customerName: string, customerEmail: string,
                                       customerPhone: string, bookingDate: string,
                                       startTime: string, endTime: string, totalPrice: Price)
  {
    /** `{ id, ...booking, created_at }`. */
    function WithId(id: int, createdAt: string): Booking
    {
      Booking(id, pitchId, customerName, customerEmail, customerPhone, bookingDate,
              startTime, endTime, totalPrice, createdAt)
    }
  }

  /** A stored booking: `{ id, pitch_id, customer_name, customer_email,
      customer_phone, booking_date, start_time, end_time, total_price, created_at }`. */
  datatype Booking = Booking(id: int, pitchId: int, customerName: string, customerEmail: string,
                             customerPhone: string, bookingDate: string, startTime: string,
                             endTime: string, totalPrice: Price, createdAt: string)

  /** A booking with `pitch_name` and `pitch_location` added. */
  datatype EnrichedBooking = EnrichedBooking(booking: Booking, pitchName: string, pitchLocation: string)

  /** The whole store document of `database.json`. */
  datatype Document = Document(pitches: seq<Pitch>, bookings: seq<Booking>,
                               nextPitchId: nat, nextBookingId: nat)
}
