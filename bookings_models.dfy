/** Bookings and reviews (bookings/models.py): enums, defaults and table constraints. */
module BookingModels {
  import opened Common
  import Accounts
  import Advocates

  type BookingId = nat

  /** `Booking.STATUS_CHOICES`. */
  datatype Status = Pending | Confirmed | Completed | Cancelled | Rescheduled

  /** The stored value of each status choice. */
  function StatusName(st: Status): string {
    match st
    case Pending => "pending"
    case Confirmed => "confirmed"
    case Completed => "completed"
    case Cancelled => "cancelled"
    case Rescheduled => "rescheduled"
  }

  /** Membership in `dict(Booking.STATUS_CHOICES)`: the status a posted value names, if any. */
  function ParseStatus(s: string): (r: Option<Status>)
    ensures r.Some? ==> StatusName(r.value) == s
  {
    if s == "pending" then Some(Pending)
    else if s == "confirmed" then Some(Confirmed)
    else if s == "completed" then Some(Completed)
    else if s == "cancelled" then Some(Cancelled)
    else if s == "rescheduled" then Some(Rescheduled)
    else None
  }

  /** Every status choice is recognised by its own stored value. */
  lemma ParseStatusName(st: Status)
    ensures ParseStatus(StatusName(st)) == Some(st)
  {
  }

  /** `Booking.SERVICE_TYPE_CHOICES`. */
  datatype ServiceType = Consultation | CourtAppearance | DocumentReview | LegalAdvice

  /** `Booking.PAYMENT_STATUS_CHOICES`; `Unpaid` is the choice stored as `pending`. */
  datatype PaymentStatus = Unpaid | Paid | Refunded

  /** `Booking.PRIORITY_CHOICES`. */
  datatype Priority = Normal | Urgent

  /** The columns of a booking; `totalFee` is in hundredths. */
  datatype Booking = Booking(
    client: Accounts.UserId,
    advocate: Advocates.AdvocateId,
    serviceType: ServiceType,
    date: Date,
    time: Time,
    duration: int,
    status: Status,
    caseDescription: string,
    caseType: string,
    priority: Priority,
    totalFee: Money,
    paymentStatus: PaymentStatus,
    meetingLink: Option<string>,
    notes: string,
    cancellationReason: string)

  /** The key of `unique_together = ['advocate', 'booking_date', 'booking_time']`. */
  function Slot(b: Booking): (Advocates.AdvocateId, Date, Time) {
    (b.advocate, b.date, b.time)
  }

  /** Some booking, whatever its status, already holds the slot. */
  predicate SlotTaken(bookings: map<BookingId, Booking>, advocate: Advocates.AdvocateId, date: Date, time: Time) {
    exists id :: id in bookings && Slot(bookings[id]) == (advocate, date, time)
  }

  /** No two bookings share a slot; cancelled bookings keep theirs. */
  ghost predicate UniqueSlots(bookings: map<BookingId, Booking>) {
    forall i, j :: i in bookings && j in bookings && i != j ==> Slot(bookings[i]) != Slot(bookings[j])
  }

  /** Rewriting a booking without moving it to another slot keeps every slot unique. */
  lemma ResaveSameSlot(bookings: map<BookingId, Booking>, id: BookingId, b: Booking)
    requires UniqueSlots(bookings) && id in bookings && Slot(b) == Slot(bookings[id])
    ensures UniqueSlots(bookings[id := b])
  {
    var m := bookings[id := b];
    forall i, j | i in m && j in m && i != j ensures Slot(m[i]) != Slot(m[j]) {
      assert Slot(m[i]) == Slot(bookings[i]) && Slot(m[j]) == Slot(bookings[j]);
    }
  }

  /** Adding a booking on a free slot keeps every slot unique. */
  lemma InsertFreeSlot(bookings: map<BookingId, Booking>, id: BookingId, b: Booking)
    requires UniqueSlots(bookings) && id !in bookings
    requires !SlotTaken(bookings, b.advocate, b.date, b.time)
    ensures UniqueSlots(bookings[id := b])
  {
    var m := bookings[id := b];
    forall i, j | i in m && j in m && i != j ensures Slot(m[i]) != Slot(m[j]) {
      if i == id {
        assert Slot(bookings[j]) != (b.advocate, b.date, b.time);
      } else if j == id {
        assert Slot(bookings[i]) != (b.advocate, b.date, b.time);
      }
    }
  }

  /** The range of the score validators. */
  predicate InScoreRange(x: int) {
    1 <= x <= 5
  }

  /** One row of the review table. */
  datatype Review = Review(
    booking: BookingId,
    advocate: Advocates.AdvocateId,
    client: Accounts.UserId,
    rating: int,
    comment: string,
    professionalism: int,
    communication: int,
    expertise: int,
    isVerified: bool)

  /** All four scores of a review lie in 1..5. */
  predicate ValidScores(r: Review) {
    InScoreRange(r.rating) && InScoreRange(r.professionalism) &&
    InScoreRange(r.communication) && InScoreRange(r.expertise)
  }

  /** `hasattr(booking, 'review')`: some review row refers to the booking. */
  predicate HasReview(reviews: seq<Review>, b: BookingId) {
    exists i :: 0 <= i < |reviews| && reviews[i].booking == b
  }

  /** The one-to-one field `Review.booking`: no booking is referred to twice. */
  ghost predicate OneReviewPerBooking(reviews: seq<Review>) {
    forall i, j :: 0 <= i < j < |reviews| ==> reviews[i].booking != reviews[j].booking
  }

  /** The reviews that refer to booking `b`, in table order. */
  function ReviewsOf(reviews: seq<Review>, b: BookingId): seq<Review> {
    if |reviews| == 0 then []
    else ReviewsOf(reviews[..|reviews| - 1], b) +
         (if reviews[|reviews| - 1].booking == b then [reviews[|reviews| - 1]] else [])
  }

  /** `ReviewsOf` is empty exactly when no row refers to the booking. */
  lemma {:induction false} ReviewsOfEmpty(reviews: seq<Review>, b: BookingId)
    ensures ReviewsOf(reviews, b) == [] <==> !HasReview(reviews, b)
    decreases |reviews|
  {
    if |reviews| > 0 {
      var init := reviews[..|reviews| - 1];
      ReviewsOfEmpty(init, b);
      if HasReview(init, b) {
        var i :| 0 <= i < |init| && init[i].booking == b;
        assert reviews[i].booking == b;
      }
      if HasReview(reviews, b) && reviews[|reviews| - 1].booking != b {
        var i :| 0 <= i < |reviews| && reviews[i].booking == b;
        assert init[i].booking == b;
      }
    }
  }

  /** Under the one-to-one constraint a booking has at most one review. */
  lemma {:induction false} AtMostOneReview(reviews: seq<Review>, b: BookingId)
    requires OneReviewPerBooking(reviews)
    ensures |ReviewsOf(reviews, b)| <= 1
    decreases |reviews|
  {
    if |reviews| > 0 {
      var init := reviews[..|reviews| - 1];
      assert OneReviewPerBooking(init) by {
        forall i, j | 0 <= i < j < |init| ensures init[i].booking != init[j].booking {
          assert init[i] == reviews[i] && init[j] == reviews[j];
        }
      }
      AtMostOneReview(init, b);
      if reviews[|reviews| - 1].booking == b {
        ReviewsOfEmpty(init, b);
      }
    }
  }
}
