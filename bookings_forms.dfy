/** The booking and review forms (bookings/forms.py): what a client may set, and the date check. */
module BookingForms {
  import opened Common
  import Accounts
  import Advocates
  import opened BookingModels

  /** The cleaned data of `BookingForm`: exactly the seven fields it exposes. */
  datatype BookingForm = BookingForm(
    serviceType: ServiceType,
    date: Date,
    time: Time,
    duration: int,
    caseDescription: string,
    caseType: string,
    priority: Priority)

  /** `clean_booking_date`: a date before today is refused (None); any other is returned as is. */
  function CleanBookingDate(date: Date, today: Date): (r: Option<Date>)
    ensures r.Some? <==> today <= date
    ensures r.Some? ==> r.value == date
  {
    if date < today then None else Some(date)
  }

  /**
   * `form.save(commit=False)` followed by the view's assignments: the form's fields, the given
   * client, advocate and fee, and the model defaults for every column the form does not expose.
   */
  function SaveBookingForm(f: BookingForm, client: Accounts.UserId, advocate: Advocates.AdvocateId, fee: Money): (b: Booking)
    ensures b.client == client && b.advocate == advocate && b.totalFee == fee
    ensures b.status == Pending && b.paymentStatus == Unpaid
    ensures b.serviceType == f.serviceType && Slot(b) == (advocate, f.date, f.time)
    ensures b.duration == f.duration && b.priority == f.priority
    ensures b.caseDescription == f.caseDescription && b.caseType == f.caseType
    ensures b.meetingLink == None && b.notes == "" && b.cancellationReason == ""
  {
    Booking(client, advocate, f.serviceType, f.date, f.time, f.duration, Pending,
            f.caseDescription, f.caseType, f.priority, fee, Unpaid, None, "", "")
  }

  /** The cleaned data of `ReviewForm`: the four scores and the comment, nothing else. */
  datatype ReviewForm = ReviewForm(rating: int, comment: string, professionalism: int, communication: int, expertise: int)

  /** The model validators the form runs: every score in 1..5. */
  predicate ReviewFormValid(f: ReviewForm) {
    InScoreRange(f.rating) && InScoreRange(f.professionalism) &&
    InScoreRange(f.communication) && InScoreRange(f.expertise)
  }

  /** `form.save(commit=False)` followed by the view's assignments of booking, advocate and client. */
  function SaveReviewForm(f: ReviewForm, booking: BookingId, advocate: Advocates.AdvocateId, client: Accounts.UserId): (r: Review)
    ensures r.booking == booking && r.advocate == advocate && r.client == client
    ensures r.rating == f.rating && r.comment == f.comment
    ensures r.professionalism == f.professionalism && r.communication == f.communication && r.expertise == f.expertise
    ensures !r.isVerified
    ensures ValidScores(r) <==> ReviewFormValid(f)
  {
    Review(booking, advocate, client, f.rating, f.comment, f.professionalism, f.communication, f.expertise, false)
  }
}
