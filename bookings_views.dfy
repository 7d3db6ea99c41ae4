/**
 * The POST branches of the booking views (bookings/views.py). Each view's redirect and flash
 * message become the returned `Outcome`; `get_object_or_404` becomes `NotFound`.
 */
module BookingViews {
  import opened Common
  import Accounts
  import opened Advocates
  import opened BookingModels
  import opened BookingForms
  import opened ReviewAggregates
  import opened Database

  /**
   * The fee a booking is charged: the court-appearance fee for a court appearance, the
   * consultation fee for a consultation and, as the fallback, for every other service type.
   */
  function BookingFee(a: Advocate, st: ServiceType): (fee: Money)
    ensures st == CourtAppearance ==> fee == a.courtAppearanceFee
    ensures st != CourtAppearance ==> fee == a.consultationFee
    ensures ValidAdvocate(a) ==> fee >= 0
  {
    if st == Consultation then a.consultationFee
    else if st == CourtAppearance then a.courtAppearanceFee
    else a.consultationFee
  }

  /**
   * `create_booking`: the advocate must exist, the date must not be in the past, and the slot
   * must be free (the unique constraint, which cancelled bookings still hold). The new booking
   * belongs to the requester, is charged by service type, and starts pending and unpaid.
   */
  method CreateBooking(s: Store, requester: Accounts.User, advocateId: AdvocateId, form: BookingForm, today: Date)
    returns (res: Outcome, id: BookingId)
    requires s.Valid()
    modifies s`bookings, s`nextBookingId
    ensures s.Valid()
    ensures res == NotFound <==> advocateId !in s.advocates
    ensures res == Invalid <==> advocateId in s.advocates && CleanBookingDate(form.date, today).None?
    ensures res == Conflict <==> advocateId in s.advocates && CleanBookingDate(form.date, today).Some? &&
                                 SlotTaken(old(s.bookings), advocateId, form.date, form.time)
    ensures res in {Ok, NotFound, Invalid, Conflict}
    ensures res != Ok ==> unchanged(s)
    ensures res == Ok ==> id !in old(s.bookings)
    ensures res == Ok ==>
      s.bookings == old(s.bookings)[id := SaveBookingForm(form, requester.id, advocateId,
                                                          BookingFee(s.advocates[advocateId], form.serviceType))]
  {
    id := 0;
    if advocateId !in s.advocates {
      res := NotFound;
      return;
    }
    var date := CleanBookingDate(form.date, today);
    if date.None? {
      res := Invalid;
      return;
    }
    if SlotTaken(s.bookings, advocateId, form.date, form.time) {
      res := Conflict;
      return;
    }
    id := s.InsertBooking(SaveBookingForm(form, requester.id, advocateId, BookingFee(s.advocates[advocateId], form.serviceType)));
    res := Ok;
  }

  /**
   * `cancel_booking`: only the booking's client may cancel, and not once it is completed or
   * cancelled. Cancelling sets the status and the posted reason (empty when absent) and
   * nothing else; the slot stays taken.
   */
  method CancelBooking(s: Store, requester: Accounts.User, bookingId: BookingId, reason: Option<string>)
    returns (res: Outcome)
    requires s.Valid()
    modifies s`bookings
    ensures s.Valid()
    ensures res == NotFound <==> bookingId !in old(s.bookings)
    ensures res == Unauthorized <==> bookingId in old(s.bookings) && old(s.bookings)[bookingId].client != requester.id
    ensures res == InvalidState <==>
      bookingId in old(s.bookings) && old(s.bookings)[bookingId].client == requester.id &&
      old(s.bookings)[bookingId].status in {Completed, Cancelled}
    ensures res in {Ok, NotFound, Unauthorized, InvalidState}
    ensures res != Ok ==> unchanged(s)
    ensures res == Ok ==>
      s.bookings == old(s.bookings)[bookingId := old(s.bookings)[bookingId].(status := Cancelled, cancellationReason := reason.GetOr(""))]
  {
    if bookingId !in s.bookings {
      return NotFound;
    }
    var booking := s.bookings[bookingId];
    if booking.client != requester.id {
      return Unauthorized;
    }
    if booking.status in {Completed, Cancelled} {
      return InvalidState;
    }
    s.SaveBooking(bookingId, booking.(status := Cancelled, cancellationReason := reason.GetOr("")));
    res := Ok;
  }

  /**
   * `create_review`: only the client of a completed booking may review it, and only once. The
   * review is stored unverified, then the advocate's `rating` and `total_reviews` are
   * recomputed from all of its reviews. Both failures of the first guard share one redirect;
   * they are told apart here as `Unauthorized` and `InvalidState`.
   */
  method CreateReview(s: Store, requester: Accounts.User, bookingId: BookingId, form: ReviewForm)
    returns (res: Outcome)
    requires s.Valid()
    modifies s`reviews, s`advocates
    ensures s.Valid()
    ensures res == NotFound <==> bookingId !in old(s.bookings)
    ensures res == Unauthorized <==> bookingId in s.bookings && s.bookings[bookingId].client != requester.id
    ensures res == InvalidState <==>
      bookingId in s.bookings && s.bookings[bookingId].client == requester.id && s.bookings[bookingId].status != Completed
    ensures res == AlreadyExists <==>
      bookingId in s.bookings && s.bookings[bookingId].client == requester.id && s.bookings[bookingId].status == Completed &&
      HasReview(old(s.reviews), bookingId)
    ensures res == Invalid <==>
      bookingId in s.bookings && s.bookings[bookingId].client == requester.id && s.bookings[bookingId].status == Completed &&
      !HasReview(old(s.reviews), bookingId) && !ReviewFormValid(form)
    ensures res in {Ok, NotFound, Unauthorized, InvalidState, AlreadyExists, Invalid}
    ensures res != Ok ==> unchanged(s)
    ensures res == Ok ==>
      var a := s.bookings[bookingId].advocate;
      && s.reviews == old(s.reviews) + [SaveReviewForm(form, bookingId, a, requester.id)]
      && a in old(s.advocates)
      && s.advocates == old(s.advocates)[a := old(s.advocates)[a].(rating := Mean(RatingsOf(s.reviews, a)),
                                                                   totalReviews := |RatingsOf(s.reviews, a)|)]
  {
    if bookingId !in s.bookings {
      return NotFound;
    }
    var booking := s.bookings[bookingId];
    if booking.client != requester.id {
      return Unauthorized;
    }
    if booking.status != Completed {
      return InvalidState;
    }
    if HasReview(s.reviews, bookingId) {
      return AlreadyExists;
    }
    if !ReviewFormValid(form) {
      return Invalid;
    }
    var review := SaveReviewForm(form, bookingId, booking.advocate, requester.id);
    AddReviewPreserves(s.Snapshot(), review);
    s.reviews := s.reviews + [review];
    var ratings := RatingsOf(s.reviews, booking.advocate);
    s.advocates := s.advocates[booking.advocate := s.advocates[booking.advocate].(rating := Mean(ratings), totalReviews := |ratings|)];
    res := Ok;
  }

  /**
   * `update_booking_status`: only a user of advocate type who owns the booking's advocate
   * profile may update it. A posted status outside the choices (or none) changes nothing;
   * any listed status is taken from any current one, and the notes keep their old value
   * when none are posted.
   */
  method UpdateBookingStatus(s: Store, requester: Accounts.User, bookingId: BookingId,
                             newStatus: Option<string>, notes: Option<string>)
    returns (res: Outcome)
    requires s.Valid()
    modifies s`bookings
    ensures s.Valid()
    ensures res == NotFound <==> bookingId !in old(s.bookings)
    ensures res == Unauthorized <==>
      bookingId in old(s.bookings) &&
      (!requester.userType.Advocate? || s.advocates[old(s.bookings)[bookingId].advocate].user != requester.id)
    ensures res == Invalid <==>
      bookingId in old(s.bookings) &&
      requester.userType.Advocate? && s.advocates[old(s.bookings)[bookingId].advocate].user == requester.id &&
      (newStatus.None? || ParseStatus(newStatus.value).None?)
    ensures res in {Ok, NotFound, Unauthorized, Invalid}
    ensures res != Ok ==> unchanged(s)
    ensures res == Ok ==>
      newStatus.Some? && ParseStatus(newStatus.value).Some? &&
      var b := old(s.bookings)[bookingId];
      s.bookings == old(s.bookings)[bookingId := b.(status := ParseStatus(newStatus.value).value, notes := notes.GetOr(b.notes))]
  {
    if bookingId !in s.bookings {
      return NotFound;
    }
    var booking := s.bookings[bookingId];
    assert BookingsOk(s.Snapshot());
    if !requester.userType.Advocate? || s.advocates[booking.advocate].user != requester.id {
      return Unauthorized;
    }
    if newStatus.None? {
      return Invalid;
    }
    var status := ParseStatus(newStatus.value);
    if status.None? {
      return Invalid;
    }
    s.SaveBooking(bookingId, booking.(status := status.value, notes := notes.GetOr(booking.notes)));
    res := Ok;
  }
}
