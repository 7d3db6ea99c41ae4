/**
 * The life of one booking, end to end: a client books a consultation, pays for it by card,
 * the advocate marks it completed, and the client reviews it once and then tries again.
 */
module Scenario {
  import opened Common
  import Accounts
  import opened Advocates
  import opened BookingModels
  import opened BookingForms
  import opened Database
  import PaymentModels
  import ReviewAggregates
  import BookingViews
  import PaymentViews

  const client := Accounts.User(1, "client", "Asha", "Rao", Accounts.Client)
  const lawyer := Accounts.User(2, "lawyer", "Vikram", "Mehta", Accounts.Advocate)

  /** A fresh database in which the client has booked the advocate for 2025-06-01 at 10:00. */
  method Book() returns (s: Store, advocateId: AdvocateId, bookingId: BookingId)
    ensures fresh(s)
    ensures s.Valid() && s.reviews == [] && s.payments == map[]
    ensures advocateId in s.advocates && s.advocates[advocateId].user == lawyer.id
    ensures bookingId in s.bookings
    ensures s.bookings[bookingId].client == client.id && s.bookings[bookingId].advocate == advocateId
    ensures s.bookings[bookingId].totalFee == 10000
    ensures s.bookings[bookingId].status == Pending && s.bookings[bookingId].paymentStatus == Unpaid
  {
    s := new Store();
    var res;
    res, advocateId := s.AddAdvocate(lawyer.id, "MH/1234/2010", SixToTen, 10000, 25000, "English, Hindi", true);
    assert res == Ok;
    var form := BookingForm(Consultation, 739403, 36000, 60, "Property dispute", "Civil", Normal);
    res, bookingId := BookingViews.CreateBooking(s, client, advocateId, form, 739391);
    assert res == Ok;
  }

  /** The client pays by card and the charge goes through. */
  method Pay(s: Store, advocateId: AdvocateId, bookingId: BookingId)
    requires s.Valid() && s.reviews == [] && s.payments == map[]
    requires bookingId in s.bookings && s.bookings[bookingId].client == client.id
    modifies s`payments, s`bookings, s`nextPaymentId
    ensures s.Valid() && s.reviews == [] && s.advocates == old(s.advocates)
    ensures bookingId in s.bookings && s.bookings[bookingId].client == client.id
    ensures s.bookings[bookingId].advocate == old(s.bookings)[bookingId].advocate
    ensures s.bookings[bookingId].status == Confirmed && s.bookings[bookingId].paymentStatus == Paid
  {
    var res, paymentId := PaymentViews.ProcessPayment(s, client, bookingId, "card", "txn-1", 0, PaymentViews.Charged);
    assert res == Ok;
  }

  /** The advocate marks the booking completed. */
  method Complete(s: Store, advocateId: AdvocateId, bookingId: BookingId)
    requires s.Valid() && s.reviews == []
    requires advocateId in s.advocates && s.advocates[advocateId].user == lawyer.id
    requires bookingId in s.bookings && s.bookings[bookingId].advocate == advocateId
    modifies s`bookings
    ensures s.Valid() && s.reviews == [] && s.advocates == old(s.advocates)
    ensures bookingId in s.bookings && s.bookings[bookingId].status == Completed
    ensures s.bookings[bookingId].client == old(s.bookings)[bookingId].client
    ensures s.bookings[bookingId].advocate == advocateId
  {
    assert ParseStatus("completed") == Some(Completed);
    var res := BookingViews.UpdateBookingStatus(s, lawyer, bookingId, Some("completed"), None);
    assert res == Ok;
  }

  /** The client reviews the completed booking with a 4. */
  method Review(s: Store, advocateId: AdvocateId, bookingId: BookingId) returns (rating: real, totalReviews: int)
    requires s.Valid() && s.reviews == []
    requires bookingId in s.bookings && s.bookings[bookingId].client == client.id
    requires s.bookings[bookingId].status == Completed && s.bookings[bookingId].advocate == advocateId
    modifies s`reviews, s`advocates
    ensures s.Valid() && s.bookings == old(s.bookings)
    ensures |s.reviews| == 1 && s.reviews[0].booking == bookingId
    ensures rating == 4.0 && totalReviews == 1
  {
    var review := ReviewForm(4, "Clear advice", 5, 4, 4);
    var res := BookingViews.CreateReview(s, client, bookingId, review);
    assert res == Ok;
    var saved := SaveReviewForm(review, bookingId, advocateId, client.id);
    assert s.reviews == [saved];
    ReviewAggregates.RatingsOfAppend([], saved, advocateId);
    ReviewAggregates.MeanSingle(4);
    rating := s.advocates[advocateId].rating;
    totalReviews := s.advocates[advocateId].totalReviews;
  }

  /** The client tries to review the same booking again. */
  method ReviewAgain(s: Store, bookingId: BookingId) returns (second: Outcome)
    requires s.Valid() && |s.reviews| > 0 && s.reviews[0].booking == bookingId
    requires bookingId in s.bookings && s.bookings[bookingId].client == client.id
    requires s.bookings[bookingId].status == Completed
    modifies s`reviews, s`advocates
    ensures second == AlreadyExists
  {
    assert HasReview(s.reviews, bookingId);
    second := BookingViews.CreateReview(s, client, bookingId, ReviewForm(5, "Again", 5, 5, 5));
  }

  /**
   * A consultation on 2025-06-01 at 10:00 with an advocate charging 100.00 starts pending and
   * unpaid; a successful card payment confirms it and marks it paid; after the advocate
   * completes it, a review of 4 sets the advocate's rating to 4 over one review, and a
   * second review of the same booking is refused.
   */
  method BookPayReview()
    returns (fee: Money, afterBooking: (Status, PaymentStatus), afterPayment: (Status, PaymentStatus),
             rating: real, totalReviews: int, second: Outcome)
    ensures fee == 10000
    ensures afterBooking == (Pending, Unpaid)
    ensures afterPayment == (Confirmed, Paid)
    ensures rating == 4.0 && totalReviews == 1
    ensures second == AlreadyExists
  {
    var s, advocateId, bookingId := Book();
    fee := s.bookings[bookingId].totalFee;
    afterBooking := (s.bookings[bookingId].status, s.bookings[bookingId].paymentStatus);
    Pay(s, advocateId, bookingId);
    afterPayment := (s.bookings[bookingId].status, s.bookings[bookingId].paymentStatus);
    Complete(s, advocateId, bookingId);
    rating, totalReviews := Review(s, advocateId, bookingId);
    second := ReviewAgain(s, bookingId);
  }

  /**
   * Asking twice for a refund of the same payment: once the first request is granted, the
   * second is refused as not eligible and the refund stays the full amount, recorded once.
   */
  method RefundTwice(s: Store, requester: Accounts.User, paymentId: PaymentModels.PaymentId,
                     reason: Option<string>, now: Timestamp, later: Timestamp)
    returns (first: Outcome, second: Outcome)
    requires s.Valid()
    modifies s`payments, s`bookings
    ensures s.Valid()
    ensures first == Ok ==> second == InvalidState
    ensures first == Ok ==>
      && paymentId in old(s.payments) && paymentId in s.payments
      && s.payments[paymentId].status == PaymentModels.Refunded
      && s.payments[paymentId].refundAmount == Some(old(s.payments)[paymentId].amount)
      && s.payments[paymentId].refundDate == Some(now)
  {
    first := PaymentViews.RequestRefund(s, requester, paymentId, reason, now);
    second := PaymentViews.RequestRefund(s, requester, paymentId, reason, later);
  }
}
