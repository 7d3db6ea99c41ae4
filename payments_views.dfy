/**
 * The POST branches of the payment views (payments/views.py). The payment gateway is the
 * `Charge` parameter; the fresh `uuid4()` transaction id and `timezone.now()` are parameters too.
 */
module PaymentViews {
  import opened Common
  import Accounts
  import opened BookingModels
  import P = PaymentModels
  import opened Database

  /**
   * How the `try` block of `process_payment` ends: it runs through, or an exception (its
   * text is `detail`) is raised by one of its saves, after the date has been stamped.
   */
  datatype Charge = Charged | Declined(detail: string)

  /**
   * The `try`/`except` of `process_payment`: the payment date is stamped first; a run
   * that goes through completes the payment, and one that raises marks it failed and
   * records the error text. Amount, booking, method, transaction id and refund columns
   * are never touched.
   */
  function Settle(p: P.Payment, charge: Charge, now: Timestamp): (r: P.Payment)
    ensures r.status == (if charge.Charged? then P.Completed else P.Failed)
    ensures r.paymentDate == Some(now)
    ensures r.notes == (if charge.Declined? then charge.detail else p.notes)
    ensures r.booking == p.booking && r.amount == p.amount && r.paymentMethod == p.paymentMethod
    ensures r.transactionId == p.transactionId
    ensures r.refundDate == p.refundDate && r.refundAmount == p.refundAmount
  {
    match charge
    case Charged => p.(status := P.Completed, paymentDate := Some(now))
    case Declined(detail) => p.(status := P.Failed, paymentDate := Some(now), notes := detail)
  }

  /**
   * `initiate_payment`: only the booking's client may start paying, and not for a booking
   * that is already paid. Nothing is written.
   */
  method InitiatePayment(s: Store, requester: Accounts.User, bookingId: BookingId) returns (res: Outcome)
    ensures res == NotFound <==> bookingId !in s.bookings
    ensures res == Unauthorized <==> bookingId in s.bookings && s.bookings[bookingId].client != requester.id
    ensures res == InvalidState <==>
      bookingId in s.bookings && s.bookings[bookingId].client == requester.id && s.bookings[bookingId].paymentStatus == Paid
    ensures res == Ok <==>
      bookingId in s.bookings && s.bookings[bookingId].client == requester.id && s.bookings[bookingId].paymentStatus != Paid
  {
    if bookingId !in s.bookings {
      return NotFound;
    }
    var booking := s.bookings[bookingId];
    if booking.client != requester.id {
      return Unauthorized;
    }
    if booking.paymentStatus == Paid {
      return InvalidState;
    }
    res := Ok;
  }

  /** The row `get_or_create` would insert for a booking that has no payment yet. */
  function FreshPayment(b: Booking, bookingId: BookingId, paymentMethod: string, transactionId: string): (p: P.Payment)
    ensures p.booking == bookingId && p.amount == b.totalFee && p.status == P.Processing
    ensures p.paymentMethod == paymentMethod && p.transactionId == transactionId
    ensures p.paymentDate == None && p.refundDate == None && p.refundAmount == None
  {
    P.NewPayment(bookingId, b.totalFee, paymentMethod, transactionId, P.Processing)
  }

  /**
   * `Payment.objects.get_or_create(booking=...)`: the booking's payment when it has one;
   * otherwise a new row from the defaults, refused (`created` is None) when the
   * transaction id is already taken.
   */
  method GetOrCreatePayment(s: Store, bookingId: BookingId, paymentMethod: string, transactionId: string)
    returns (ok: bool, pid: P.PaymentId)
    requires s.Valid() && bookingId in s.bookings
    modifies s`payments, s`nextPaymentId
    ensures s.Valid()
    ensures ok <==> P.HasPayment(old(s.payments), bookingId) || !P.TransactionIdUsed(old(s.payments), transactionId)
    ensures !ok ==> unchanged(s)
    ensures ok && P.HasPayment(old(s.payments), bookingId) ==>
      pid in old(s.payments) && old(s.payments)[pid].booking == bookingId && unchanged(s)
    ensures ok && !P.HasPayment(old(s.payments), bookingId) ==>
      pid !in old(s.payments) &&
      s.payments == old(s.payments)[pid := FreshPayment(s.bookings[bookingId], bookingId, paymentMethod, transactionId)]
  {
    pid := 0;
    if P.HasPayment(s.payments, bookingId) {
      pid :| pid in s.payments && s.payments[pid].booking == bookingId;
      return true, pid;
    }
    if P.TransactionIdUsed(s.payments, transactionId) {
      return false, pid;
    }
    pid := s.InsertPayment(FreshPayment(s.bookings[bookingId], bookingId, paymentMethod, transactionId));
    ok := true;
  }

  /**
   * The payment half of `process_payment`: get or create the booking's payment, then record
   * the gateway's answer on it. `ok` is false only when a new row would reuse a taken
   * transaction id, and then nothing changes.
   */
  method ChargeBooking(s: Store, bookingId: BookingId, paymentMethod: string, transactionId: string,
                       now: Timestamp, charge: Charge)
    returns (ok: bool, pid: P.PaymentId)
    requires s.Valid() && bookingId in s.bookings
    modifies s`payments, s`nextPaymentId
    ensures s.Valid()
    ensures ok <==> P.HasPayment(old(s.payments), bookingId) || !P.TransactionIdUsed(old(s.payments), transactionId)
    ensures !ok ==> unchanged(s)
    ensures ok ==>
      && (pid in old(s.payments) <==> P.HasPayment(old(s.payments), bookingId))
      && (pid in old(s.payments) ==> old(s.payments)[pid].booking == bookingId)
      && s.payments == old(s.payments)[pid := Settle(PaymentBefore(old(s.payments), s.bookings[bookingId], bookingId, pid,
                                                                   paymentMethod, transactionId), charge, now)]
  {
    ok, pid := GetOrCreatePayment(s, bookingId, paymentMethod, transactionId);
    if !ok {
      return;
    }
    ghost var payments0 := old(s.payments);
    ghost var before := PaymentBefore(payments0, s.bookings[bookingId], bookingId, pid, paymentMethod, transactionId);
    ghost var created := s.payments;
    assert created[pid] == before;
    var settled := Settle(s.payments[pid], charge, now);
    s.SavePayment(pid, settled);
    if pid !in payments0 {
      UpdateTwice(payments0, pid, before, settled);
    }
  }

  /** The row `process_payment` settles: the existing payment `pid`, or the one it creates. */
  function PaymentBefore(payments: map<P.PaymentId, P.Payment>, b: Booking, bookingId: BookingId, pid: P.PaymentId,
                         paymentMethod: string, transactionId: string): (r: P.Payment)
    ensures pid in payments ==> r == payments[pid]
    ensures pid !in payments ==> r.status == P.Processing && r.amount == b.totalFee && r.booking == bookingId
  {
    if pid in payments then payments[pid] else FreshPayment(b, bookingId, paymentMethod, transactionId)
  }

  /**
   * `process_payment`: only the booking's client may pay. The booking's one payment is fetched,
   * or created with the booking's fee, the posted method, a fresh transaction id and status
   * processing (refused when that id is already taken). An existing payment keeps its amount.
   * A successful charge then completes the payment and confirms and marks paid the booking,
   * whatever either's state was; a failed charge marks only the payment failed.
   */
  method ProcessPayment(s: Store, requester: Accounts.User, bookingId: BookingId, paymentMethod: string,
                        transactionId: string, now: Timestamp, charge: Charge)
    returns (res: Outcome, pid: P.PaymentId)
    requires s.Valid()
    modifies s`payments, s`bookings, s`nextPaymentId
    ensures s.Valid()
    ensures res == NotFound <==> bookingId !in old(s.bookings)
    ensures res == Unauthorized <==> bookingId in old(s.bookings) && old(s.bookings)[bookingId].client != requester.id
    ensures res == Conflict <==>
      bookingId in old(s.bookings) && old(s.bookings)[bookingId].client == requester.id &&
      !P.HasPayment(old(s.payments), bookingId) && P.TransactionIdUsed(old(s.payments), transactionId)
    ensures res == Ok <==>
      bookingId in old(s.bookings) && old(s.bookings)[bookingId].client == requester.id && charge.Charged? &&
      (P.HasPayment(old(s.payments), bookingId) || !P.TransactionIdUsed(old(s.payments), transactionId))
    ensures res in {Ok, PaymentFailed, NotFound, Unauthorized, Conflict}
    ensures res !in {Ok, PaymentFailed} ==> unchanged(s)
    ensures res in {Ok, PaymentFailed} ==>
      && (pid in old(s.payments) <==> P.HasPayment(old(s.payments), bookingId))
      && (pid in old(s.payments) ==> old(s.payments)[pid].booking == bookingId)
      && s.payments == old(s.payments)[pid := Settle(PaymentBefore(old(s.payments), old(s.bookings)[bookingId], bookingId, pid,
                                                                   paymentMethod, transactionId), charge, now)]
    ensures res == Ok ==>
      s.bookings == old(s.bookings)[bookingId := old(s.bookings)[bookingId].(paymentStatus := Paid, status := Confirmed)]
    ensures res != Ok ==> s.bookings == old(s.bookings)
  {
    pid := 0;
    if bookingId !in s.bookings {
      return NotFound, pid;
    }
    var booking := s.bookings[bookingId];
    if booking.client != requester.id {
      return Unauthorized, pid;
    }
    var ok;
    ok, pid := ChargeBooking(s, bookingId, paymentMethod, transactionId, now, charge);
    if !ok {
      return Conflict, pid;
    }
    if charge.Charged? {
      s.SaveBooking(bookingId, booking.(paymentStatus := Paid, status := Confirmed));
      res := Ok;
    } else {
      res := PaymentFailed;
    }
  }

  /**
   * `request_refund`: only the client of the paid booking may ask, and only for a completed
   * payment (so a refunded payment is refused by this guard; the later `refunded` check can
   * never fire). The refund is always the full amount; the booking becomes refunded and cancelled.
   */
  method RequestRefund(s: Store, requester: Accounts.User, paymentId: P.PaymentId, reason: Option<string>, now: Timestamp)
    returns (res: Outcome)
    requires s.Valid()
    modifies s`payments, s`bookings
    ensures s.Valid()
    ensures res == NotFound <==> paymentId !in old(s.payments)
    ensures res == Unauthorized <==>
      paymentId in old(s.payments) && old(s.payments)[paymentId].booking in old(s.bookings) &&
      old(s.bookings)[old(s.payments)[paymentId].booking].client != requester.id
    ensures res == InvalidState <==>
      paymentId in old(s.payments) && old(s.payments)[paymentId].booking in old(s.bookings) &&
      old(s.bookings)[old(s.payments)[paymentId].booking].client == requester.id &&
      old(s.payments)[paymentId].status != P.Completed
    ensures res in {Ok, NotFound, Unauthorized, InvalidState}
    ensures res != Ok ==> unchanged(s)
    ensures res == Ok ==>
      var p := old(s.payments)[paymentId];
      var r := reason.GetOr("");
      && p.booking in old(s.bookings)
      && s.payments == old(s.payments)[paymentId := p.(status := P.Refunded, refundDate := Some(now),
                                                       refundAmount := Some(p.amount),
                                                       notes := "Refund requested. Reason: " + r)]
      && s.bookings == old(s.bookings)[p.booking := old(s.bookings)[p.booking].(paymentStatus := Refunded, status := Cancelled,
                                                                               cancellationReason := "Refund requested: " + r)]
  {
    if paymentId !in s.payments {
      return NotFound;
    }
    var payment := s.payments[paymentId];
    assert PaymentsOk(s.Snapshot());
    var booking := s.bookings[payment.booking];
    if booking.client != requester.id {
      return Unauthorized;
    }
    if payment.status != P.Completed {
      return InvalidState;
    }
    var r := reason.GetOr("");
    s.SavePayment(paymentId, payment.(status := P.Refunded, refundDate := Some(now), refundAmount := Some(payment.amount),
                                      notes := "Refund requested. Reason: " + r));
    s.SaveBooking(payment.booking, booking.(paymentStatus := Refunded, status := Cancelled,
                                            cancellationReason := "Refund requested: " + r));
    res := Ok;
  }
}
