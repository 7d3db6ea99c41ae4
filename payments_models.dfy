/** Payments (payments/models.py): one row per booking, with its method, status and refund columns. */
module PaymentModels {
  import opened Common
  import BookingModels

  type PaymentId = nat

  /** `Payment.PAYMENT_METHOD_CHOICES`. */
  datatype PaymentMethod = Card | Upi | NetBanking | Wallet

  /** The stored value of each method choice. */
  function MethodName(m: PaymentMethod): string {
    match m
    case Card => "card"
    case Upi => "upi"
    case NetBanking => "netbanking"
    case Wallet => "wallet"
  }

  /** The method choice a stored value names, if any. */
  function ParseMethod(s: string): (r: Option<PaymentMethod>)
    ensures r.Some? ==> MethodName(r.value) == s
  {
    if s == "card" then Some(Card)
    else if s == "upi" then Some(Upi)
    else if s == "netbanking" then Some(NetBanking)
    else if s == "wallet" then Some(Wallet)
    else None
  }

  /** Every method choice is recognised by its own stored value. */
  lemma ParseMethodName(m: PaymentMethod)
    ensures ParseMethod(MethodName(m)) == Some(m)
  {
  }

  /** `Payment.STATUS_CHOICES`. */
  datatype Status = Pending | Processing | Completed | Failed | Refunded

  /**
   * One payment row. `paymentMethod` holds the posted value as stored: the choices are not enforced
   * when the row is created by `get_or_create`.
   */
  datatype Payment = Payment(
    booking: BookingModels.BookingId,
    amount: Money,
    paymentMethod: string,
    transactionId: string,
    status: Status,
    paymentDate: Option<Timestamp>,
    refundDate: Option<Timestamp>,
    refundAmount: Option<Money>,
    notes: string)

  /** A new row: the given columns; the nullable dates and refund amount absent; empty notes. */
  function NewPayment(booking: BookingModels.BookingId, amount: Money, paymentMethod: string, transactionId: string, status: Status): (p: Payment)
    ensures p.booking == booking && p.amount == amount && p.paymentMethod == paymentMethod
    ensures p.transactionId == transactionId && p.status == status
    ensures p.paymentDate == None && p.refundDate == None && p.refundAmount == None && p.notes == ""
  {
    Payment(booking, amount, paymentMethod, transactionId, status, None, None, None, "")
  }

  /** Some payment refers to booking `b`. */
  predicate HasPayment(payments: map<PaymentId, Payment>, b: BookingModels.BookingId) {
    exists id :: id in payments && payments[id].booking == b
  }

  /** Some payment already carries transaction id `t`. */
  predicate TransactionIdUsed(payments: map<PaymentId, Payment>, t: string) {
    exists id :: id in payments && payments[id].transactionId == t
  }

  /** The one-to-one field `Payment.booking`. */
  ghost predicate OnePaymentPerBooking(payments: map<PaymentId, Payment>) {
    forall i, j :: i in payments && j in payments && i != j ==> payments[i].booking != payments[j].booking
  }

  /** The unique column `transaction_id`. */
  ghost predicate UniqueTransactionIds(payments: map<PaymentId, Payment>) {
    forall i, j :: i in payments && j in payments && i != j ==> payments[i].transactionId != payments[j].transactionId
  }

  /** The ids of the payments that refer to booking `b`. */
  function PaymentsOf(payments: map<PaymentId, Payment>, b: BookingModels.BookingId): set<PaymentId> {
    set id | id in payments && payments[id].booking == b
  }

  /** Under the one-to-one constraint a booking has at most one payment. */
  lemma AtMostOnePayment(payments: map<PaymentId, Payment>, b: BookingModels.BookingId)
    requires OnePaymentPerBooking(payments)
    ensures |PaymentsOf(payments, b)| <= 1
  {
    var ids := PaymentsOf(payments, b);
    if ids != {} {
      var x :| x in ids;
      assert ids == {x};
    }
  }

  /** Inserting a row for a booking without a payment, under a fresh transaction id, keeps both constraints. */
  lemma InsertPayment(payments: map<PaymentId, Payment>, id: PaymentId, p: Payment)
    requires OnePaymentPerBooking(payments) && UniqueTransactionIds(payments) && id !in payments
    requires !HasPayment(payments, p.booking) && !TransactionIdUsed(payments, p.transactionId)
    ensures OnePaymentPerBooking(payments[id := p]) && UniqueTransactionIds(payments[id := p])
  {
  }
}
