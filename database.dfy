/**
 * The four linked tables the views read and write, and the constraints the schema declares
 * over them (unique keys, one-to-one links, foreign keys, validators), together with the
 * aggregate columns `create_review` keeps current.
 */
module Database {
  import opened Common
  import Accounts
  import opened Advocates
  import opened BookingModels
  import P = PaymentModels
  import opened ReviewAggregates

  /** What a view's POST branch ends in, in place of its redirect and flash message. */
  datatype Outcome = Ok | NotFound | Unauthorized | InvalidState | AlreadyExists | Conflict | Invalid | PaymentFailed

  /** The contents of the tables at one moment; ids are handed out by auto-increment counters. */
  datatype Tables = Tables(
    advocates: map<AdvocateId, Advocate>,
    bookings: map<BookingId, Booking>,
    reviews: seq<Review>,
    payments: map<P.PaymentId, P.Payment>,
    nextAdvocateId: nat,
    nextBookingId: nat,
    nextPaymentId: nat)

  /** Some profile already belongs to `user` (the one-to-one `Advocate.user`). */
  predicate HasProfile(advocates: map<AdvocateId, Advocate>, user: Accounts.UserId) {
    exists id :: id in advocates && advocates[id].user == user
  }

  /** Some profile already carries bar council id `b` (a unique column). */
  predicate BarCouncilIdUsed(advocates: map<AdvocateId, Advocate>, b: string) {
    exists id :: id in advocates && advocates[id].barCouncilId == b
  }

  /** One profile per user and unique bar council ids. */
  ghost predicate UniqueProfiles(advocates: map<AdvocateId, Advocate>) {
    forall i, j :: i in advocates && j in advocates && i != j ==>
      advocates[i].user != advocates[j].user && advocates[i].barCouncilId != advocates[j].barCouncilId
  }

  /** A review row refers to an existing booking, names that booking's advocate, and has valid scores. */
  predicate ReviewLinked(t: Tables, r: Review) {
    r.booking in t.bookings && r.advocate == t.bookings[r.booking].advocate && ValidScores(r)
  }

  /** Advocate `a`'s `total_reviews` is its number of reviews and its `rating` their mean. */
  predicate AggregatesCurrent(t: Tables, a: AdvocateId)
    requires a in t.advocates
  {
    && t.advocates[a].totalReviews == |RatingsOf(t.reviews, a)|
    && t.advocates[a].rating == Mean(RatingsOf(t.reviews, a))
  }

  /** The advocate table: unique users and bar council ids, ids below the counter, validators hold. */
  ghost predicate ProfilesOk(t: Tables) {
    && UniqueProfiles(t.advocates)
    && (forall id :: id in t.advocates ==> id < t.nextAdvocateId && ValidAdvocate(t.advocates[id]))
  }

  /** The booking table: ids below the counter, advocates exist, slots unique. */
  ghost predicate BookingsOk(t: Tables) {
    && (forall id :: id in t.bookings ==> id < t.nextBookingId && t.bookings[id].advocate in t.advocates)
    && UniqueSlots(t.bookings)
  }

  /** The review table: every row linked and valid, at most one per booking. */
  ghost predicate ReviewsOk(t: Tables) {
    && (forall i :: 0 <= i < |t.reviews| ==> ReviewLinked(t, t.reviews[i]))
    && OneReviewPerBooking(t.reviews)
  }

  /** The payment table: ids below the counter, bookings exist, one per booking, unique transaction ids. */
  ghost predicate PaymentsOk(t: Tables) {
    && (forall id :: id in t.payments ==> id < t.nextPaymentId && t.payments[id].booking in t.bookings)
    && P.OnePaymentPerBooking(t.payments)
    && P.UniqueTransactionIds(t.payments)
  }

  /** Every advocate's aggregate columns agree with the review table. */
  ghost predicate AggregatesOk(t: Tables) {
    forall a :: a in t.advocates ==> AggregatesCurrent(t, a)
  }

  /** Every constraint the schema declares, and the aggregate columns up to date. */
  ghost predicate Consistent(t: Tables) {
    ProfilesOk(t) && BookingsOk(t) && ReviewsOk(t) && PaymentsOk(t) && AggregatesOk(t)
  }

  /** The tables after inserting review `r` and recomputing its advocate's aggregates from all reviews. */
  function WithReview(t: Tables, r: Review): Tables
    requires r.advocate in t.advocates
  {
    var reviews := t.reviews + [r];
    var ratings := RatingsOf(reviews, r.advocate);
    t.(reviews := reviews,
       advocates := t.advocates[r.advocate := t.advocates[r.advocate].(rating := Mean(ratings), totalReviews := |ratings|)])
  }

  /** No review names an advocate that has no profile. */
  lemma ReviewsNameProfiles(t: Tables, a: AdvocateId)
    requires BookingsOk(t) && ReviewsOk(t) && a !in t.advocates
    ensures RatingsOf(t.reviews, a) == []
  {
    forall i | 0 <= i < |t.reviews| ensures t.reviews[i].advocate != a {
      assert ReviewLinked(t, t.reviews[i]);
    }
    RatingsOfNone(t.reviews, a);
  }

  /** The review table stays linked when no booking disappears or changes advocate. */
  lemma ReviewsOkFrame(t: Tables, t': Tables)
    requires ReviewsOk(t) && t'.reviews == t.reviews
    requires forall id :: id in t.bookings ==> id in t'.bookings && t'.bookings[id].advocate == t.bookings[id].advocate
    ensures ReviewsOk(t')
  {
    forall i | 0 <= i < |t'.reviews| ensures ReviewLinked(t', t'.reviews[i]) {
      assert ReviewLinked(t, t.reviews[i]);
    }
  }

  /** The aggregates stay current when neither the advocates nor the reviews change. */
  lemma AggregatesOkFrame(t: Tables, t': Tables)
    requires AggregatesOk(t) && t'.reviews == t.reviews && t'.advocates == t.advocates
    ensures AggregatesOk(t')
  {
    forall a | a in t'.advocates ensures AggregatesCurrent(t', a) {
      assert AggregatesCurrent(t, a);
    }
  }

  /** The payment table stays valid when no booking disappears. */
  lemma PaymentsOkFrame(t: Tables, t': Tables)
    requires PaymentsOk(t) && t'.payments == t.payments && t'.nextPaymentId == t.nextPaymentId
    requires t.bookings.Keys <= t'.bookings.Keys
    ensures PaymentsOk(t')
  {
  }

  /** Inserting a fresh profile, under an unused user and bar council id, keeps the tables consistent. */
  lemma AddAdvocatePreserves(t: Tables, a: Advocate)
    requires Consistent(t) && ValidAdvocate(a)
    requires !HasProfile(t.advocates, a.user) && !BarCouncilIdUsed(t.advocates, a.barCouncilId)
    requires a.totalReviews == 0 && a.rating == 0.0
    ensures Consistent(t.(advocates := t.advocates[t.nextAdvocateId := a], nextAdvocateId := t.nextAdvocateId + 1))
  {
    var id := t.nextAdvocateId;
    var t' := t.(advocates := t.advocates[id := a], nextAdvocateId := id + 1);
    assert ProfilesOk(t');
    assert BookingsOk(t');
    ReviewsOkFrame(t, t');
    PaymentsOkFrame(t, t');
    assert AggregatesOk(t') by {
      ReviewsNameProfiles(t, id);
      forall b | b in t'.advocates ensures AggregatesCurrent(t', b) {
        if b != id { assert AggregatesCurrent(t, b); }
      }
    }
  }

  /** Inserting a booking of a known advocate on a free slot keeps the tables consistent. */
  lemma AddBookingPreserves(t: Tables, b: Booking)
    requires Consistent(t) && b.advocate in t.advocates
    requires !SlotTaken(t.bookings, b.advocate, b.date, b.time)
    ensures Consistent(t.(bookings := t.bookings[t.nextBookingId := b], nextBookingId := t.nextBookingId + 1))
  {
    var id := t.nextBookingId;
    var t' := t.(bookings := t.bookings[id := b], nextBookingId := id + 1);
    InsertFreeSlot(t.bookings, id, b);
    assert ProfilesOk(t');
    assert BookingsOk(t');
    ReviewsOkFrame(t, t');
    PaymentsOkFrame(t, t');
    AggregatesOkFrame(t, t');
  }

  /** Rewriting a booking's columns other than its advocate, date and time keeps the tables consistent. */
  lemma EditBookingPreserves(t: Tables, id: BookingId, b: Booking)
    requires Consistent(t) && id in t.bookings
    requires b.advocate == t.bookings[id].advocate && Slot(b) == Slot(t.bookings[id])
    ensures Consistent(t.(bookings := t.bookings[id := b]))
  {
    var t' := t.(bookings := t.bookings[id := b]);
    assert ProfilesOk(t');
    ResaveSameSlot(t.bookings, id, b);
    ReviewsOkFrame(t, t');
    PaymentsOkFrame(t, t');
    AggregatesOkFrame(t, t');
  }

  /** The review table after appending a linked, valid review for a booking that has none. */
  lemma AddReviewReviewsOk(t: Tables, r: Review)
    requires ReviewsOk(t) && ReviewLinked(t, r) && !HasReview(t.reviews, r.booking)
    requires r.advocate in t.advocates
    ensures ReviewsOk(WithReview(t, r))
  {
    var t' := WithReview(t, r);
    forall i | 0 <= i < |t'.reviews| ensures ReviewLinked(t', t'.reviews[i]) {
      if i < |t.reviews| { assert ReviewLinked(t, t.reviews[i]); }
    }
    forall i, j | 0 <= i < j < |t'.reviews| ensures t'.reviews[i].booking != t'.reviews[j].booking {
      if j == |t.reviews| {
        assert t'.reviews[i] == t.reviews[i];
      }
    }
  }

  /** The recomputed aggregates are current for every advocate, and the new rating is in 0..5. */
  lemma AddReviewAggregates(t: Tables, r: Review)
    requires AggregatesOk(t) && ProfilesOk(t) && r.advocate in t.advocates
    requires ReviewsOk(WithReview(t, r))
    ensures AggregatesOk(WithReview(t, r)) && ProfilesOk(WithReview(t, r))
  {
    var t' := WithReview(t, r);
    var a := r.advocate;
    forall i | 0 <= i < |t'.reviews| ensures InScoreRange(t'.reviews[i].rating) {
      assert ReviewLinked(t', t'.reviews[i]);
    }
    RatingsInRange(t'.reviews, a);
    MeanInRange(RatingsOf(t'.reviews, a));
    forall b | b in t'.advocates ensures AggregatesCurrent(t', b) {
      if b != a {
        RatingsOfAppend(t.reviews, r, b);
        assert RatingsOf(t'.reviews, b) == RatingsOf(t.reviews, b) + [];
        assert RatingsOf(t.reviews, b) + [] == RatingsOf(t.reviews, b);
        assert AggregatesCurrent(t, b);
      }
    }
  }

  /**
   * Inserting a linked, valid review for a booking that has none, then recomputing its
   * advocate's aggregates, keeps the tables consistent: in particular the new rating is in 0..5.
   */
  lemma AddReviewPreserves(t: Tables, r: Review)
    requires Consistent(t) && ReviewLinked(t, r) && !HasReview(t.reviews, r.booking)
    ensures r.advocate in t.advocates
    ensures Consistent(WithReview(t, r))
  {
    assert BookingsOk(t);
    var t' := WithReview(t, r);
    AddReviewReviewsOk(t, r);
    AddReviewAggregates(t, r);
    assert BookingsOk(t');
    PaymentsOkFrame(t, t');
  }

  /** Inserting a payment for a booking that has none, under an unused transaction id, keeps the tables consistent. */
  lemma AddPaymentPreserves(t: Tables, p: P.Payment)
    requires Consistent(t) && p.booking in t.bookings
    requires !P.HasPayment(t.payments, p.booking) && !P.TransactionIdUsed(t.payments, p.transactionId)
    ensures Consistent(t.(payments := t.payments[t.nextPaymentId := p], nextPaymentId := t.nextPaymentId + 1))
  {
    P.InsertPayment(t.payments, t.nextPaymentId, p);
    var t' := t.(payments := t.payments[t.nextPaymentId := p], nextPaymentId := t.nextPaymentId + 1);
    assert ProfilesOk(t');
    assert BookingsOk(t');
    ReviewsOkFrame(t, t');
    assert PaymentsOk(t');
    AggregatesOkFrame(t, t');
  }

  /** The payment table after rewriting a row's columns other than its booking and transaction id. */
  lemma EditPaymentPaymentsOk(t: Tables, id: P.PaymentId, p: P.Payment)
    requires PaymentsOk(t) && id in t.payments
    requires p.booking == t.payments[id].booking && p.transactionId == t.payments[id].transactionId
    ensures PaymentsOk(t.(payments := t.payments[id := p]))
  {
    var m := t.payments[id := p];
    forall i, j | i in m && j in m && i != j
      ensures m[i].booking != m[j].booking && m[i].transactionId != m[j].transactionId
    {
      assert m[i].booking == t.payments[i].booking && m[j].booking == t.payments[j].booking;
      assert m[i].transactionId == t.payments[i].transactionId;
      assert m[j].transactionId == t.payments[j].transactionId;
    }
  }

  /** Rewriting a payment's columns other than its booking and transaction id keeps the tables consistent. */
  lemma EditPaymentPreserves(t: Tables, id: P.PaymentId, p: P.Payment)
    requires Consistent(t) && id in t.payments
    requires p.booking == t.payments[id].booking && p.transactionId == t.payments[id].transactionId
    ensures Consistent(t.(payments := t.payments[id := p]))
  {
    var t' := t.(payments := t.payments[id := p]);
    assert ProfilesOk(t');
    assert BookingsOk(t');
    ReviewsOkFrame(t, t');
    EditPaymentPaymentsOk(t, id, p);
    AggregatesOkFrame(t, t');
  }

  /** The database: one map per table, updated in place by the views. */
  class Store {
    var advocates: map<AdvocateId, Advocate>
    var bookings: map<BookingId, Booking>
    var reviews: seq<Review>
    var payments: map<P.PaymentId, P.Payment>
    var nextAdvocateId: nat
    var nextBookingId: nat
    var nextPaymentId: nat

    /** The current contents of the tables. */
    ghost function Snapshot(): Tables
      reads this
    {
      Tables(advocates, bookings, reviews, payments, nextAdvocateId, nextBookingId, nextPaymentId)
    }

    ghost predicate Valid()
      reads this
    {
      Consistent(Snapshot())
    }

    /** An empty database. */
    constructor ()
      ensures Valid()
      ensures advocates == map[] && bookings == map[] && reviews == [] && payments == map[]
    {
      advocates, bookings, reviews, payments := map[], map[], [], map[];
      nextAdvocateId, nextBookingId, nextPaymentId := 0, 0, 0;
    }

    /** `booking.save()` on an existing row whose advocate, date and time are kept. */
    method SaveBooking(id: BookingId, b: Booking)
      requires Valid() && id in bookings
      requires b.advocate == bookings[id].advocate && Slot(b) == Slot(bookings[id])
      modifies this`bookings
      ensures Valid() && bookings == old(bookings)[id := b]
    {
      EditBookingPreserves(Snapshot(), id, b);
      bookings := bookings[id := b];
    }

    /** `booking.save()` on a new row of a known advocate, on a free slot; the id is the next one. */
    method InsertBooking(b: Booking) returns (id: BookingId)
      requires Valid() && b.advocate in advocates && !SlotTaken(bookings, b.advocate, b.date, b.time)
      modifies this`bookings, this`nextBookingId
      ensures Valid() && id !in old(bookings) && bookings == old(bookings)[id := b]
    {
      AddBookingPreserves(Snapshot(), b);
      id := nextBookingId;
      bookings := bookings[id := b];
      nextBookingId := nextBookingId + 1;
    }

    /** `payment.save()` on an existing row whose booking and transaction id are kept. */
    method SavePayment(id: P.PaymentId, p: P.Payment)
      requires Valid() && id in payments
      requires p.booking == payments[id].booking && p.transactionId == payments[id].transactionId
      modifies this`payments
      ensures Valid() && payments == old(payments)[id := p]
    {
      EditPaymentPreserves(Snapshot(), id, p);
      payments := payments[id := p];
    }

    /** Inserting a payment row for a booking that has none, under an unused transaction id. */
    method InsertPayment(p: P.Payment) returns (id: P.PaymentId)
      requires Valid() && p.booking in bookings
      requires !P.HasPayment(payments, p.booking) && !P.TransactionIdUsed(payments, p.transactionId)
      modifies this`payments, this`nextPaymentId
      ensures Valid() && id !in old(payments) && payments == old(payments)[id := p]
    {
      AddPaymentPreserves(Snapshot(), p);
      id := nextPaymentId;
      payments := payments[id := p];
      nextPaymentId := nextPaymentId + 1;
    }

    /**
     * Saving a new advocate profile: the fee validators refuse a negative fee, the unique
     * columns refuse a second profile for a user or a reused bar council id, and every
     * column the caller does not give takes its declared default.
     */
    method AddAdvocate(user: Accounts.UserId, barCouncilId: string, experience: Experience,
                       consultationFee: Money, courtAppearanceFee: Money,
                       languages: string, isAvailable: bool) returns (res: Outcome, id: AdvocateId)
      requires Valid()
      modifies this`advocates, this`nextAdvocateId
      ensures Valid()
      ensures res == Invalid <==> consultationFee < 0 || courtAppearanceFee < 0
      ensures res == Conflict <==> consultationFee >= 0 && courtAppearanceFee >= 0 &&
                                   (HasProfile(old(advocates), user) || BarCouncilIdUsed(old(advocates), barCouncilId))
      ensures res == Invalid || res == Conflict || res == Ok
      ensures res != Ok ==> unchanged(this)
      ensures res == Ok ==> id !in old(advocates)
      ensures res == Ok ==>
        advocates == old(advocates)[id := NewAdvocate(user, barCouncilId, experience, consultationFee,
                                                      courtAppearanceFee, languages, isAvailable)]
    {
      id := 0;
      if consultationFee < 0 || courtAppearanceFee < 0 {
        res := Invalid;
        return;
      }
      if HasProfile(advocates, user) || BarCouncilIdUsed(advocates, barCouncilId) {
        res := Conflict;
        return;
      }
      var a := NewAdvocate(user, barCouncilId, experience, consultationFee, courtAppearanceFee, languages, isAvailable);
      AddAdvocatePreserves(Snapshot(), a);
      id := nextAdvocateId;
      advocates := advocates[id := a];
      nextAdvocateId := nextAdvocateId + 1;
      res := Ok;
    }
  }
}
