# Book my Advocate: the booking, payment and review rules

Book my Advocate is a Django marketplace. Clients book advocates for consultations and
court appearances, pay for the bookings, and review them once they are completed. This
project models the rules behind that flow as Dafny and proves what they guarantee:

- the fee a booking is charged, and who may cancel it or change its status;
- the single review a completed booking may receive, and the advocate's rating and review
  count, recomputed from all of the advocate's reviews;
- the single payment of a booking: fetched or created, settled by the payment gateway, and
  refunded in full;
- the constraints the schema declares: choice lists, defaults, unique slots
  `(advocate, date, time)`, one review and one payment per booking, unique transaction ids,
  score and rating ranges;
- the small helpers: the past-date check of the booking form, `get_languages_list` and
  `get_full_name`.

The database is the class `Database.Store`. It holds one map per table (advocates,
bookings, payments) and the review list, and the views update these in place. Its
invariant `Valid()` is `Consistent` of the current tables. `Consistent` gathers the
declared constraints on bookings, reviews and payments (choice lists, ranges, uniqueness,
links between rows) and two rules the views maintain rather than the schema declares: a
review names the advocate of its booking (`create_review` copies it), and each advocate's
`rating` is the mean of its reviews' ratings and its `total_reviews` their number. The
advocate availability constraints are not part of `Consistent`: they are stated separately
by `Advocates.ValidWindows` and kept by `Advocates.InsertWindow`. The invariant is proved
for the tables as values, one preservation lemma per kind of write (`Database.*Preserves`).
Every view method requires it and re-establishes it.

Each view's POST branch is a method that returns an `Outcome` (`Ok`, `NotFound`,
`Unauthorized`, `InvalidState`, `AlreadyExists`, `Conflict`, `Invalid`, `PaymentFailed`)
in place of its redirect and flash message. Each outcome is stated as an if-and-only-if
on the inputs and the old store. The kinds of failure differ:

- `NotFound`, `Unauthorized`, `InvalidState`, `AlreadyExists` and the `Invalid` of a view
  are the view's own guards (`get_object_or_404`, the ownership and state checks, form
  validation). The store is unchanged.
- `Conflict` is the `IntegrityError` the database raises at `save()` when a unique
  constraint (the slot of a booking, a transaction id) would be broken. The views do not
  catch it; the model checks the constraint before the insert, and the store is unchanged.
- `PaymentFailed` is the `except` branch of `process_payment`. It does change the store: the
  payment is saved as failed.
- The `Invalid` of `Database.Store.AddAdvocate` stands for the field validators of
  `AdvocateProfile` on the two fees (`MinValueValidator(0)`). Django runs these only in
  forms and `full_clean`, never in `save()`; the model applies them to every insert.

On `Ok` and `PaymentFailed`, the new contents of every table the view writes are stated in
full.

Modelling choices:

- Money is an integer number of hundredths.
- A date is a day number and a time is seconds since midnight.
- `date.today()`, `timezone.now()` and `uuid.uuid4()` are parameters of the operations
  that use them.
- How the `try` block of `process_payment` ends is the parameter `Charge` (`Charged` or
  `Declined(detail)`). The source has no gateway call; `Declined` stands for an exception
  raised by one of the block's saves, after `payment_date` has been stamped, so a failed
  payment also carries the date.
- A rating is an exact `real` mean.

Behaviour the model keeps as the code has it:

- A cancelled booking still holds its slot. The unique constraint on
  `(advocate, booking_date, booking_time)` has no exception for cancelled rows.
- Any status may follow any other. The status update checks only that the posted value is
  one of the choices.
- A successful payment confirms the booking and marks it paid, whatever its state was.
  This includes a cancelled or refunded booking.
- An existing payment is reused as it is, so its amount is not recomputed from the fee.
- A refund is refused unless the payment is completed. The view's later "already refunded"
  check therefore never fires.

## Model

| member | source | states |
|---|---|---|
| Accounts.FullName | accounts/models.py:26-27 | when first and last name are both blank the result is the username; otherwise it is non-empty, has no surrounding whitespace, and is `"first last"` with only leading and trailing whitespace removed |
| Accounts.FullNameFirstOnly | accounts/models.py:27 | with only a first name, the full name is that name stripped, with no trailing space |
| Accounts.FullNameBoth | accounts/models.py:27 | with two non-empty names that carry no surrounding whitespace, the full name is exactly `first + " " + last` |
| Accounts.BlankJoined | accounts/models.py:27 | the text `first + " " + last` is blank exactly when both names are blank, which is when `get_full_name` falls back to the username |
| Text.Strip | accounts/models.py:27 | Python's `str.strip()`: the result has no whitespace at either end, is empty exactly when the input is all whitespace, and is the input without a whitespace prefix and suffix |
| Text.StripBlankSuffix | accounts/models.py:27 | appending whitespace to a text that is not blank does not change its stripped form |
| Text.Split | advocates/models.py:61 | Python's `str.split(',')`: one piece more than there are separators, and no piece contains the separator |
| Text.JoinSplit | advocates/models.py:61 | joining the pieces of a split with the separator gives back the original text |
| Text.SplitJoin | advocates/models.py:61 | splitting a join of separator-free pieces gives back exactly those pieces, in order |
| Advocates.NewAdvocate | advocates/models.py:25-50 | a new profile keeps the given columns and takes the declared defaults: rating 0, no reviews, success rate 0, no cases, not verified |
| Advocates.LanguagesList | advocates/models.py:60-61 | `get_languages_list`: one entry per comma-separated piece (commas + 1 entries), the i-th entry is the i-th piece stripped, and no entry has surrounding whitespace or a comma |
| Advocates.LanguagesListEmpty | advocates/models.py:61 | an empty languages column gives a list holding one empty string |
| Advocates.LanguagesListJoin | advocates/models.py:61 | for names without commas or surrounding whitespace, listing their comma-join gives back the names in order |
| Advocates.InsertWindow | advocates/models.py:64-82 | an availability window is stored exactly when its weekday is in 0..6 and its `(advocate, day_of_week, start_time)` is not taken; storing it keeps the table valid |
| BookingModels.ParseStatus | bookings/models.py:7-13 | membership in `STATUS_CHOICES`: a recognised text is exactly the stored name of the status returned |
| BookingModels.ParseStatusName | bookings/models.py:7-13 | every status's stored name is recognised as that status |
| BookingModels.InsertFreeSlot | bookings/models.py:53 | inserting a booking whose `(advocate, date, time)` is free keeps slots unique |
| BookingModels.ResaveSameSlot | bookings/models.py:53 | saving a booking again with its `(advocate, date, time)` unchanged keeps slots unique |
| BookingModels.ReviewsOfEmpty | bookings/views.py:104 | a booking has no review in the list exactly when `hasattr(booking, 'review')` is false |
| BookingModels.AtMostOneReview | bookings/models.py:60 | under the one-to-one review link, a booking has at most one review |
| BookingForms.CleanBookingDate | bookings/forms.py:22-26 | a date is accepted exactly when it is not before today (so today is accepted), and is returned unchanged |
| BookingForms.SaveBookingForm | bookings/forms.py:5-11 | the saved booking takes only the seven exposed fields from the form; client, advocate and fee come from the view; status is pending and payment status unpaid; link, notes and cancellation reason are empty |
| BookingForms.SaveReviewForm | bookings/forms.py:29-32 | the saved review takes the scores and comment from the form, and booking, advocate and client from the view; it is unverified, and its scores are valid exactly when the form's are |
| PaymentModels.ParseMethod | payments/models.py:5-10 | a recognised payment method text is exactly the stored name of the method returned |
| PaymentModels.ParseMethodName | payments/models.py:5-10 | every method's stored name is recognised as that method |
| PaymentModels.NewPayment | payments/models.py:20-28 | a new payment keeps the given columns; its payment date, refund date and refund amount are absent and its notes empty |
| PaymentModels.AtMostOnePayment | payments/models.py:20 | under the one-to-one payment link, a booking has at most one payment |
| PaymentModels.InsertPayment | payments/models.py:20-23 | inserting a payment for a booking without one, under an unused transaction id, keeps both constraints |
| ReviewAggregates.RatingsOfAppend | bookings/views.py:118-120 | adding a review appends its rating to its advocate's ratings and leaves every other advocate's ratings unchanged |
| ReviewAggregates.RatingsOfNone | bookings/views.py:118-120 | an advocate named by no review has no ratings |
| ReviewAggregates.RatingsInRange | bookings/models.py:63 | when every review's rating is in 1..5, so is every rating of any advocate |
| ReviewAggregates.SumBounds | bookings/views.py:118 | a sum of n ratings, each within lo..hi, lies within n*lo..n*hi |
| ReviewAggregates.MeanInRange | advocates/models.py:42-47 | the mean of ratings in 1..5 lies in 1..5, and no ratings gives 0, so the recomputed rating always meets the rating validator |
| ReviewAggregates.MeanAppend | bookings/views.py:118 | the mean after one more rating is the old total plus that rating over the new count |
| ReviewAggregates.MeanSingle | bookings/views.py:118-120 | an advocate's first review makes its rating exactly that review's rating |
| Database.ReviewsNameProfiles | bookings/models.py:61 | an advocate without a profile has no reviews |
| Database.AddAdvocatePreserves | advocates/models.py:25-48 | adding a valid profile for a new user, with an unused bar council id and no reviews, keeps every constraint |
| Database.AddBookingPreserves | bookings/models.py:53 | inserting a booking of an existing advocate on a free slot keeps every constraint |
| Database.EditBookingPreserves | bookings/views.py:146-148 | rewriting a booking that keeps its advocate, date and time keeps every constraint |
| Database.AddReviewReviewsOk | bookings/models.py:60-67 | adding a linked, valid review for a booking without one keeps the review table valid |
| Database.AddReviewAggregates | bookings/views.py:118-121 | recomputing the advocate's rating and count from all reviews after the insert keeps every advocate's aggregates current and valid |
| Database.AddReviewPreserves | bookings/views.py:111-121 | inserting a review and recomputing its advocate's aggregates keeps every constraint |
| Database.AddPaymentPreserves | payments/views.py:48-56 | inserting a payment for a booking without one, under an unused transaction id, keeps every constraint |
| Database.EditPaymentPaymentsOk | payments/models.py:20-23 | rewriting a payment that keeps its booking and transaction id keeps the payment table valid |
| Database.EditPaymentPreserves | payments/views.py:64-66 | rewriting a payment that keeps its booking and transaction id keeps every constraint |
| Database.Store.SaveBooking | bookings/views.py:90 | saving an existing booking on its own slot: only that row changes, and the invariant holds |
| Database.Store.InsertBooking | bookings/views.py:30 | saving a new booking on a free slot: the row is added under a new id, and the invariant holds |
| Database.Store.SavePayment | payments/views.py:66 | saving an existing payment: only that row changes, and the invariant holds |
| Database.Store.InsertPayment | payments/views.py:48-56 | inserting a booking's first payment: the row is added under a new id, and the invariant holds |
| Database.Store.AddAdvocate | advocates/models.py:25-50 | a negative fee is refused as invalid, and a second profile for a user or a reused bar council id as a conflict; otherwise the profile is stored with its defaults |
| BookingViews.BookingFee | bookings/views.py:22-28 | the court-appearance fee for a court appearance, and the consultation fee for every other service type; never negative for a valid advocate |
| BookingViews.CreateBooking | bookings/views.py:11-32 | not found for an unknown advocate; invalid for a past date; conflict for a taken slot, cancelled bookings included; otherwise exactly one new booking of the requester, charged by service type, pending and unpaid |
| BookingViews.CancelBooking | bookings/views.py:75-92 | refused for anyone but the booking's client, and for a completed or cancelled booking, with nothing changed; otherwise only status (cancelled) and cancellation reason (the posted one, empty when absent) change |
| BookingViews.CreateReview | bookings/views.py:96-124 | refused unless the requester is the client of a completed booking; refused as already existing once the booking has a review; refused for scores outside 1..5; otherwise appends the unverified review and sets the advocate's rating to the mean and its count to the number of its reviews |
| BookingViews.UpdateBookingStatus | bookings/views.py:134-152 | refused unless the requester is of advocate type and owns the booking's advocate profile; a missing or unlisted status changes nothing; otherwise any listed status is set from any current one, and the notes keep their old value when none are posted |
| PaymentViews.Settle | payments/views.py:60-80 | the payment date is stamped in both branches; a run that goes through marks the payment completed; one that raises marks it failed and records the error text; amount, booking, method, transaction id and refund columns are kept |
| PaymentViews.InitiatePayment | payments/views.py:14-32 | refused for anyone but the booking's client, and for a booking already paid; accepted exactly otherwise |
| PaymentViews.FreshPayment | payments/views.py:48-56 | the row `get_or_create` inserts: the booking's fee, the posted method and transaction id, status processing, no dates |
| PaymentViews.GetOrCreatePayment | payments/views.py:48-56 | returns the booking's existing payment untouched, or inserts the fresh row; refused, with nothing changed, only when a new row would reuse a transaction id |
| PaymentViews.ChargeBooking | payments/views.py:47-80 | the booking's one payment (existing or fresh) is settled by the gateway's answer, and no other payment changes |
| PaymentViews.PaymentBefore | payments/views.py:48-56 | the payment settled is the existing row when there is one; otherwise a processing row for the booking's fee |
| PaymentViews.ProcessPayment | payments/views.py:35-85 | refused for anyone but the booking's client with nothing changed; when a new payment's transaction id is already taken (the `IntegrityError` of `get_or_create`), `Conflict` and nothing changes; otherwise the booking ends with exactly one payment, settled by `Settle`; on success the booking is confirmed and paid, whatever its state; on failure the booking is untouched |
| PaymentViews.RequestRefund | payments/views.py:164-198 | refused for anyone but the paying client, and for a payment that is not completed; otherwise the payment is refunded in full with the refund date and reason recorded, and the booking becomes refunded and cancelled with the reason |
| Scenario.BookPayReview | bookings/views.py:96-121 | end to end: a 100.00 consultation starts pending and unpaid; a card payment confirms it and marks it paid; after completion a review of 4 gives the advocate rating 4 over one review; a second review is refused as already existing |
| Scenario.RefundTwice | payments/views.py:174-192 | after a granted refund, a second request for the same payment is refused as not eligible, and the recorded refund stays the full amount |

## Left out

- HTTP handling is not modelled: requests, responses, `messages`, `redirect`, `render` and `login_required`. Non-POST branches render or redirect without writing, and are not modelled, except for the guards of the GET-only `initiate_payment` (`PaymentViews.InitiatePayment`).
- Views that only read or list are not modelled: booking and payment details, `my_bookings`, `payment_history`, and the payment success and failure pages. They are ORM queries with no rules of their own.
- The search and listing views, the REST API, the admin, URL routing, settings, authentication views and the notifications app are left out. They are routing, queries or configuration.
- Django's own field cleaning is not modelled: required fields, `max_length`, type coercion and stripping of form input. A form reaches the model as already-typed values.
- Decimal field widths (`max_digits`) and integer column widths are not modelled. All numbers are unbounded.
- BookingViews.CreateReview: the rating is the exact mean, without `round(…, 2)`. Python's float `Avg` and rounding are not modelled.
- BookingViews.CreateReview: the source's first guard (not the client, or not completed) ends in one shared redirect. The model tells the two cases apart as `Unauthorized` and `InvalidState`.
- PaymentViews.ProcessPayment: a missing `payment_method` field (`None`) is not modelled. The method is always a string, and it is stored without checking it against the choices, as `get_or_create` does.
- Concurrency is not modelled: racing bookings, payments and rating recomputations. Each view runs alone, and uniqueness is an insert-time check that yields `Conflict`.
- Several advocate columns are not modelled: the free-text ones (bio, education, certifications), the specialization links, `Specialization` itself and document uploads. No rule in these views reads them.
- Database.Store.AddAdvocate: refusing a negative fee is stricter than a bare `save()`, which stores it. The fee validators are applied on every insert, as a form or `full_clean` would apply them.
- Three declared defaults have no model: booking `duration` 60 and `priority` normal, payment `status` pending, and user `user_type` client. The booking form requires both duration and priority (neither is `blank=True`), `get_or_create` always passes status `processing`, and no view in this core creates a user.
- Timestamps (`created_at`, `updated_at`) are not modelled. They are not modelled because no rule reads them.
- The user's contact columns are not modelled (phone, address, picture, birth date). They are not modelled because no rule reads them.
