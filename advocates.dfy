/** Advocate profiles and their weekly availability windows (advocates/models.py). */
module Advocates {
  import opened Common
  import opened Text
  import Accounts

  type AdvocateId = nat

  /** `Advocate.EXPERIENCE_CHOICES`. */
  datatype Experience = ZeroToTwo | ThreeToFive | SixToTen | TenPlus

  /**
   * The columns of an advocate profile that the core reads or writes.
   * Amounts are in hundredths; `successRate` is in hundredths of a percent;
   * `rating` is the exact mean of the advocate's review ratings.
   */
  datatype Advocate = Advocate(
    user: Accounts.UserId,
    barCouncilId: string,
    experience: Experience,
    consultationFee: Money,
    courtAppearanceFee: Money,
    languages: string,
    successRate: int,
    totalCases: int,
    rating: real,
    totalReviews: int,
    isAvailable: bool,
    verified: bool)

  /** The field validators: both fees at least 0, success rate in 0..100, rating in 0..5. */
  predicate ValidAdvocate(a: Advocate) {
    && a.consultationFee >= 0
    && a.courtAppearanceFee >= 0
    && 0 <= a.successRate <= 100_00
    && 0.0 <= a.rating <= 5.0
  }

  /** A new profile row: the given columns, every other column at its declared default. */
  function NewAdvocate(user: Accounts.UserId, barCouncilId: string, experience: Experience,
                       consultationFee: Money, courtAppearanceFee: Money,
                       languages: string, isAvailable: bool): (a: Advocate)
    ensures a.user == user && a.barCouncilId == barCouncilId && a.experience == experience
    ensures a.consultationFee == consultationFee && a.courtAppearanceFee == courtAppearanceFee
    ensures a.languages == languages && a.isAvailable == isAvailable
    ensures a.rating == 0.0 && a.totalReviews == 0 && a.successRate == 0 && a.totalCases == 0 && !a.verified
    ensures consultationFee >= 0 && courtAppearanceFee >= 0 ==> ValidAdvocate(a)
  {
    Advocate(user, barCouncilId, experience, consultationFee, courtAppearanceFee, languages,
             0, 0, 0.0, 0, isAvailable, false)
  }

  /** `get_languages_list`: the comma-separated pieces of `languages`, each stripped, in order. */
  function LanguagesList(languages: string): (r: seq<string>)
    ensures |r| == Count(languages, ',') + 1
    ensures forall i :: 0 <= i < |r| ==> Stripped(r[i]) && ',' !in r[i]
    ensures forall i :: 0 <= i < |r| ==> r[i] == Strip(Split(languages, ',')[i])
  {
    var pieces := Split(languages, ',');
    seq(|pieces|, i requires 0 <= i < |pieces| =>
      var p := Strip(pieces[i]);
      assert ',' !in p by { StripInfix(pieces[i], p, ','); }
      p)
  }

  /** A character absent from a string is absent from its stripped form. */
  lemma StripInfix(s: string, r: string, c: char)
    requires r == Strip(s) && c !in s
    ensures c !in r
  {
    var i :| 0 <= i <= |s| - |r| && r == s[i..i + |r|] && Blank(s[..i]) && Blank(s[i + |r|..]);
  }

  /** An empty languages column lists one empty language. */
  lemma LanguagesListEmpty()
    ensures LanguagesList("") == [""]
  {
  }

  /** Languages written as a comma-separated list of stripped names are listed back unchanged. */
  lemma LanguagesListJoin(names: seq<string>)
    requires |names| > 0
    requires forall i :: 0 <= i < |names| ==> Stripped(names[i]) && ',' !in names[i]
    ensures LanguagesList(Join(names, ',')) == names
  {
    SplitJoin(names, ',');
    var r := LanguagesList(Join(names, ','));
    forall i | 0 <= i < |names| ensures r[i] == names[i] {
      StripStripped(names[i]);
    }
  }

  /** `AdvocateAvailability.WEEKDAY_CHOICES`: 0 is Monday, 6 is Sunday. */
  predicate IsWeekday(d: int) {
    0 <= d <= 6
  }

  /** One availability window of an advocate. */
  datatype Availability = Availability(advocate: AdvocateId, dayOfWeek: int, startTime: Time, endTime: Time, isAvailable: bool)

  /** The key of `unique_together = ['advocate', 'day_of_week', 'start_time']`. */
  function WindowKey(w: Availability): (AdvocateId, int, Time) {
    (w.advocate, w.dayOfWeek, w.startTime)
  }

  /** The availability table obeys its choices and its composite uniqueness constraint. */
  predicate ValidWindows(rows: seq<Availability>) {
    && (forall i :: 0 <= i < |rows| ==> IsWeekday(rows[i].dayOfWeek))
    && (forall i, j :: 0 <= i < j < |rows| ==> WindowKey(rows[i]) != WindowKey(rows[j]))
  }

  /**
   * Inserting a window: refused (None) when its weekday is outside the choices or its key is
   * already taken, otherwise appended.
   */
  function InsertWindow(rows: seq<Availability>, w: Availability): (r: Option<seq<Availability>>)
    ensures r.Some? <==> IsWeekday(w.dayOfWeek) && forall i :: 0 <= i < |rows| ==> WindowKey(rows[i]) != WindowKey(w)
    ensures r.Some? ==> r.value == rows + [w]
    ensures ValidWindows(rows) && r.Some? ==> ValidWindows(r.value)
  {
    if IsWeekday(w.dayOfWeek) && forall i :: 0 <= i < |rows| ==> WindowKey(rows[i]) != WindowKey(w) then
      Some(rows + [w])
    else
      None
  }
}
