/** The custom user model (accounts/models.py): a role tag and a display name. */
module Accounts {
  import opened Text

  type UserId = nat

  /** `User.USER_TYPE_CHOICES`: the flat role tag every view dispatches on. */
  datatype UserType = Client | Advocate | Admin

  /** The fields of a user that the core reads. */
  datatype User = User(id: UserId, username: string, firstName: string, lastName: string, userType: UserType)

  /** `get_full_name`: "first last" with outer whitespace removed, or the username when that is empty. */
  function FullName(u: User): (r: string)
    ensures Blank(u.firstName) && Blank(u.lastName) ==> r == u.username
    ensures !(Blank(u.firstName) && Blank(u.lastName)) ==>
      r != [] && Stripped(r) && TrimmedFrom(u.firstName + " " + u.lastName, r)
  {
    var s := Strip(u.firstName + " " + u.lastName);
    BlankJoined(u.firstName, u.lastName);
    if s != [] then s else u.username
  }

  /** Two names joined by a space are all whitespace exactly when both names are. */
  lemma BlankJoined(a: string, b: string)
    ensures Blank(a + " " + b) <==> Blank(a) && Blank(b)
  {
    assert Blank(" ") by {
      assert " "[0] == ' ';
    }
    BlankConcat(a, " ");
    BlankConcat(a + " ", b);
  }

  /** With only a first name, the full name is that name stripped: no space is left behind. */
  lemma FullNameFirstOnly(u: User)
    requires !Blank(u.firstName) && Blank(u.lastName)
    ensures FullName(u) == Strip(u.firstName)
  {
    BlankConcat(" ", u.lastName);
    assert u.firstName + " " + u.lastName == u.firstName + (" " + u.lastName);
    StripBlankSuffix(u.firstName, " " + u.lastName);
  }

  /** Two names without outer whitespace are shown as they are, one space apart. */
  lemma FullNameBoth(u: User)
    requires u.firstName != [] && Stripped(u.firstName)
    requires u.lastName != [] && Stripped(u.lastName)
    ensures FullName(u) == u.firstName + " " + u.lastName
  {
    var joined := u.firstName + " " + u.lastName;
    assert joined[0] == u.firstName[0] && joined[|joined| - 1] == u.lastName[|u.lastName| - 1];
    StripStripped(joined);
  }
}
