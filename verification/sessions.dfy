/**
 * The per-visitor session store the controllers read and write
 * (`HttpContext.Session`): the signed-in user's id, first name and e-mail
 * address, each absent until set.
 */
module Sessions {
  import opened Models

  /** `!string.IsNullOrEmpty(HttpContext.Session.GetString("UserId"))`. */
  predicate SignedIn(userId: Option<string>)
  {
    userId.Some? && userId.value != ""
  }

  /** `$"{user?.FirstName} {user?.LastName}"`: a missing user shows as a lone space. */
  function DisplayName(user: Option<User>): (r: string)
    ensures user.None? ==> r == " "
    ensures user.Some? ==> |r| == |user.value.firstName| + 1 + |user.value.lastName|
    ensures user.Some? ==> r[..|user.value.firstName|] == user.value.firstName
    ensures user.Some? ==> r == user.value.firstName + " " + user.value.lastName
  {
    match user
    case None => " "
    case Some(u) => u.firstName + " " + u.lastName
  }

  class Session {
    var userId: Option<string>
    var firstName: Option<string>
    var email: Option<string>

    /** A session with nothing stored in it. */
    constructor ()
      ensures userId == None && firstName == None && email == None
    {
      userId := None;
      firstName := None;
      email := None;
    }

    /** The three SetString calls made at sign-in and after registration. */
    method SignIn(u: User)
      modifies this
      ensures userId == Some(u.id) && firstName == Some(u.firstName) && email == Some(u.email)
    {
      userId := Some(u.id);
      firstName := Some(u.firstName);
      email := Some(u.email);
    }

    /** `Session.Clear()`. */
    method Clear()
      modifies this
      ensures userId == None && firstName == None && email == None
      ensures !SignedIn(userId)
    {
      userId := None;
      firstName := None;
      email := None;
    }
  }
}
