/**
 * Accounts (CabBookingSystem/Controllers/AccountController.cs): registering
 * a rider, signing in with e-mail and password, and signing out.
 */
module AccountCtrl {
  import opened Models
  import opened Seqs
  import opened Sessions
  import UserRepo

  /** The registration form (RegisterViewModel). */
  datatype RegisterForm = RegisterForm(firstName: string, lastName: string, email: string, password: string)

  /** The sign-in form (LoginViewModel). */
  datatype LoginForm = LoginForm(email: string, password: string, rememberMe: bool)

  datatype AccountOutcome = FormShown | EmailTaken | InvalidCredentials | ToDashboard | ToWelcome

  /** The user Register writes: the password is stored as typed. */
  function NewUser(id: string, form: RegisterForm, now: DateTime): (u: User)
    ensures u.id == id && u.email == form.email && u.passwordHash == form.password
  {
    User(id, form.firstName, form.lastName, form.email, form.password, now)
  }

  /**
   * The users after a registration, on values: an address already in use is
   * refused; otherwise the new user is appended.
   */
  function Registered(users: seq<User>, id: string, form: RegisterForm, now: DateTime): (r: seq<User>)
    ensures UserRepo.UserByEmail(users, form.email).Some? ==> r == users
    ensures UserRepo.UserByEmail(users, form.email).None? ==> r == users + [NewUser(id, form, now)]
    ensures UserRepo.UniqueEmails(users) ==> UserRepo.UniqueEmails(r)
  {
    if UserRepo.UserByEmail(users, form.email).Some? then users else users + [NewUser(id, form, now)]
  }

  /** Registration refuses a known address, so any run of registrations keeps addresses unique. */
  lemma {:induction false} RegistrationsKeepEmailsUnique(
    users: seq<User>, ids: seq<string>, forms: seq<RegisterForm>, now: DateTime)
    requires UserRepo.UniqueEmails(users) && |ids| == |forms|
    ensures UserRepo.UniqueEmails(RegisterAll(users, ids, forms, now))
    decreases |forms|
  {
    if |forms| > 0 {
      RegistrationsKeepEmailsUnique(Registered(users, ids[0], forms[0], now), ids[1..], forms[1..], now);
    }
  }

  /** A run of registrations, one after another. */
  function RegisterAll(users: seq<User>, ids: seq<string>, forms: seq<RegisterForm>, now: DateTime): seq<User>
    requires |ids| == |forms|
    decreases |forms|
  {
    if |forms| == 0 then users
    else RegisterAll(Registered(users, ids[0], forms[0], now), ids[1..], forms[1..], now)
  }

  /** Once registered, the address and password sign in, whatever else is stored. */
  lemma RegisteredCanSignIn(users: seq<User>, id: string, form: RegisterForm, now: DateTime)
    requires UserRepo.UserByEmail(users, form.email).None?
    ensures UserRepo.PasswordMatches(Registered(users, id, form, now), form.email, form.password)
    ensures UserRepo.UserByEmail(Registered(users, id, form, now), form.email) == Some(NewUser(id, form, now))
  {
    var r := Registered(users, id, form, now);
    assert r[|users|] == NewUser(id, form, now);
    assert forall k :: 0 <= k < |users| ==> r[k] == users[k] && users[k] in users;
  }

  class AccountController {
    const userRepository: UserRepo.UserRepository
    const session: Session

    constructor (userRepository: UserRepo.UserRepository, session: Session)
      ensures this.userRepository == userRepository && this.session == session
    {
      this.userRepository := userRepository;
      this.session := session;
    }

    /**
     * POST Login: the first user with the address signs in when the password
     * typed equals the stored one; the session then holds that user's id,
     * first name and address. Otherwise nothing changes.
     */
    method Login(form: LoginForm, modelStateValid: bool) returns (result: AccountOutcome)
      modifies session
      ensures !modelStateValid ==> result == FormShown && session.userId == old(session.userId)
      ensures modelStateValid ==>
        (result == ToDashboard <==> userRepository.ValidateUser(form.email, form.password))
      ensures modelStateValid && result == ToDashboard ==>
        var u := UserRepo.UserByEmail(userRepository.users, form.email).value;
        session.userId == Some(u.id) && session.firstName == Some(u.firstName) && session.email == Some(u.email)
      ensures result != ToDashboard ==>
        session.userId == old(session.userId) && session.firstName == old(session.firstName) &&
        session.email == old(session.email)
    {
      if !modelStateValid {
        return FormShown;
      }
      var user := userRepository.GetUserByEmail(form.email);
      if user.Some? && user.value.passwordHash == form.password {
        session.SignIn(user.value);
        return ToDashboard;
      }
      result := InvalidCredentials;
    }

    /**
     * POST Register: an address already in use is refused; otherwise the new
     * user (id `newUserId`, a fresh GUID, registered at `now`) is stored and
     * signed in.
     */
    method Register(form: RegisterForm, modelStateValid: bool, newUserId: string, now: DateTime)
      returns (result: AccountOutcome)
      requires userRepository.Valid() && KeyFree(userRepository.users, UserKey, newUserId)
      modifies userRepository, session
      ensures userRepository.Valid()
      ensures !modelStateValid ==> result == FormShown && userRepository.users == old(userRepository.users)
      ensures modelStateValid ==>
        userRepository.users == Registered(old(userRepository.users), newUserId, form, now) &&
        (result == ToDashboard <==> !old(userRepository.UserExists(form.email))) &&
        (result != ToDashboard ==> result == EmailTaken)
      ensures result == ToDashboard ==>
        session.userId == Some(newUserId) && userRepository.ValidateUser(form.email, form.password)
      ensures result != ToDashboard ==>
        session.userId == old(session.userId) && session.firstName == old(session.firstName) &&
        session.email == old(session.email)
      ensures UserRepo.UniqueEmails(old(userRepository.users)) ==> UserRepo.UniqueEmails(userRepository.users)
    {
      if !modelStateValid {
        return FormShown;
      }
      var existing := userRepository.GetUserByEmail(form.email);
      if existing.Some? {
        return EmailTaken;
      }
      var user := NewUser(newUserId, form, now);
      RegisteredCanSignIn(userRepository.users, newUserId, form, now);
      var ok := userRepository.Add(user);
      session.SignIn(user);
      result := ToDashboard;
    }

    /** POST Logout: the session is cleared. */
    method Logout() returns (result: AccountOutcome)
      modifies session
      ensures result == ToWelcome && !SignedIn(session.userId)
      ensures session.userId == None && session.firstName == None && session.email == None
    {
      session.Clear();
      result := ToWelcome;
    }
  }
}
