/**
 * The rider registry (Repositories/MongoDB/MongoUserRepository.cs): the
 * "Users" collection, looked up by id and by e-mail address, and the
 * password check used at sign-in.
 */
module UserRepo {
  import opened Models
  import opened Seqs

  /** `u => u.Email == email`. */
  function HasEmail(email: string): User -> bool
  {
    (u: User) => u.email == email
  }

  /** No two users share an e-mail address. */
  predicate UniqueEmails(users: seq<User>)
  {
    forall i, j :: 0 <= i < j < |users| ==> users[i].email != users[j].email
  }

  /** `Find(u => u.Email == email).FirstOrDefault()`. */
  function UserByEmail(users: seq<User>, email: string): (r: Option<User>)
    ensures r.Some? ==> r.value in users && r.value.email == email
    ensures r.None? <==> forall u :: u in users ==> u.email != email
    ensures forall j ::
      (0 <= j < |users| && users[j].email == email &&
       forall k :: 0 <= k < j ==> users[k].email != email) ==>
      r == Some(users[j])
  {
    First(users, HasEmail(email))
  }

  /**
   * ValidateUserAsync: the first user with the address exists and its stored
   * password equals the one typed.
   */
  function PasswordMatches(users: seq<User>, email: string, password: string): (ok: bool)
    ensures ok ==> exists u :: u in users && u.email == email && u.passwordHash == password
    ensures ok <==> UserByEmail(users, email).Some? && UserByEmail(users, email).value.passwordHash == password
  {
    match UserByEmail(users, email)
    case None => false
    case Some(u) => u.passwordHash == password
  }

  /**
   * Once no two users share an address, the check accepts exactly the
   * address/password pairs some stored user has.
   */
  lemma PasswordMatchesUnique(users: seq<User>, email: string, password: string)
    requires UniqueEmails(users)
    ensures PasswordMatches(users, email, password) <==>
      exists u :: u in users && u.email == email && u.passwordHash == password
  {
    if u :| u in users && u.email == email && u.passwordHash == password {
      var j :| 0 <= j < |users| && users[j] == u;
      assert forall k :: 0 <= k < j ==> users[k].email != email;
      assert UserByEmail(users, email) == Some(u);
    }
  }

  /** The "Users" collection, in storage order. */
  class UserRepository {
    var users: seq<User>

    /** `Id` is the document's `_id`, so no two users share one. */
    ghost predicate Valid()
      reads this
    {
      UniqueKeys(users, UserKey)
    }

    constructor (existing: seq<User>)
      requires UniqueKeys(existing, UserKey)
      ensures Valid() && users == existing
    {
      users := existing;
    }

    function GetById(id: string): (r: Option<User>)
      reads this
      ensures r.Some? ==> r.value in users && r.value.id == id
      ensures r.None? <==> forall u :: u in users ==> u.id != id
    {
      FindByKey(users, UserKey, id)
    }

    /** GetUserByIdAsync only forwards to GetByIdAsync. */
    function GetUserById(id: string): (r: Option<User>)
      reads this
      ensures r == GetById(id)
    {
      GetById(id)
    }

    function GetAll(): (r: seq<User>)
      reads this
      ensures multiset(r) == multiset(users)
    {
      users
    }

    function Find(p: User -> bool): (r: seq<User>)
      reads this
      ensures forall u :: multiset(r)[u] == if p(u) then multiset(users)[u] else 0
    {
      Filter(users, p)
    }

    /** The first user, in storage order, with exactly this address. */
    function GetUserByEmail(email: string): (r: Option<User>)
      reads this
      ensures r.Some? ==> r.value in users && r.value.email == email
      ensures r.None? <==> forall u :: u in users ==> u.email != email
      ensures forall j ::
        (0 <= j < |users| && users[j].email == email &&
         forall k :: 0 <= k < j ==> users[k].email != email) ==>
        r == Some(users[j])
    {
      UserByEmail(users, email)
    }

    /** GetByEmailAsync only forwards to GetUserByEmailAsync. */
    function GetByEmail(email: string): (r: Option<User>)
      reads this
      ensures r == GetUserByEmail(email)
    {
      GetUserByEmail(email)
    }

    function UserExists(email: string): (r: bool)
      reads this
      ensures r <==> exists u :: u in users && u.email == email
    {
      UserByEmail(users, email).Some?
    }

    function ValidateUser(email: string, password: string): (ok: bool)
      reads this
      ensures ok <==> GetUserByEmail(email).Some? && GetUserByEmail(email).value.passwordHash == password
      ensures ok ==> exists u :: u in users && u.email == email && u.passwordHash == password
      ensures !UserExists(email) ==> !ok
    {
      PasswordMatches(users, email, password)
    }

    /** InsertOne; a duplicate `_id` is refused and stores nothing. */
    method Add(u: User) returns (ok: bool)
      requires Valid()
      modifies this
      ensures Valid()
      ensures ok <==> KeyFree(old(users), UserKey, u.id)
      ensures users == if ok then old(users) + [u] else old(users)
    {
      ok := FindByKey(users, UserKey, u.id).None?;
      if ok {
        UniqueKeysAppend(users, UserKey, u);
        users := users + [u];
      }
    }

    /** ReplaceOne by id. */
    method Update(u: User)
      requires Valid()
      modifies this
      ensures Valid() && users == ReplaceByKey(old(users), UserKey, u)
    {
      users := ReplaceByKey(users, UserKey, u);
    }

    /** DeleteOne by id. */
    method Delete(id: string)
      requires Valid()
      modifies this
      ensures Valid() && users == DeleteByKey(old(users), UserKey, id)
      ensures KeyFree(users, UserKey, id)
    {
      users := DeleteByKey(users, UserKey, id);
    }
  }
}
