/**
 * The ride store (Repositories/MongoDB/MongoBookingRepository.cs): the
 * "Bookings" collection. Every booking it hands out has its cab and user
 * snapshots filled in from the cab and user registries when they are
 * missing.
 */
module BookingRepo {
  import opened Models
  import opened Seqs
  import CabRepo
  import UserRepo

  // ------------------------------------------------------- related data

  /**
   * LoadRelatedData(Booking): a missing cab snapshot is looked up by the
   * booking's cab id, a missing user snapshot by its user id; a snapshot
   * already present and an empty id are left alone.
   */
  function LoadBooking(b: Booking, cabs: seq<Cab>, users: seq<User>): (r: Booking)
    ensures r.(cab := b.cab, user := b.user) == b
    ensures b.cab.Some? ==> r.cab == b.cab
    ensures b.cab.None? && r.cab.Some? ==> b.cabId != "" && r.cab.value in cabs && r.cab.value.id == b.cabId
    ensures b.cab.None? && b.cabId != "" && !KeyFree(cabs, CabKey, b.cabId) ==> r.cab.Some?
    ensures b.user.Some? ==> r.user == b.user
    ensures b.user.None? && r.user.Some? ==> b.userId != "" && r.user.value in users && r.user.value.id == b.userId
    ensures b.user.None? && b.userId != "" && !KeyFree(users, UserKey, b.userId) ==> r.user.Some?
  {
    var withCab :=
      if b.cabId != "" && b.cab.None? then b.(cab := FindByKey(cabs, CabKey, b.cabId)) else b;
    if withCab.userId != "" && withCab.user.None? then
      withCab.(user := FindByKey(users, UserKey, withCab.userId))
    else
      withCab
  }

  /** Loading twice against the same registries gives what loading once gave. */
  lemma LoadBookingIdempotent(b: Booking, cabs: seq<Cab>, users: seq<User>)
    ensures LoadBooking(LoadBooking(b, cabs, users), cabs, users) == LoadBooking(b, cabs, users)
  {
  }

  function Loader(cabs: seq<Cab>, users: seq<User>): Booking -> Booking
  {
    (b: Booking) => LoadBooking(b, cabs, users)
  }

  /** LoadRelatedData(List<Booking>): every booking of the list, loaded. */
  function LoadBookings(bs: seq<Booking>, cabs: seq<Cab>, users: seq<User>): (r: seq<Booking>)
    ensures |r| == |bs|
    ensures forall i :: 0 <= i < |bs| ==> r[i] == LoadBooking(bs[i], cabs, users)
  {
    Map(bs, Loader(cabs, users))
  }

  /** Loading keeps the booking time, so a list sorted newest first stays so. */
  lemma LoadBookingsSorted(bs: seq<Booking>, cabs: seq<Cab>, users: seq<User>)
    requires SortedDesc(bs, BookingTimeOf)
    ensures SortedDesc(LoadBookings(bs, cabs, users), BookingTimeOf)
  {
    SortedMap(bs, Loader(cabs, users), BookingTimeOf);
  }

  /** Loading a reordering of a list gives a reordering of the loaded list. */
  lemma LoadBookingsPerm(a: seq<Booking>, b: seq<Booking>, cabs: seq<Cab>, users: seq<User>)
    requires multiset(a) == multiset(b)
    ensures multiset(LoadBookings(a, cabs, users)) == multiset(LoadBookings(b, cabs, users))
  {
    MapPerm(a, b, Loader(cabs, users));
  }

  // ------------------------------------------------------------ filters

  function OfUser(userId: string): Booking -> bool
  {
    (b: Booking) => b.userId == userId
  }

  function WithStatus(status: BookingStatus): Booking -> bool
  {
    (b: Booking) => b.status == status
  }

  /** GetAvailableBookingsAsync's filter: Pending or Confirmed. */
  predicate IsOpen(b: Booking)
  {
    b.status == BookingStatus.Pending || b.status == Confirmed
  }

  /**
   * The number of documents `Limit(count)` lets through out of `size`: zero
   * means no limit, and a negative limit counts as its magnitude.
   */
  function LimitOf(count: int, size: nat): (n: nat)
    ensures n <= size
    ensures count == 0 ==> n == size
    ensures count != 0 && size > 0 ==> n > 0
    ensures count > 0 ==> n <= count
    ensures count < 0 ==> n <= -count
    ensures count != 0 ==> n == size || n == (if count < 0 then -count else count)
  {
    var m := if count < 0 then -count else count;
    if count == 0 || m >= size then size else m
  }

  /**
   * Of a list sorted newest first, the first `n` are at least as new as every
   * one after them: what GetRecentBookingsAsync returns are the newest.
   */
  lemma SortedPrefixNewest<T(!new)>(s: seq<T>, key: T -> DateTime, n: nat)
    requires SortedDesc(s, key) && n <= |s|
    ensures forall x, y :: x in s[..n] && y in s[n..] ==> NotAfter(key(y), key(x))
  {
    forall x, y | x in s[..n] && y in s[n..]
      ensures NotAfter(key(y), key(x))
    {
      var i :| 0 <= i < n && s[i] == x;
      var j :| 0 <= j < |s[n..]| && s[n..][j] == y;
      assert s[n + j] == y;
    }
  }

  // -------------------------------------------------------- the store

  /** The "Bookings" collection, in storage order, and the registries it loads from. */
  class BookingRepository {
    var bookings: seq<Booking>
    const cabRepository: CabRepo.CabRepository
    const userRepository: UserRepo.UserRepository

    /** `Id` is the document's `_id`, so no two bookings share one. */
    ghost predicate Valid()
      reads this
    {
      UniqueKeys(bookings, BookingKey)
    }

    constructor (existing: seq<Booking>, cabRepository: CabRepo.CabRepository, userRepository: UserRepo.UserRepository)
      requires UniqueKeys(existing, BookingKey)
      ensures Valid() && bookings == existing
      ensures this.cabRepository == cabRepository && this.userRepository == userRepository
    {
      bookings := existing;
      this.cabRepository := cabRepository;
      this.userRepository := userRepository;
    }

    /** The stored booking with the id, loaded; None when there is none. */
    function GetById(id: string): (r: Option<Booking>)
      reads this, cabRepository, userRepository
      ensures r.None? <==> KeyFree(bookings, BookingKey, id)
      ensures r.Some? ==> r.value.id == id
      ensures r.Some? ==>
        exists b :: b in bookings && r.value == LoadBooking(b, cabRepository.cabs, userRepository.users)
    {
      match FindByKey(bookings, BookingKey, id)
      case None => None
      case Some(b) => Some(LoadBooking(b, cabRepository.cabs, userRepository.users))
    }

    /** LoadRelatedData(List<Booking>), one booking at a time. */
    method LoadRelatedData(bs: seq<Booking>) returns (r: seq<Booking>)
      ensures r == LoadBookings(bs, cabRepository.cabs, userRepository.users)
    {
      r := [];
      var i := 0;
      while i < |bs|
        invariant 0 <= i <= |bs|
        invariant |r| == i
        invariant forall k :: 0 <= k < i ==> r[k] == LoadBooking(bs[k], cabRepository.cabs, userRepository.users)
      {
        r := r + [LoadBooking(bs[i], cabRepository.cabs, userRepository.users)];
        i := i + 1;
      }
    }

    method GetAll() returns (r: seq<Booking>)
      ensures r == LoadBookings(bookings, cabRepository.cabs, userRepository.users)
    {
      r := LoadRelatedData(bookings);
    }

    method Find(p: Booking -> bool) returns (r: seq<Booking>)
      ensures r == LoadBookings(Filter(bookings, p), cabRepository.cabs, userRepository.users)
    {
      r := LoadRelatedData(Filter(bookings, p));
    }

    /** The user's bookings, loaded, newest first. */
    method GetUserBookings(userId: string) returns (r: seq<Booking>)
      ensures SortedDesc(r, BookingTimeOf)
      ensures multiset(r) ==
        multiset(LoadBookings(Filter(bookings, OfUser(userId)), cabRepository.cabs, userRepository.users))
      ensures forall b :: b in r ==> b.userId == userId
    {
      var mine := Filter(bookings, OfUser(userId));
      var sorted := SortDesc(mine, BookingTimeOf);
      r := LoadRelatedData(sorted);
      LoadBookingsSorted(sorted, cabRepository.cabs, userRepository.users);
      LoadBookingsPerm(sorted, mine, cabRepository.cabs, userRepository.users);
      forall b | b in r
        ensures b.userId == userId
      {
        var i :| 0 <= i < |r| && r[i] == b;
        assert sorted[i] in multiset(mine);
      }
    }

    /** Pending and Confirmed bookings, loaded, in storage order. */
    method GetAvailableBookings() returns (r: seq<Booking>)
      ensures r == LoadBookings(Filter(bookings, IsOpen), cabRepository.cabs, userRepository.users)
      ensures forall b :: b in r ==> IsOpen(b)
    {
      var open := Filter(bookings, IsOpen);
      r := LoadRelatedData(open);
      forall b | b in r
        ensures IsOpen(b)
      {
        var i :| 0 <= i < |r| && r[i] == b;
        assert open[i] in open;
      }
    }

    /** The bookings in one status, loaded, newest first. */
    method GetBookingsByStatus(status: BookingStatus) returns (r: seq<Booking>)
      ensures SortedDesc(r, BookingTimeOf)
      ensures multiset(r) ==
        multiset(LoadBookings(Filter(bookings, WithStatus(status)), cabRepository.cabs, userRepository.users))
      ensures forall b :: b in r ==> b.status == status
    {
      var these := Filter(bookings, WithStatus(status));
      var sorted := SortDesc(these, BookingTimeOf);
      r := LoadRelatedData(sorted);
      LoadBookingsSorted(sorted, cabRepository.cabs, userRepository.users);
      LoadBookingsPerm(sorted, these, cabRepository.cabs, userRepository.users);
      forall b | b in r
        ensures b.status == status
      {
        var i :| 0 <= i < |r| && r[i] == b;
        assert sorted[i] in multiset(these);
      }
    }

    /**
     * The newest bookings, as many as `Limit(count)` lets through, loaded and
     * newest first; every booking left out is no newer than those returned.
     */
    method GetRecentBookings(count: int) returns (r: seq<Booking>)
      ensures |r| == LimitOf(count, |bookings|)
      ensures SortedDesc(r, BookingTimeOf)
      ensures exists s: seq<Booking> ::
        |s| == |bookings| && multiset(s) == multiset(bookings) && SortedDesc(s, BookingTimeOf) &&
        r == LoadBookings(s[..|r|], cabRepository.cabs, userRepository.users)
    {
      var sorted := SortDesc(bookings, BookingTimeOf);
      var n := LimitOf(count, |bookings|);
      assert |sorted| == |bookings| by {
        assert |multiset(sorted)| == |multiset(bookings)|;
      }
      var newest := sorted[..n];
      assert SortedDesc(newest, BookingTimeOf);
      r := LoadRelatedData(newest);
      LoadBookingsSorted(newest, cabRepository.cabs, userRepository.users);
    }

    /** Every booking, loaded, newest first. */
    method GetBookingsWithDetails() returns (r: seq<Booking>)
      ensures SortedDesc(r, BookingTimeOf)
      ensures multiset(r) == multiset(LoadBookings(bookings, cabRepository.cabs, userRepository.users))
    {
      var sorted := SortDesc(bookings, BookingTimeOf);
      r := LoadRelatedData(sorted);
      LoadBookingsSorted(sorted, cabRepository.cabs, userRepository.users);
      LoadBookingsPerm(sorted, bookings, cabRepository.cabs, userRepository.users);
    }

    /** InsertOne; a duplicate `_id` is refused and stores nothing. */
    method Add(b: Booking) returns (ok: bool)
      requires Valid()
      modifies this
      ensures Valid()
      ensures ok <==> KeyFree(old(bookings), BookingKey, b.id)
      ensures bookings == if ok then old(bookings) + [b] else old(bookings)
    {
      ok := FindByKey(bookings, BookingKey, b.id).None?;
      if ok {
        UniqueKeysAppend(bookings, BookingKey, b);
        bookings := bookings + [b];
      }
    }

    /** ReplaceOne by id. */
    method Update(b: Booking)
      requires Valid()
      modifies this
      ensures Valid() && bookings == ReplaceByKey(old(bookings), BookingKey, b)
    {
      bookings := ReplaceByKey(bookings, BookingKey, b);
    }

    /** DeleteOne by id. */
    method Delete(id: string)
      requires Valid()
      modifies this
      ensures Valid() && bookings == DeleteByKey(old(bookings), BookingKey, id)
      ensures KeyFree(bookings, BookingKey, id)
    {
      bookings := DeleteByKey(bookings, BookingKey, id);
    }
  }
}
