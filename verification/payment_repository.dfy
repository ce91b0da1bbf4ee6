/**
 * The payment store (Repositories/MongoDB/MongoPaymentRepository.cs): the
 * "Payments" collection, the payer and booking snapshots it fills in, and
 * the simulated settlement of digital payments.
 */
module PaymentRepo {
  import opened Models
  import opened Seqs
  import UserRepo
  import BookingRepo

  // ------------------------------------------------------- related data

  /**
   * LoadRelatedData(Payment): a missing payer snapshot is looked up by the
   * user id in `users`; a missing booking snapshot is what the booking store's
   * GetByIdAsync gives for the booking id, itself loaded from `cabs` and
   * `bookingUsers`. A snapshot already present and an empty id are left alone.
   */
  function LoadPayment(p: Payment, users: seq<User>, bookings: seq<Booking>, cabs: seq<Cab>, bookingUsers: seq<User>): (r: Payment)
    ensures r.(user := p.user, booking := p.booking) == p
    ensures p.user.Some? ==> r.user == p.user
    ensures p.user.None? && r.user.Some? ==> p.userId != "" && r.user.value in users && r.user.value.id == p.userId
    ensures p.user.None? && p.userId != "" && !KeyFree(users, UserKey, p.userId) ==> r.user.Some?
    ensures p.booking.Some? ==> r.booking == p.booking
    ensures p.booking.None? && r.booking.Some? ==>
      p.bookingId != "" && r.booking.value.id == p.bookingId &&
      exists b :: b in bookings && r.booking.value == BookingRepo.LoadBooking(b, cabs, bookingUsers)
    ensures p.booking.None? && p.bookingId != "" && !KeyFree(bookings, BookingKey, p.bookingId) ==> r.booking.Some?
  {
    var withUser :=
      if p.userId != "" && p.user.None? then p.(user := FindByKey(users, UserKey, p.userId)) else p;
    if withUser.bookingId != "" && withUser.booking.None? then
      withUser.(booking :=
        match FindByKey(bookings, BookingKey, withUser.bookingId)
        case None => None
        case Some(b) => Some(BookingRepo.LoadBooking(b, cabs, bookingUsers)))
    else
      withUser
  }

  function PaymentLoader(users: seq<User>, bookings: seq<Booking>, cabs: seq<Cab>, bookingUsers: seq<User>): Payment -> Payment
  {
    (p: Payment) => LoadPayment(p, users, bookings, cabs, bookingUsers)
  }

  /** LoadRelatedData(List<Payment>): every payment of the list, loaded. */
  function LoadPayments(ps: seq<Payment>, users: seq<User>, bookings: seq<Booking>, cabs: seq<Cab>, bookingUsers: seq<User>): (r: seq<Payment>)
    ensures |r| == |ps|
    ensures forall i :: 0 <= i < |ps| ==> r[i] == LoadPayment(ps[i], users, bookings, cabs, bookingUsers)
  {
    Map(ps, PaymentLoader(users, bookings, cabs, bookingUsers))
  }

  function OfPayer(userId: string): Payment -> bool
  {
    (p: Payment) => p.userId == userId
  }

  function ForBooking(bookingId: string): Payment -> bool
  {
    (p: Payment) => p.bookingId == bookingId
  }

  // --------------------------------------------------------- settlement

  /**
   * The outcome ProcessPaymentAsync writes for a digital payment: a success
   * completes it with a transaction id "TXN" followed by the time stamp; a
   * failure marks it failed and keeps whatever transaction id it had.
   */
  function Settle(p: Payment, success: bool, stamp: string): (r: Payment)
    ensures r.(status := p.status, transactionId := p.transactionId) == p
    ensures success ==> r.status == PaymentStatus.Completed && r.transactionId == Some("TXN" + stamp)
    ensures !success ==> r.status == Failed && r.transactionId == p.transactionId
  {
    if success then p.(status := PaymentStatus.Completed, transactionId := Some("TXN" + stamp))
    else p.(status := Failed)
  }

  // --------------------------------------------------------- the store

  /** The "Payments" collection, in storage order, and the stores it loads from. */
  class PaymentRepository {
    var payments: seq<Payment>
    const userRepository: UserRepo.UserRepository
    const bookingRepository: BookingRepo.BookingRepository

    /** `Id` is the document's `_id`, so no two payments share one. */
    ghost predicate Valid()
      reads this
    {
      UniqueKeys(payments, PaymentKey)
    }

    constructor (existing: seq<Payment>, userRepository: UserRepo.UserRepository, bookingRepository: BookingRepo.BookingRepository)
      requires UniqueKeys(existing, PaymentKey)
      ensures Valid() && payments == existing
      ensures this.userRepository == userRepository && this.bookingRepository == bookingRepository
    {
      payments := existing;
      this.userRepository := userRepository;
      this.bookingRepository := bookingRepository;
    }

    /** A payment with its snapshots filled in from the current stores. */
    function Loaded(p: Payment): Payment
      reads userRepository, bookingRepository, bookingRepository.cabRepository, bookingRepository.userRepository
    {
      LoadPayment(p, userRepository.users, bookingRepository.bookings,
        bookingRepository.cabRepository.cabs, bookingRepository.userRepository.users)
    }

    function GetById(id: string): (r: Option<Payment>)
      reads this, userRepository, bookingRepository, bookingRepository.cabRepository, bookingRepository.userRepository
      ensures r.None? <==> KeyFree(payments, PaymentKey, id)
      ensures r.Some? ==> r.value.id == id && exists p :: p in payments && r.value == Loaded(p)
    {
      match FindByKey(payments, PaymentKey, id)
      case None => None
      case Some(p) => Some(Loaded(p))
    }

    /** The first payment recorded for the booking, loaded. */
    function GetPaymentByBookingId(bookingId: string): (r: Option<Payment>)
      reads this, userRepository, bookingRepository, bookingRepository.cabRepository, bookingRepository.userRepository
      ensures r.None? <==> forall p :: p in payments ==> p.bookingId != bookingId
      ensures forall j ::
        (0 <= j < |payments| && payments[j].bookingId == bookingId &&
         forall k :: 0 <= k < j ==> payments[k].bookingId != bookingId) ==>
        r == Some(Loaded(payments[j]))
    {
      match First(payments, ForBooking(bookingId))
      case None => None
      case Some(p) => Some(Loaded(p))
    }

    /** LoadRelatedData(List<Payment>), one payment at a time. */
    method LoadRelatedData(ps: seq<Payment>) returns (r: seq<Payment>)
      ensures r == LoadPayments(ps, userRepository.users, bookingRepository.bookings,
        bookingRepository.cabRepository.cabs, bookingRepository.userRepository.users)
    {
      r := [];
      var i := 0;
      while i < |ps|
        invariant 0 <= i <= |ps|
        invariant |r| == i
        invariant forall k :: 0 <= k < i ==> r[k] == Loaded(ps[k])
      {
        r := r + [Loaded(ps[i])];
        i := i + 1;
      }
    }

    method GetAll() returns (r: seq<Payment>)
      ensures r == LoadPayments(payments, userRepository.users, bookingRepository.bookings,
        bookingRepository.cabRepository.cabs, bookingRepository.userRepository.users)
    {
      r := LoadRelatedData(payments);
    }

    method Find(p: Payment -> bool) returns (r: seq<Payment>)
      ensures r == LoadPayments(Filter(payments, p), userRepository.users, bookingRepository.bookings,
        bookingRepository.cabRepository.cabs, bookingRepository.userRepository.users)
    {
      r := LoadRelatedData(Filter(payments, p));
    }

    /** The user's payments, loaded, newest first. */
    method GetUserPayments(userId: string) returns (r: seq<Payment>)
      ensures SortedDesc(r, PaymentDateOf)
      ensures multiset(r) ==
        multiset(LoadPayments(Filter(payments, OfPayer(userId)), userRepository.users, bookingRepository.bookings,
          bookingRepository.cabRepository.cabs, bookingRepository.userRepository.users))
      ensures forall p :: p in r ==> p.userId == userId
    {
      var mine := Filter(payments, OfPayer(userId));
      var sorted := SortDesc(mine, PaymentDateOf);
      r := LoadRelatedData(sorted);
      var f := PaymentLoader(userRepository.users, bookingRepository.bookings,
        bookingRepository.cabRepository.cabs, bookingRepository.userRepository.users);
      SortedMap(sorted, f, PaymentDateOf);
      MapPerm(sorted, mine, f);
      forall p | p in r
        ensures p.userId == userId
      {
        var i :| 0 <= i < |r| && r[i] == p;
        assert sorted[i] in multiset(mine);
      }
    }

    /** Every payment, loaded, newest first. */
    method GetPaymentsWithDetails() returns (r: seq<Payment>)
      ensures SortedDesc(r, PaymentDateOf)
      ensures multiset(r) ==
        multiset(LoadPayments(payments, userRepository.users, bookingRepository.bookings,
          bookingRepository.cabRepository.cabs, bookingRepository.userRepository.users))
    {
      var sorted := SortDesc(payments, PaymentDateOf);
      r := LoadRelatedData(sorted);
      var f := PaymentLoader(userRepository.users, bookingRepository.bookings,
        bookingRepository.cabRepository.cabs, bookingRepository.userRepository.users);
      SortedMap(sorted, f, PaymentDateOf);
      MapPerm(sorted, payments, f);
    }

    /** InsertOne; a duplicate `_id` is refused and stores nothing. */
    method Add(p: Payment) returns (ok: bool)
      requires Valid()
      modifies this
      ensures Valid()
      ensures ok <==> KeyFree(old(payments), PaymentKey, p.id)
      ensures payments == if ok then old(payments) + [p] else old(payments)
    {
      ok := FindByKey(payments, PaymentKey, p.id).None?;
      if ok {
        UniqueKeysAppend(payments, PaymentKey, p);
        payments := payments + [p];
      }
    }

    /** ReplaceOne by id. */
    method Update(p: Payment)
      requires Valid()
      modifies this
      ensures Valid() && payments == ReplaceByKey(old(payments), PaymentKey, p)
    {
      payments := ReplaceByKey(payments, PaymentKey, p);
    }

    /** DeleteOne by id. */
    method Delete(id: string)
      requires Valid()
      modifies this
      ensures Valid() && payments == DeleteByKey(old(payments), PaymentKey, id)
      ensures KeyFree(payments, PaymentKey, id)
    {
      payments := DeleteByKey(payments, PaymentKey, id);
    }

    /**
     * ProcessPaymentAsync. A cash payment is reported paid and nothing is
     * written. A digital one succeeds when `success` (the simulated 90% draw)
     * holds; it is settled accordingly and written back over the stored copy.
     */
    method ProcessPayment(payment: Payment, success: bool, stamp: string) returns (ok: bool)
      requires Valid()
      modifies this
      ensures Valid()
      ensures payment.paymentMethod == Cash ==> ok && payments == old(payments)
      ensures payment.paymentMethod != Cash ==>
        ok == success && payments == ReplaceByKey(old(payments), PaymentKey, Settle(payment, success, stamp))
    {
      if payment.paymentMethod == Cash {
        return true;
      }
      var settled := Settle(payment, success, stamp);
      Update(settled);
      ok := success;
    }
  }
}
