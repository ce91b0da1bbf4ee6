/**
 * Paying for a ride (CabBookingSystem/Controllers/PaymentController.cs): the
 * payment page, recording and settling a payment, confirming the booking it
 * pays for, and the payment views.
 */
module PaymentCtrl {
  import opened Models
  import opened Seqs
  import opened Sessions
  import UserRepo
  import BookingRepo
  import PaymentRepo

  // ---------------------------------------------------------- the form

  /** The payment form (PaymentViewModel); the optional fields may be null. */
  datatype PaymentForm = PaymentForm(
    bookingId: string,
    amount: real,
    paymentMethod: string,
    cardNumber: Option<string>,
    cardHolderName: Option<string>,
    expiryDate: Option<string>,
    cvv: Option<string>,
    upiId: Option<string>,
    walletType: Option<string>)

  /** How string interpolation shows a string that may be null. */
  function Shown(s: Option<string>): string
  {
    match s
    case None => ""
    case Some(v) => v
  }

  /** `s.Substring(Math.Max(0, s.Length - 4))`: the last four characters, or all of a shorter string. */
  function LastFour(s: string): (r: string)
    ensures |r| == if |s| < 4 then |s| else 4
    ensures r == s[|s| - |r|..]
  {
    if |s| < 4 then s else s[|s| - 4..]
  }

  predicate IsCardMethod(paymentMethod: string)
  {
    paymentMethod == "CreditCard" || paymentMethod == "DebitCard"
  }

  /**
   * GetPaymentDetails: the line stored with a payment. A card shows only its
   * last four digits (nothing when no number was given); UPI and wallet
   * payments show the id or wallet type as entered.
   */
  function GetPaymentDetails(form: PaymentForm): (r: string)
    ensures IsCardMethod(form.paymentMethod) ==>
      6 <= |r| <= 10 && r[..6] == "Card: " &&
      (form.cardNumber.None? ==> r == "Card: ") &&
      (form.cardNumber.Some? ==> r[6..] == LastFour(form.cardNumber.value))
    ensures form.paymentMethod == "UPI" ==> r == "UPI: " + Shown(form.upiId)
    ensures form.paymentMethod == "Wallet" ==> r == "Wallet: " + Shown(form.walletType)
    ensures form.paymentMethod == "Cash" ==> r == "Cash Payment"
    ensures ParsePaymentMethod(form.paymentMethod).None? ==> r == "Unknown"
  {
    if IsCardMethod(form.paymentMethod) then
      "Card: " + (match form.cardNumber case None => "" case Some(c) => LastFour(c))
    else if form.paymentMethod == "UPI" then "UPI: " + Shown(form.upiId)
    else if form.paymentMethod == "Wallet" then "Wallet: " + Shown(form.walletType)
    else if form.paymentMethod == "Cash" then "Cash Payment"
    else "Unknown"
  }

  /** The stored line never holds more than four characters of the card number. */
  lemma CardNumberMasked(form: PaymentForm)
    requires IsCardMethod(form.paymentMethod) && form.cardNumber.Some?
    ensures GetPaymentDetails(form) == "Card: " + LastFour(form.cardNumber.value)
    ensures |GetPaymentDetails(form)| - 6 <= 4
  {
  }

  // ------------------------------------------------------ payment page

  datatype PayPageOutcome =
    | PayLoginRequired
    | PayNotFound
    | AlreadyPaid(paymentId: string)
    | PayForm(bookingId: string, amount: real, userName: string, booking: Booking)

  /** The session's user is signed in and owns the booking looked up. */
  predicate OwnedBy(userId: Option<string>, booking: Option<Booking>)
  {
    SignedIn(userId) && booking.Some? && booking.value.userId == userId.value
  }

  /**
   * GET Payment, given what it looks up: the session's user id, the loaded
   * booking, the user, and the stored payments. Only the FIRST payment stored
   * for the booking is checked for completion.
   */
  function PayPage(userId: Option<string>, bookingId: string, booking: Option<Booking>, user: Option<User>, payments: seq<Payment>): (r: PayPageOutcome)
    ensures !SignedIn(userId) <==> r == PayLoginRequired
    ensures r == PayNotFound <==> SignedIn(userId) && !OwnedBy(userId, booking)
    ensures r.AlreadyPaid? ==>
      exists p :: p in payments && p.bookingId == bookingId && p.status == PaymentStatus.Completed && p.id == r.paymentId
    ensures r.PayForm? ==>
      booking == Some(r.booking) && Some(r.booking.userId) == userId && r.bookingId == bookingId &&
      r.amount == r.booking.fare && r.userName == DisplayName(user)
    ensures OwnedBy(userId, booking) ==>
      forall j ::
        (0 <= j < |payments| && payments[j].bookingId == bookingId &&
         forall k :: 0 <= k < j ==> payments[k].bookingId != bookingId) ==>
        (r == AlreadyPaid(payments[j].id) <==> payments[j].status == PaymentStatus.Completed) &&
        (r.PayForm? <==> payments[j].status != PaymentStatus.Completed)
    ensures OwnedBy(userId, booking) && (forall p :: p in payments ==> p.bookingId != bookingId) ==> r.PayForm?
  {
    if !SignedIn(userId) then PayLoginRequired
    else if booking.None? || booking.value.userId != userId.value then PayNotFound
    else
      match First(payments, PaymentRepo.ForBooking(bookingId))
      case Some(p) =>
        if p.status == PaymentStatus.Completed then AlreadyPaid(p.id)
        else PayForm(bookingId, booking.value.fare, DisplayName(user), booking.value)
      case None => PayForm(bookingId, booking.value.fare, DisplayName(user), booking.value)
  }

  /**
   * A first attempt that failed, then a retry that succeeded: the booking is
   * paid, yet the payment page offers to take payment again.
   */
  lemma PayPageAfterRetry()
    ensures var now := DateTime(2025, 1, 0);
      var b := Booking("b1", "A", "B", "", "", "", "", "c1", None, "Mini", 5.0, 85.0, Confirmed, now, "u1", None);
      var failed := Payment("p1", "b1", None, "u1", None, 85.0, UPI, Failed, now, None, "UPI: x");
      var paid := Payment("p2", "b1", None, "u1", None, 85.0, UPI, PaymentStatus.Completed, now, Some("TXN1"), "UPI: x");
      paid in [failed, paid] && paid.status == PaymentStatus.Completed &&
      PayPage(Some("u1"), "b1", Some(b), None, [failed, paid]).PayForm? &&
      PayPageIntended(Some("u1"), "b1", Some(b), None, [failed, paid]) == AlreadyPaid("p2")
  {
    var now := DateTime(2025, 1, 0);
    var failed := Payment("p1", "b1", None, "u1", None, 85.0, UPI, Failed, now, None, "UPI: x");
    var paid := Payment("p2", "b1", None, "u1", None, 85.0, UPI, PaymentStatus.Completed, now, Some("TXN1"), "UPI: x");
    assert First([failed, paid], PaymentRepo.ForBooking("b1")) == Some(failed);
    assert !PaidFor("b1")(failed) && PaidFor("b1")(paid);
    assert [failed, paid][0] == failed && [failed, paid][1] == paid;
    assert First([failed, paid], PaidFor("b1")) == Some(paid);
  }

  /** `p => p.BookingId == bookingId && p.Status == PaymentStatus.Completed`. */
  function PaidFor(bookingId: string): Payment -> bool
  {
    (p: Payment) => p.bookingId == bookingId && p.status == PaymentStatus.Completed
  }

  /**
   * The payment page as evidently intended: it redirects when ANY stored
   * payment for the booking is completed, and offers the form only when none is.
   */
  function PayPageIntended(userId: Option<string>, bookingId: string, booking: Option<Booking>, user: Option<User>, payments: seq<Payment>): (r: PayPageOutcome)
    ensures !SignedIn(userId) <==> r == PayLoginRequired
    ensures r == PayNotFound <==> SignedIn(userId) && !OwnedBy(userId, booking)
    ensures r.AlreadyPaid? <==>
      OwnedBy(userId, booking) &&
      exists p :: p in payments && p.bookingId == bookingId && p.status == PaymentStatus.Completed
    ensures r.AlreadyPaid? ==>
      exists p :: p in payments && p.bookingId == bookingId && p.status == PaymentStatus.Completed && p.id == r.paymentId
    ensures r.PayForm? ==>
      booking == Some(r.booking) && Some(r.booking.userId) == userId && r.bookingId == bookingId &&
      r.amount == r.booking.fare && r.userName == DisplayName(user)
    ensures r.PayForm? <==>
      OwnedBy(userId, booking) &&
      forall p :: p in payments && p.bookingId == bookingId ==> p.status != PaymentStatus.Completed
  {
    if !SignedIn(userId) then PayLoginRequired
    else if booking.None? || booking.value.userId != userId.value then PayNotFound
    else
      match First(payments, PaidFor(bookingId))
      case Some(p) => AlreadyPaid(p.id)
      case None => PayForm(bookingId, booking.value.fare, DisplayName(user), booking.value)
  }

  // ------------------------------------------------------ the controller

  datatype ProcessOutcome =
    | FormRedisplayed
    | ProcessLoginRequired
    | ProcessNotFound
    | MethodNotParsed
    | PaymentSucceeded(paymentId: string)
    | PaymentFailed(paymentId: string)

  datatype PaymentView = PaymentNotFound | PaymentForbidden | PaymentShown(payment: Payment)

  datatype PaymentList = ListLoginRequired | PaymentsListed(payments: seq<Payment>, userName: string)

  /** The payment a request records once settled: cash is completed on the spot, digital goes through Settle. */
  function FinalPayment(p: Payment, success: bool, stamp: string): (r: Payment)
    ensures r.id == p.id && r.bookingId == p.bookingId && r.amount == p.amount
    ensures r.status == PaymentStatus.Completed <==> p.paymentMethod == Cash || success
    ensures p.paymentMethod == Cash ==> r.transactionId == None
  {
    if p.paymentMethod == Cash then p.(status := PaymentStatus.Completed, transactionId := None)
    else PaymentRepo.Settle(p, success, stamp)
  }

  /** What a POST ProcessPayment answers, and the payment and booking stores it leaves. */
  datatype ProcessEffect = ProcessEffect(result: ProcessOutcome, payments: seq<Payment>, bookings: seq<Booking>)

  /**
   * POST ProcessPayment on values: the session's user id, the loaded booking
   * GetByIdAsync found, the users, and the two stores before the request.
   * After the form, session and ownership checks, a payment for the form's
   * amount is recorded and settled (cash is completed at once, a digital
   * payment succeeds when `success` holds); a paid booking is written back,
   * loaded, as Confirmed. A method name Enum.Parse rejects throws before
   * anything is written.
   */
  function ProcessPaymentSpec(
    form: PaymentForm, modelStateValid: bool, userId: Option<string>, found: Option<Booking>, users: seq<User>,
    payments: seq<Payment>, bookings: seq<Booking>,
    paymentId: string, success: bool, stamp: string, now: DateTime): (e: ProcessEffect)
    requires UniqueKeys(bookings, BookingKey)
    requires found.Some? ==> found.value.id == form.bookingId && !KeyFree(bookings, BookingKey, form.bookingId)
    ensures (e.result.PaymentSucceeded? || e.result.PaymentFailed?) <==>
      modelStateValid && SignedIn(userId) && found.Some? && found.value.userId == userId.value &&
      ParsePaymentMethod(form.paymentMethod).Some?
    ensures !(e.result.PaymentSucceeded? || e.result.PaymentFailed?) ==>
      e.payments == payments && e.bookings == bookings
    ensures e.result.PaymentSucceeded? || e.result.PaymentFailed? ==>
      |e.payments| == |payments| + 1 && e.payments[..|payments|] == payments &&
      e.payments[|payments|].id == paymentId && e.payments[|payments|].bookingId == form.bookingId &&
      Some(e.payments[|payments|].userId) == userId && e.payments[|payments|].amount == form.amount &&
      e.payments[|payments|].paymentDate == now && e.payments[|payments|].booking == found
    ensures e.result.PaymentSucceeded? || e.result.PaymentFailed? ==>
      e.payments[|payments|].paymentMethod == ParsePaymentMethod(form.paymentMethod).value &&
      e.payments[|payments|].paymentDetails == GetPaymentDetails(form) &&
      e.payments[|payments|].user == FindByKey(users, UserKey, userId.value)
    ensures e.result.PaymentSucceeded? ==>
      e.result.paymentId == paymentId && e.payments[|payments|].status == PaymentStatus.Completed &&
      e.bookings == ReplaceByKey(bookings, BookingKey, found.value.(status := Confirmed)) &&
      UniqueKeys(e.bookings, BookingKey) &&
      FindByKey(e.bookings, BookingKey, form.bookingId) == Some(found.value.(status := Confirmed))
    ensures e.result.PaymentFailed? ==>
      e.result.paymentId == paymentId && e.payments[|payments|].status == Failed && e.bookings == bookings
    ensures (e.result.PaymentSucceeded? || e.result.PaymentFailed?) ==>
      (e.result.PaymentSucceeded? <==> ParsePaymentMethod(form.paymentMethod).value == Cash || success)
    ensures e.result.PaymentFailed? ==> e.payments[|payments|].transactionId == None
    ensures e.result.PaymentSucceeded? || e.result.PaymentFailed? ==>
      (e.payments[|payments|].paymentMethod == Cash ==> e.payments[|payments|].transactionId == None) &&
      (e.result.PaymentSucceeded? && e.payments[|payments|].paymentMethod != Cash ==>
        e.payments[|payments|].transactionId == Some("TXN" + stamp))
  {
    if !modelStateValid then ProcessEffect(FormRedisplayed, payments, bookings)
    else if !SignedIn(userId) then ProcessEffect(ProcessLoginRequired, payments, bookings)
    else if found.None? || found.value.userId != userId.value then ProcessEffect(ProcessNotFound, payments, bookings)
    else
      match ParsePaymentMethod(form.paymentMethod)
      case None => ProcessEffect(MethodNotParsed, payments, bookings)
      case Some(m) =>
        var recorded := NewPayment(paymentId, form.bookingId, found, userId.value,
          FindByKey(users, UserKey, userId.value), form.amount, m, now, GetPaymentDetails(form));
        var final := FinalPayment(recorded, success, stamp);
        assert (payments + [final])[..|payments|] == payments;
        if m == Cash || success then
          var confirmed := found.value.(status := Confirmed);
          ReplaceByKeyFind(bookings, BookingKey, confirmed);
          ProcessEffect(PaymentSucceeded(paymentId), payments + [final], ReplaceByKey(bookings, BookingKey, confirmed))
        else
          ProcessEffect(PaymentFailed(paymentId), payments + [final], bookings)
  }

  class PaymentController {
    const paymentRepository: PaymentRepo.PaymentRepository
    const bookingRepository: BookingRepo.BookingRepository
    const userRepository: UserRepo.UserRepository
    const session: Session

    constructor (paymentRepository: PaymentRepo.PaymentRepository, bookingRepository: BookingRepo.BookingRepository,
                 userRepository: UserRepo.UserRepository, session: Session)
      requires paymentRepository.bookingRepository == bookingRepository
      requires paymentRepository.userRepository == userRepository && bookingRepository.userRepository == userRepository
      ensures this.paymentRepository == paymentRepository && this.bookingRepository == bookingRepository
      ensures this.userRepository == userRepository && this.session == session
    {
      this.paymentRepository := paymentRepository;
      this.bookingRepository := bookingRepository;
      this.userRepository := userRepository;
      this.session := session;
    }

    /**
     * GET Payment, as written: only the first payment stored for the booking
     * is checked for completion.
     */
    function Payment(bookingId: string): (r: PayPageOutcome)
      reads session, userRepository, paymentRepository
      reads bookingRepository, bookingRepository.cabRepository, bookingRepository.userRepository
      ensures !SignedIn(session.userId) <==> r == PayLoginRequired
      ensures r == PayNotFound <==>
        SignedIn(session.userId) && !OwnedBy(session.userId, bookingRepository.GetById(bookingId))
      ensures r.PayForm? ==>
        bookingRepository.GetById(bookingId) == Some(r.booking) && session.userId == Some(r.booking.userId) &&
        r.amount == r.booking.fare && r.userName == DisplayName(userRepository.GetById(r.booking.userId))
      ensures OwnedBy(session.userId, bookingRepository.GetById(bookingId)) ==>
        var payments := paymentRepository.payments;
        forall j ::
          (0 <= j < |payments| && payments[j].bookingId == bookingId &&
           forall k :: 0 <= k < j ==> payments[k].bookingId != bookingId) ==>
          (r == AlreadyPaid(payments[j].id) <==> payments[j].status == PaymentStatus.Completed) &&
          (r.PayForm? <==> payments[j].status != PaymentStatus.Completed)
      ensures (OwnedBy(session.userId, bookingRepository.GetById(bookingId)) &&
               forall p :: p in paymentRepository.payments ==> p.bookingId != bookingId) ==>
        r.PayForm?
    {
      if !SignedIn(session.userId) then PayLoginRequired
      else
        PayPage(session.userId, bookingId, bookingRepository.GetById(bookingId),
          userRepository.GetById(session.userId.value), paymentRepository.payments)
    }

    /**
     * POST ProcessPayment, proved against ProcessPaymentSpec. `paymentId`
     * stands for a fresh GUID, `success` for the random draw, `stamp` for the
     * formatted clock and `now` for the payment date.
     */
    method ProcessPayment(form: PaymentForm, modelStateValid: bool, paymentId: string, success: bool, stamp: string, now: DateTime)
      returns (result: ProcessOutcome)
      requires paymentRepository.Valid() && bookingRepository.Valid()
      requires KeyFree(paymentRepository.payments, PaymentKey, paymentId)
      modifies paymentRepository, bookingRepository
      ensures paymentRepository.Valid() && bookingRepository.Valid()
      ensures ProcessEffect(result, paymentRepository.payments, bookingRepository.bookings) ==
        ProcessPaymentSpec(form, modelStateValid, session.userId, old(bookingRepository.GetById(form.bookingId)),
          userRepository.users, old(paymentRepository.payments), old(bookingRepository.bookings),
          paymentId, success, stamp, now)
    {
      if !modelStateValid {
        return FormRedisplayed;
      }
      if !SignedIn(session.userId) {
        return ProcessLoginRequired;
      }
      var userId := session.userId.value;
      var booking := bookingRepository.GetById(form.bookingId);
      if booking.None? || booking.value.userId != userId {
        return ProcessNotFound;
      }
      var user := userRepository.GetById(userId);
      var parsed := ParsePaymentMethod(form.paymentMethod);
      if parsed.None? {
        return MethodNotParsed;
      }
      var payment := NewPayment(paymentId, form.bookingId, booking, userId, user, form.amount, parsed.value, now,
        GetPaymentDetails(form));
      var isSuccess := RecordPayment(payment, success, stamp);
      if isSuccess {
        bookingRepository.Update(booking.value.(status := Confirmed));
        result := PaymentSucceeded(payment.id);
      } else {
        result := PaymentFailed(payment.id);
      }
    }

    /**
     * The recording half of POST ProcessPayment: the new payment is stored,
     * then a cash payment is completed and written back, and a digital one
     * goes through the store's ProcessPaymentAsync.
     */
    method RecordPayment(payment: Payment, success: bool, stamp: string) returns (isSuccess: bool)
      requires paymentRepository.Valid() && KeyFree(paymentRepository.payments, PaymentKey, payment.id)
      modifies paymentRepository
      ensures paymentRepository.Valid()
      ensures paymentRepository.payments == old(paymentRepository.payments) + [FinalPayment(payment, success, stamp)]
      ensures isSuccess == (payment.paymentMethod == Cash || success)
    {
      ghost var before := paymentRepository.payments;
      var added := paymentRepository.Add(payment);
      if payment.paymentMethod == Cash {
        var completed := payment.(status := PaymentStatus.Completed, transactionId := None);
        ReplaceByKeyLast(before, PaymentKey, payment, completed);
        paymentRepository.Update(completed);
        isSuccess := true;
      } else {
        ReplaceByKeyLast(before, PaymentKey, payment, PaymentRepo.Settle(payment, success, stamp));
        isSuccess := paymentRepository.ProcessPayment(payment, success, stamp);
      }
    }

    /** GET PaymentSuccess and GET PaymentFailed: any stored payment, loaded; no ownership test is made. */
    function PaymentResult(paymentId: string): (r: PaymentView)
      reads paymentRepository, userRepository, paymentRepository.userRepository, paymentRepository.bookingRepository
      reads paymentRepository.bookingRepository.cabRepository, paymentRepository.bookingRepository.userRepository
      ensures r != PaymentForbidden
      ensures r == PaymentNotFound <==> KeyFree(paymentRepository.payments, PaymentKey, paymentId)
      ensures r.PaymentShown? ==> r.payment.id == paymentId && Some(r.payment) == paymentRepository.GetById(paymentId)
    {
      match paymentRepository.GetById(paymentId)
      case None => PaymentNotFound
      case Some(p) => PaymentShown(p)
    }

    /** GET PaymentDetails: the payment is shown to its payer only. */
    function PaymentDetails(id: string): (r: PaymentView)
      reads session, paymentRepository, paymentRepository.userRepository, paymentRepository.bookingRepository
      reads paymentRepository.bookingRepository.cabRepository, paymentRepository.bookingRepository.userRepository
      ensures r == PaymentNotFound <==> KeyFree(paymentRepository.payments, PaymentKey, id)
      ensures r.PaymentShown? <==>
        paymentRepository.GetById(id).Some? && session.userId == Some(paymentRepository.GetById(id).value.userId)
      ensures r.PaymentShown? ==> r.payment.id == id && session.userId == Some(r.payment.userId)
    {
      match paymentRepository.GetById(id)
      case None => PaymentNotFound
      case Some(p) => if Some(p.userId) != session.userId then PaymentForbidden else PaymentShown(p)
    }

    /** GET MyPayments: the signed-in user's payments, newest first. */
    method MyPayments() returns (r: PaymentList)
      ensures !SignedIn(session.userId) ==> r == ListLoginRequired
      ensures SignedIn(session.userId) ==>
        r.PaymentsListed? && SortedDesc(r.payments, PaymentDateOf) &&
        (forall p :: p in r.payments ==> Some(p.userId) == session.userId) &&
        multiset(r.payments) == multiset(PaymentRepo.LoadPayments(
          Filter(paymentRepository.payments, PaymentRepo.OfPayer(session.userId.value)),
          paymentRepository.userRepository.users, paymentRepository.bookingRepository.bookings,
          paymentRepository.bookingRepository.cabRepository.cabs,
          paymentRepository.bookingRepository.userRepository.users)) &&
        |r.payments| == |Filter(paymentRepository.payments, PaymentRepo.OfPayer(session.userId.value))| &&
        r.userName == DisplayName(userRepository.GetById(session.userId.value))
    {
      if !SignedIn(session.userId) {
        return ListLoginRequired;
      }
      var userId := session.userId.value;
      var payments := paymentRepository.GetUserPayments(userId);
      var user := userRepository.GetById(userId);
      assert |multiset(payments)| == |payments|;
      r := PaymentsListed(payments, DisplayName(user));
    }

    /** GET AllPayments: every payment, loaded, newest first. */
    method AllPayments() returns (r: seq<Payment>)
      ensures SortedDesc(r, PaymentDateOf)
      ensures multiset(r) == multiset(PaymentRepo.LoadPayments(paymentRepository.payments,
        paymentRepository.userRepository.users, paymentRepository.bookingRepository.bookings,
        paymentRepository.bookingRepository.cabRepository.cabs,
        paymentRepository.bookingRepository.userRepository.users))
      ensures |r| == |paymentRepository.payments|
    {
      r := paymentRepository.GetPaymentsWithDetails();
      assert |multiset(r)| == |r|;
    }
  }
}
