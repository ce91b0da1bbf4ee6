/**
 * The records the cab booking system stores: cabs, users, bookings and
 * payments, with the enumerations they use. Every record is a value: what a
 * repository hands out is a copy, and changing it changes nothing stored
 * until the copy is written back.
 *
 * A C# string that may be null is a `string` here when the code only tests
 * it with IsNullOrEmpty (null and "" are both modelled as ""), and an
 * `Option<string>` where null is kept apart (a transaction id, a session
 * value, an optional form field).
 */
module Models {

  datatype Option<+T> = None | Some(value: T)

  /**
   * A point in time: calendar year and month, and the ticks elapsed since the
   * start of that month. Comparing two of them lexicographically is the same
   * as comparing the instants they denote.
   */
  datatype DateTime = DateTime(year: int, month: int, offset: nat)

  /** `a` is not later than `b`. */
  predicate NotAfter(a: DateTime, b: DateTime)
  {
    a.year < b.year ||
    (a.year == b.year && (a.month < b.month || (a.month == b.month && a.offset <= b.offset)))
  }

  predicate SameMonth(a: DateTime, b: DateTime)
  {
    a.year == b.year && a.month == b.month
  }

  // ---------------------------------------------------------------- cabs

  datatype CabType = Mini | Sedan | SUV | Luxury

  /** The name `Enum.ToString` gives a cab type. */
  function CabTypeName(t: CabType): string
  {
    match t
    case Mini => "Mini"
    case Sedan => "Sedan"
    case SUV => "SUV"
    case Luxury => "Luxury"
  }

  /** `Enum.TryParse<CabType>`, restricted to the declared names (case-sensitive). */
  function ParseCabType(s: string): (r: Option<CabType>)
    ensures forall t :: r == Some(t) <==> CabTypeName(t) == s
  {
    if s == "Mini" then Some(Mini)
    else if s == "Sedan" then Some(Sedan)
    else if s == "SUV" then Some(SUV)
    else if s == "Luxury" then Some(Luxury)
    else None
  }

  /** A cab; a new one is available unless it is created otherwise. */
  datatype Cab = Cab(id: string, cabType: CabType, isAvailable: bool)

  function CabKey(c: Cab): string { c.id }

  // --------------------------------------------------------------- users

  /** A registered rider. The password is stored as typed: no hashing exists. */
  datatype User = User(
    id: string,
    firstName: string,
    lastName: string,
    email: string,
    passwordHash: string,
    registrationDate: DateTime)

  function UserKey(u: User): string { u.id }

  // ------------------------------------------------------------ bookings

  datatype BookingStatus = Pending | Confirmed | InProgress | Completed | Cancelled

  /**
   * A ride request. `cab` and `user` are embedded snapshots of the records
   * that `cabId` and `userId` name; None is a snapshot not (yet) filled in.
   */
  datatype Booking = Booking(
    id: string,
    pickupLocation: string,
    dropoffLocation: string,
    pickupLatitude: string,
    pickupLongitude: string,
    dropoffLatitude: string,
    dropoffLongitude: string,
    cabId: string,
    cab: Option<Cab>,
    cabType: string,
    distance: real,
    fare: real,
    status: BookingStatus,
    bookingTime: DateTime,
    userId: string,
    user: Option<User>)

  function BookingKey(b: Booking): string { b.id }

  function BookingTimeOf(b: Booking): DateTime { b.bookingTime }

  function FareOf(b: Booking): real { b.fare }

  // ------------------------------------------------------------ payments

  datatype PaymentMethod = CreditCard | DebitCard | UPI | Wallet | Cash

  datatype PaymentStatus = Pending | Completed | Failed | Refunded

  /** The name `Enum.ToString` gives a payment method. */
  function PaymentMethodName(m: PaymentMethod): string
  {
    match m
    case CreditCard => "CreditCard"
    case DebitCard => "DebitCard"
    case UPI => "UPI"
    case Wallet => "Wallet"
    case Cash => "Cash"
  }

  /** `Enum.Parse<PaymentMethod>`, restricted to the declared names; None is the exception it throws. */
  function ParsePaymentMethod(s: string): (r: Option<PaymentMethod>)
    ensures forall m :: r == Some(m) <==> PaymentMethodName(m) == s
  {
    if s == "CreditCard" then Some(CreditCard)
    else if s == "DebitCard" then Some(DebitCard)
    else if s == "UPI" then Some(UPI)
    else if s == "Wallet" then Some(Wallet)
    else if s == "Cash" then Some(Cash)
    else None
  }

  /** A payment for a booking, with embedded snapshots of the booking and the payer. */
  datatype Payment = Payment(
    id: string,
    bookingId: string,
    booking: Option<Booking>,
    userId: string,
    user: Option<User>,
    amount: real,
    paymentMethod: PaymentMethod,
    status: PaymentStatus,
    paymentDate: DateTime,
    transactionId: Option<string>,
    paymentDetails: string)

  function PaymentKey(p: Payment): string { p.id }

  function PaymentDateOf(p: Payment): DateTime { p.paymentDate }

  /**
   * A payment as the object initialiser leaves it: Status takes its default,
   * Pending, and there is no transaction id yet.
   */
  function NewPayment(
    id: string, bookingId: string, booking: Option<Booking>, userId: string, user: Option<User>,
    amount: real, paymentMethod: PaymentMethod, now: DateTime, details: string): (p: Payment)
    ensures p.status == PaymentStatus.Pending && p.transactionId == None
  {
    Payment(id, bookingId, booking, userId, user, amount, paymentMethod, PaymentStatus.Pending, now, None, details)
  }
}
