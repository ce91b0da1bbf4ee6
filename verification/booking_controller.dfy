/**
 * Ride booking (Controllers/BookingController.cs): pricing, creating a
 * booking with a cab taken from the fleet, showing and cancelling bookings.
 */
module BookingCtrl {
  import opened Models
  import opened Seqs
  import opened Sessions
  import CabRepo
  import UserRepo
  import BookingRepo

  // ------------------------------------------------------------ pricing

  /** Base fare of a cab type name; a name outside the table pays 30. */
  function BaseFare(cabType: string): real
  {
    if cabType == "Mini" then 25.0
    else if cabType == "Sedan" then 35.0
    else if cabType == "SUV" then 50.0
    else if cabType == "Luxury" then 80.0
    else 30.0
  }

  /** Rate per kilometre of a cab type name; a name outside the table pays 13. */
  function RatePerKm(cabType: string): real
  {
    if cabType == "Mini" then 12.0
    else if cabType == "Sedan" then 15.0
    else if cabType == "SUV" then 20.0
    else if cabType == "Luxury" then 30.0
    else 13.0
  }

  /** CalculateFare: the base fare plus the distance at the per-kilometre rate. */
  function CalculateFare(distance: real, cabType: string): (fare: real)
    ensures distance >= 0.0 ==> fare >= BaseFare(cabType)
    ensures distance == 0.0 ==> fare == BaseFare(cabType)
  {
    BaseFare(cabType) + distance * RatePerKm(cabType)
  }

  /** A longer ride never costs less. */
  lemma FareMonotone(d1: real, d2: real, cabType: string)
    requires d1 <= d2
    ensures CalculateFare(d1, cabType) <= CalculateFare(d2, cabType)
  {
    assert RatePerKm(cabType) > 0.0;
    assert (d2 - d1) * RatePerKm(cabType) >= 0.0;
  }

  /**
   * For the same ride, the cab types are priced Mini < Sedan < SUV < Luxury,
   * and a name outside the table lands between Mini and Sedan.
   */
  lemma FareOrder(d: real)
    requires d >= 0.0
    ensures CalculateFare(d, "Mini") < CalculateFare(d, "Sedan") < CalculateFare(d, "SUV") < CalculateFare(d, "Luxury")
    ensures forall other :: other !in {"Mini", "Sedan", "SUV", "Luxury"} ==>
      CalculateFare(d, "Mini") < CalculateFare(d, other) < CalculateFare(d, "Sedan")
  {
  }

  /**
   * CalculateDistance draws a whole number in [5, 20) plus a fraction in
   * [0, 1); the fare of such a ride lies within these bounds.
   */
  lemma FareRange(distance: real, t: CabType)
    requires 5.0 <= distance < 20.0
    ensures BaseFare(CabTypeName(t)) + 5.0 * RatePerKm(CabTypeName(t)) <= CalculateFare(distance, CabTypeName(t))
    ensures CalculateFare(distance, CabTypeName(t)) < BaseFare(CabTypeName(t)) + 20.0 * RatePerKm(CabTypeName(t))
  {
    FareMonotone(5.0, distance, CabTypeName(t));
    var rate := RatePerKm(CabTypeName(t));
    assert (20.0 - distance) * rate > 0.0;
  }

  // ----------------------------------------------------------- requests

  /** The booking form (BookingViewModel). */
  datatype BookingForm = BookingForm(
    pickupLocation: string,
    dropoffLocation: string,
    cabType: CabType,
    pickupLatitude: string,
    pickupLongitude: string,
    dropoffLatitude: string,
    dropoffLongitude: string)

  /** The booking Create writes: pending, for the signed-in user, with the cab and user snapshots set. */
  function NewBooking(id: string, form: BookingForm, cab: Cab, distance: real, now: DateTime, userId: string, user: Option<User>): Booking
  {
    Booking(id, form.pickupLocation, form.dropoffLocation,
      form.pickupLatitude, form.pickupLongitude, form.dropoffLatitude, form.dropoffLongitude,
      cab.id, Some(cab), CabTypeName(form.cabType), distance,
      CalculateFare(distance, CabTypeName(form.cabType)), BookingStatus.Pending, now, userId, user)
  }

  datatype CreateOutcome = BookRideForm | LoginRequired | Confirmation(bookingId: string)

  datatype CancelOutcome = CancelNotFound | BackToDashboard

  datatype ViewOutcome = NotFound | Forbidden | Shown(booking: Booking)

  datatype ListOutcome = ListLoginRequired | Listed(bookings: seq<Booking>, userName: string)

  class BookingController {
    const bookingRepository: BookingRepo.BookingRepository
    const cabRepository: CabRepo.CabRepository
    const userRepository: UserRepo.UserRepository
    const session: Session

    constructor (bookingRepository: BookingRepo.BookingRepository, cabRepository: CabRepo.CabRepository,
                 userRepository: UserRepo.UserRepository, session: Session)
      requires bookingRepository.cabRepository == cabRepository && bookingRepository.userRepository == userRepository
      ensures this.bookingRepository == bookingRepository && this.cabRepository == cabRepository
      ensures this.userRepository == userRepository && this.session == session
    {
      this.bookingRepository := bookingRepository;
      this.cabRepository := cabRepository;
      this.userRepository := userRepository;
      this.session := session;
    }

    /**
     * POST Create. An invalid form changes nothing. Otherwise a cab of the
     * chosen type is taken (possibly a new one added to the fleet) BEFORE the
     * sign-in check, so a visitor who is not signed in can still leave a new
     * cab behind. A signed-in user gets a new pending booking, priced by
     * CalculateFare, for that cab, which is marked unavailable. `newCabId` and
     * `bookingId` stand for fresh GUIDs, `distance` for the random draw and
     * `now` for the clock.
     */
    method Create(form: BookingForm, modelStateValid: bool, newCabId: string, bookingId: string, distance: real, now: DateTime)
      returns (result: CreateOutcome)
      requires cabRepository.Valid() && bookingRepository.Valid()
      requires KeyFree(cabRepository.cabs, CabKey, newCabId)
      requires KeyFree(bookingRepository.bookings, BookingKey, bookingId)
      modifies cabRepository, bookingRepository
      ensures cabRepository.Valid() && bookingRepository.Valid()
      ensures !modelStateValid ==>
        result == BookRideForm &&
        cabRepository.cabs == old(cabRepository.cabs) && bookingRepository.bookings == old(bookingRepository.bookings)
      ensures modelStateValid && !SignedIn(session.userId) ==>
        result == LoginRequired &&
        cabRepository.cabs == CabRepo.FindOrCreate(old(cabRepository.cabs), CabTypeName(form.cabType), newCabId).fleet &&
        bookingRepository.bookings == old(bookingRepository.bookings)
      ensures modelStateValid && SignedIn(session.userId) ==>
        var a := CabRepo.FindOrCreate(old(cabRepository.cabs), CabTypeName(form.cabType), newCabId);
        a.cab.Some? &&
        result == Confirmation(bookingId) &&
        cabRepository.cabs == CabRepo.SetAvailability(a.fleet, a.cab.value.id, false) &&
        bookingRepository.bookings == old(bookingRepository.bookings) +
          [NewBooking(bookingId, form, a.cab.value, distance, now, session.userId.value, userRepository.GetById(session.userId.value))]
      ensures modelStateValid && SignedIn(session.userId) ==>
        var b := bookingRepository.bookings[|bookingRepository.bookings| - 1];
        b.id == bookingId && b.status == BookingStatus.Pending && Some(b.userId) == session.userId &&
        b.cab.Some? && b.cab.value.id == b.cabId && b.cab.value.cabType == form.cabType && b.cab.value.isAvailable &&
        cabRepository.GetById(b.cabId) == Some(b.cab.value.(isAvailable := false)) &&
        b.fare == CalculateFare(distance, CabTypeName(form.cabType))
    {
      if !modelStateValid {
        return BookRideForm;
      }
      var cabTypeString := CabTypeName(form.cabType);
      CabRepo.FindOrCreateStored(cabRepository.cabs, cabTypeString, newCabId);
      var availableCab := cabRepository.GetAvailableCabOrCreateNew(cabTypeString, newCabId);
      // The name of an enum value always parses back, so a cab is always handed out.
      var cab := availableCab.value;
      if !SignedIn(session.userId) {
        return LoginRequired;
      }
      var userId := session.userId.value;
      var user := userRepository.GetById(userId);
      var booking := NewBooking(bookingId, form, cab, distance, now, userId, user);
      cabRepository.UpdateCabAvailability(cab.id, false);
      var ok := bookingRepository.Add(booking);
      result := Confirmation(booking.id);
    }

    /** GET BookingConfirmation: any stored booking, loaded; no ownership test is made. */
    function BookingConfirmation(id: string): (r: ViewOutcome)
      reads bookingRepository, bookingRepository.cabRepository, bookingRepository.userRepository
      ensures r != Forbidden
      ensures r == NotFound <==> KeyFree(bookingRepository.bookings, BookingKey, id)
      ensures r.Shown? ==> r.booking.id == id && Some(r.booking) == bookingRepository.GetById(id)
    {
      match bookingRepository.GetById(id)
      case None => NotFound
      case Some(b) => Shown(b)
    }

    /** GET BookingDetails: the booking is shown to its owner only. */
    function BookingDetails(id: string): (r: ViewOutcome)
      reads bookingRepository, bookingRepository.cabRepository, bookingRepository.userRepository, session
      ensures r == NotFound <==> KeyFree(bookingRepository.bookings, BookingKey, id)
      ensures r.Shown? <==>
        bookingRepository.GetById(id).Some? && session.userId == Some(bookingRepository.GetById(id).value.userId)
      ensures r.Shown? ==> r.booking.id == id && session.userId == Some(r.booking.userId)
    {
      match bookingRepository.GetById(id)
      case None => NotFound
      case Some(b) => if Some(b.userId) != session.userId then Forbidden else Shown(b)
    }

    /** GET MyBookings: the signed-in user's bookings, newest first. */
    method MyBookings() returns (r: ListOutcome)
      ensures !SignedIn(session.userId) ==> r == ListLoginRequired
      ensures SignedIn(session.userId) ==>
        r.Listed? && SortedDesc(r.bookings, BookingTimeOf) &&
        multiset(r.bookings) == multiset(BookingRepo.LoadBookings(
          Filter(bookingRepository.bookings, BookingRepo.OfUser(session.userId.value)),
          bookingRepository.cabRepository.cabs, bookingRepository.userRepository.users)) &&
        r.userName == DisplayName(userRepository.GetById(session.userId.value))
    {
      if !SignedIn(session.userId) {
        return ListLoginRequired;
      }
      var userId := session.userId.value;
      var bookings := bookingRepository.GetUserBookings(userId);
      var user := userRepository.GetById(userId);
      r := Listed(bookings, DisplayName(user));
    }

    /**
     * POST CancelBooking. A booking that is missing or not the signed-in
     * user's is NotFound. A pending or confirmed one becomes Cancelled, and
     * its cab, if it names one, is made available again; a booking in any
     * other status is left as it is.
     */
    method CancelBooking(id: string) returns (result: CancelOutcome)
      requires cabRepository.Valid() && bookingRepository.Valid()
      modifies cabRepository, bookingRepository
      ensures cabRepository.Valid() && bookingRepository.Valid()
      ensures var found := old(bookingRepository.GetById(id));
        (found.None? || Some(found.value.userId) != session.userId) ==>
          result == CancelNotFound &&
          cabRepository.cabs == old(cabRepository.cabs) && bookingRepository.bookings == old(bookingRepository.bookings)
      ensures var found := old(bookingRepository.GetById(id));
        found.Some? && Some(found.value.userId) == session.userId && !BookingRepo.IsOpen(found.value) ==>
          result == BackToDashboard &&
          cabRepository.cabs == old(cabRepository.cabs) && bookingRepository.bookings == old(bookingRepository.bookings)
      ensures var found := old(bookingRepository.GetById(id));
        found.Some? && Some(found.value.userId) == session.userId && BookingRepo.IsOpen(found.value) ==>
          result == BackToDashboard &&
          bookingRepository.bookings ==
            ReplaceByKey(old(bookingRepository.bookings), BookingKey, found.value.(status := Cancelled)) &&
          FindByKey(bookingRepository.bookings, BookingKey, id) == Some(found.value.(status := Cancelled)) &&
          cabRepository.cabs ==
            (if found.value.cabId == "" then old(cabRepository.cabs)
             else CabRepo.SetAvailability(old(cabRepository.cabs), found.value.cabId, true))
    {
      var booking := bookingRepository.GetById(id);
      if booking.None? || Some(booking.value.userId) != session.userId {
        return CancelNotFound;
      }
      var b := booking.value;
      if b.status == BookingStatus.Pending || b.status == Confirmed {
        var cancelled := b.(status := Cancelled);
        if cancelled.cabId != "" {
          cabRepository.UpdateCabAvailability(cancelled.cabId, true);
        }
        ReplaceByKeyFind(bookingRepository.bookings, BookingKey, cancelled);
        bookingRepository.Update(cancelled);
      }
      result := BackToDashboard;
    }

    /** GET AllBookings: every booking, loaded, newest first. */
    method AllBookings() returns (r: seq<Booking>)
      ensures SortedDesc(r, BookingTimeOf)
      ensures multiset(r) == multiset(BookingRepo.LoadBookings(bookingRepository.bookings,
        bookingRepository.cabRepository.cabs, bookingRepository.userRepository.users))
    {
      r := bookingRepository.GetBookingsWithDetails();
    }
  }
}
