/**
 * The landing pages and the rider's dashboard (Controllers/HomeController.cs):
 * where a visitor is sent, and the ride statistics of the current month.
 */
module HomeCtrl {
  import opened Models
  import opened Seqs
  import opened Sessions
  import BookingRepo

  datatype PageOutcome = ToWelcome | ToDashboard | ToLogin | PageShown

  /** GET Index: signed-in visitors go to the dashboard, others to the welcome page. */
  function Index(userId: Option<string>): (r: PageOutcome)
    ensures r == ToDashboard <==> SignedIn(userId)
    ensures r == ToWelcome <==> !SignedIn(userId)
  {
    if !SignedIn(userId) then ToWelcome else ToDashboard
  }

  /** GET Welcome: shown to visitors who are not signed in; the others go to the dashboard. */
  function Welcome(userId: Option<string>): (r: PageOutcome)
    ensures r == ToDashboard <==> SignedIn(userId)
    ensures r == PageShown <==> !SignedIn(userId)
  {
    if SignedIn(userId) then ToDashboard else PageShown
  }

  /** GET BookRide: the booking form is shown to signed-in visitors only. */
  function BookRide(userId: Option<string>): (r: PageOutcome)
    ensures r == PageShown <==> SignedIn(userId)
    ensures r == ToLogin <==> !SignedIn(userId)
  {
    if !SignedIn(userId) then ToLogin else PageShown
  }

  /** Index and Welcome never send a visitor back and forth: each sends to the other page's target. */
  lemma LandingPagesAgree(userId: Option<string>)
    ensures Index(userId) == ToDashboard <==> Welcome(userId) == ToDashboard
    ensures Index(userId) == ToWelcome ==> Welcome(userId) == PageShown
  {
  }

  // ------------------------------------------------------------ dashboard

  predicate NotCancelled(b: Booking)
  {
    b.status != Cancelled
  }

  /** `b.BookingTime.Month == now.Month && b.BookingTime.Year == now.Year`. */
  function InMonthOf(now: DateTime): Booking -> bool
  {
    (b: Booking) => SameMonth(b.bookingTime, now)
  }

  /** Not cancelled and booked in the month of `now`. */
  function ActiveInMonth(now: DateTime): Booking -> bool
  {
    (b: Booking) => NotCancelled(b) && SameMonth(b.bookingTime, now)
  }

  /** The user's stored bookings the month's statistics count. */
  function CountedThisMonth(userId: string, now: DateTime): Booking -> bool
  {
    (b: Booking) => b.userId == userId && NotCancelled(b) && SameMonth(b.bookingTime, now)
  }

  /** The user's stored bookings the dashboard lists. */
  function ActiveOfUser(userId: string): Booking -> bool
  {
    (b: Booking) => b.userId == userId && NotCancelled(b)
  }

  datatype DashboardOutcome =
    | DashboardToWelcome
    | DashboardShown(totalRides: nat, totalSpent: real, recentBookings: seq<Booking>, allBookings: seq<Booking>)

  /** `Take(5)`. */
  function Take5<T>(s: seq<T>): (r: seq<T>)
    ensures |r| == if |s| < 5 then |s| else 5
    ensures r == s[..|r|]
  {
    if |s| < 5 then s else s[..5]
  }

  /**
   * Filtering the loaded user bookings by a test that loading does not
   * affect is the same, up to order, as loading the stored bookings that
   * belong to the user and pass the test.
   */
  lemma LoadedUserFilter(userBookings: seq<Booking>, bookings: seq<Booking>, cabs: seq<Cab>, users: seq<User>,
                         userId: string, p: Booking -> bool, both: Booking -> bool)
    requires multiset(userBookings) ==
      multiset(BookingRepo.LoadBookings(Filter(bookings, BookingRepo.OfUser(userId)), cabs, users))
    requires forall b :: p(BookingRepo.LoadBooking(b, cabs, users)) == p(b)
    requires forall b :: both(b) == (b.userId == userId && p(b))
    ensures multiset(Filter(userBookings, p)) == multiset(BookingRepo.LoadBookings(Filter(bookings, both), cabs, users))
  {
    var mine := Filter(bookings, BookingRepo.OfUser(userId));
    FilterPerm(userBookings, BookingRepo.LoadBookings(mine, cabs, users), p);
    FilterMap(mine, BookingRepo.Loader(cabs, users), p);
    FilterFilter(bookings, BookingRepo.OfUser(userId), p, both);
  }

  class HomeController {
    const bookingRepository: BookingRepo.BookingRepository
    const session: Session

    constructor (bookingRepository: BookingRepo.BookingRepository, session: Session)
      ensures this.bookingRepository == bookingRepository && this.session == session
    {
      this.bookingRepository := bookingRepository;
      this.session := session;
    }

    /**
     * GET Dashboard, with `now` for the clock. A visitor who is not signed
     * in goes to the welcome page. Otherwise the dashboard lists the user's
     * bookings that are not cancelled, newest first, shows the first five of
     * them as recent, and counts and sums the fares of those booked in the
     * current month.
     */
    method Dashboard(now: DateTime) returns (r: DashboardOutcome)
      ensures !SignedIn(session.userId) <==> r == DashboardToWelcome
      ensures SignedIn(session.userId) ==>
        var stored := bookingRepository.bookings;
        var cabs := bookingRepository.cabRepository.cabs;
        var users := bookingRepository.userRepository.users;
        var uid := session.userId.value;
        r.DashboardShown? &&
        SortedDesc(r.allBookings, BookingTimeOf) &&
        multiset(r.allBookings) == multiset(BookingRepo.LoadBookings(Filter(stored, ActiveOfUser(uid)), cabs, users)) &&
        r.recentBookings == Take5(r.allBookings) &&
        r.totalRides == |Filter(stored, CountedThisMonth(uid, now))| &&
        r.totalSpent == SumBy(Filter(stored, CountedThisMonth(uid, now)), FareOf)
    {
      if !SignedIn(session.userId) {
        return DashboardToWelcome;
      }
      var userId := session.userId.value;
      var userBookings := bookingRepository.GetUserBookings(userId);
      var activeBookings := Filter(userBookings, NotCancelled);
      var thisMonthBookings := Filter(activeBookings, InMonthOf(now));
      r := DashboardShown(|thisMonthBookings|, SumBy(thisMonthBookings, FareOf), Take5(activeBookings), activeBookings);

      var cabs := bookingRepository.cabRepository.cabs;
      var users := bookingRepository.userRepository.users;
      var counted := Filter(bookingRepository.bookings, CountedThisMonth(userId, now));
      // the listed bookings
      assert SortedDesc(activeBookings, BookingTimeOf) by {
        FilterSorted(userBookings, NotCancelled, BookingTimeOf);
      }
      LoadedUserFilter(userBookings, bookingRepository.bookings, cabs, users, userId, NotCancelled, ActiveOfUser(userId));
      // the month's statistics
      FilterFilter(userBookings, NotCancelled, InMonthOf(now), ActiveInMonth(now));
      LoadedUserFilter(userBookings, bookingRepository.bookings, cabs, users, userId,
        ActiveInMonth(now), CountedThisMonth(userId, now));
      var loaded := BookingRepo.LoadBookings(counted, cabs, users);
      assert |thisMonthBookings| == |loaded| by {
        assert |multiset(thisMonthBookings)| == |multiset(loaded)|;
      }
      SumByPerm(thisMonthBookings, loaded, FareOf);
      SumByMap(counted, BookingRepo.Loader(cabs, users), FareOf);
    }
  }
}
