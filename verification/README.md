# Cab booking core, modelled in Dafny

This project models the ride-booking core of a small ASP.NET cab booking
system backed by MongoDB. The model covers:

- the fleet registry ("Cabs"): seeding, availability flags, and find-or-create
  allocation of a cab by type;
- the ride store ("Bookings"): filters, newest-first sorting, `Limit`, and the
  lazy filling of the embedded cab and user snapshots;
- the payment store ("Payments"): lookup by booking, per-user history, and the
  simulated settlement of digital payments;
- the rider registry ("Users"): lookup by id and by e-mail address, and the
  password check;
- the four controllers that drive them:
  - booking: fare table, Create, Cancel, and the booking views;
  - payment: the pay page, ProcessPayment, card masking, and the payment views;
  - account: Register, Login, Logout;
  - home: landing-page routing and the dashboard statistics.

Every Mongo collection is a class holding one `seq` of records in storage
order. `Valid()` states that ids are unique, since `Id` is the document's
`_id`. The Mongo operations are modelled as follows:

- `FirstOrDefault` and `Find(...).FirstOrDefault` act on the first match in
  storage order (`Seqs.First`, `Seqs.FindByKey`).
- `ReplaceOne`, `UpdateOne` and `DeleteOne` by id also act on the first
  match (`Seqs.ReplaceByKey`, `Seqs.DeleteByKey`).
- `InsertOne` of a duplicate id stores nothing, and `Add` reports that with
  its `ok` result.
- `SortByDescending` is specified as "a permutation whose keys never increase".
  The order among equal keys is left open. A functional insertion sort
  implements it.

Records (cab, user, booking, payment) are value datatypes. What a repository
hands out is a copy, and a controller changes the stored record only by
writing the copy back.

The following things are parameters:

- GUIDs, with a requires that the id is unused;
- the clock (`now`, and the `stamp` text behind a transaction id);
- the random ride distance and the random 90% settlement draw (`distance`,
  `success`);
- the ASP.NET model-state check (`modelStateValid`).

The session is a small class with three optional strings.

The controllers are proved against functions on values:

- `BookingCtrl.BookingController.Create` is stated through
  `CabRepo.FindOrCreate` and `CabRepo.SetAvailability`.
- `PaymentCtrl.PaymentController.ProcessPayment` is stated through
  `PaymentCtrl.ProcessPaymentSpec`.
- `HomeCtrl.HomeController.Dashboard` is stated through filters of the
  stored bookings and `Seqs.SumBy`.

The code does several things that a reader may not expect. The model keeps
them as written:

- `Create` takes a cab from the fleet before it checks the sign-in. A visitor
  who is not signed in can therefore leave a newly created cab in the fleet.
- The cab snapshot embedded in a new booking is the one taken before the cab
  was marked unavailable. It therefore still says "available".
- `ProcessPayment` records a payment for the amount typed in the form. It does
  not compare that amount with the booking's fare, and it does not look for
  earlier payments.
- A paid booking becomes Confirmed whatever its status was, Cancelled
  included.
- `BookingConfirmation`, `PaymentSuccess` and `PaymentFailed` show any
  stored record to anyone. The other actions that look a record up compare its
  `UserId` with the session's: `BookingDetails`, `CancelBooking`, the payment
  page, `ProcessPayment` and `PaymentDetails`.
- Passwords are stored and compared as typed.

## Model

| member | source | states |
|---|---|---|
| Models.ParseCabType | Repositories/MongoDB/MongoCabRepository.cs:103-106 | a type name parses to exactly the cab type whose enum name it is, and to nothing otherwise |
| Models.ParsePaymentMethod | CabBookingSystem/Controllers/PaymentController.cs:89 | a method name parses to exactly the payment method whose enum name it is; any other string is the parse failure |
| Models.NewPayment | Models/Payment.cs:23-28 | a newly made payment is Pending and has no transaction id |
| Seqs.FindByKey | Repositories/MongoDB/MongoBookingRepository.cs:31-34 | `Find(x => x.Id == id).FirstOrDefault()`: the first element in storage order with the id; None exactly when no element has it |
| Seqs.ReplaceByKey | Repositories/MongoDB/MongoBookingRepository.cs:60-63 | ReplaceOne by id: same length and ids; only the first element with the id may change, and it becomes the new record; an unknown id changes nothing; unique ids stay unique |
| Seqs.ReplaceByKeyFind | Repositories/MongoDB/MongoPaymentRepository.cs:60-63 | with unique ids, after a replace the id looks up exactly the new record, and every record with another id is still stored |
| Seqs.DeleteByKey | Repositories/MongoDB/MongoBookingRepository.cs:65-68 | DeleteOne by id: an unknown id changes nothing; otherwise exactly the first record with the id is removed and the others keep their order; ids stay unique and the id is gone |
| Seqs.SortDesc | Repositories/MongoDB/MongoBookingRepository.cs:72-74 | SortByDescending: the result is a permutation of the input whose keys never increase |
| CabRepo.InitialCabsMix | Repositories/MongoDB/MongoCabRepository.cs:34-46 | the seed list holds 3 Mini, 3 Sedan, 2 SUV and 2 Luxury cabs |
| CabRepo.Seeded | Repositories/MongoDB/MongoCabRepository.cs:29-49 | a fleet that holds anything is unchanged; an empty one becomes 10 available cabs (3 Mini, 3 Sedan, 2 SUV, 2 Luxury); distinct seed ids keep ids unique |
| CabRepo.SetAvailability | Repositories/MongoDB/MongoCabRepository.cs:81-85 | UpdateOne sets IsAvailable on the first cab with the id and changes nothing else; an unknown id changes nothing |
| CabRepo.SetAvailabilityFound | Repositories/MongoDB/MongoCabRepository.cs:81-85 | with unique ids, the cab looked up after the update is the cab before it with the new flag, and ids stay unique |
| CabRepo.FindOrCreate | Repositories/MongoDB/MongoCabRepository.cs:101-126 | unknown type name: no cab and the fleet unchanged; the first available cab of the type in storage order, with the fleet unchanged; else one new available cab of the type, appended; any cab given has the type and is available |
| CabRepo.FindOrCreateStored | Repositories/MongoDB/MongoCabRepository.cs:101-126 | with unique ids and an unused new id, ids stay unique and the cab handed out is what its id looks up |
| CabRepo.CabRepository.constructor | Repositories/MongoDB/MongoCabRepository.cs:14-27 | the registry over an existing collection, then seeded |
| CabRepo.CabRepository.SeedInitialCabs | Repositories/MongoDB/MongoCabRepository.cs:29-49 | the collection becomes `Seeded` of what it was, and ids stay unique |
| CabRepo.CabRepository.GetById | Repositories/MongoDB/MongoCabRepository.cs:51-54 | a stored cab with the id, or None exactly when no cab has it |
| CabRepo.CabRepository.GetAll | Repositories/MongoDB/MongoCabRepository.cs:56-59 | exactly the stored cabs |
| CabRepo.CabRepository.Find | Repositories/MongoDB/MongoCabRepository.cs:61-64 | every stored cab passing the predicate, as often as stored, and nothing else |
| CabRepo.CabRepository.Add | Repositories/MongoDB/MongoCabRepository.cs:66-69 | an unused id appends the cab; a used one stores nothing; ids stay unique |
| CabRepo.CabRepository.Update | Repositories/MongoDB/MongoCabRepository.cs:71-74 | the collection becomes ReplaceByKey of what it was |
| CabRepo.CabRepository.Delete | Repositories/MongoDB/MongoCabRepository.cs:76-79 | the collection becomes DeleteByKey of what it was, and no cab has the id afterwards |
| CabRepo.CabRepository.UpdateCabAvailability | Repositories/MongoDB/MongoCabRepository.cs:81-85 | the collection becomes SetAvailability of what it was; looking the id up gives the old cab with the new flag, or still None |
| CabRepo.CabRepository.GetAvailableCabs | Repositories/MongoDB/MongoCabRepository.cs:87-90 | exactly the available stored cabs |
| CabRepo.CabRepository.GetCabsByType | Repositories/MongoDB/MongoCabRepository.cs:92-99 | nothing for an unknown type name; otherwise exactly the available stored cabs of the type |
| CabRepo.CabRepository.GetAvailableCabOrCreateNew | Repositories/MongoDB/MongoCabRepository.cs:101-126 | returns the cab and leaves the fleet exactly as FindOrCreate says, keeping ids unique |
| UserRepo.UserByEmail | CabBookingSystem/Repositories/MongoDB/MongoUserRepository.cs:56-59 | the first user whose address equals the argument exactly, or None when no user has it |
| UserRepo.PasswordMatches | CabBookingSystem/Repositories/MongoDB/MongoUserRepository.cs:77-81 | true iff the first user with the address exists and its stored password equals the one given |
| UserRepo.PasswordMatchesUnique | CabBookingSystem/Repositories/MongoDB/MongoUserRepository.cs:77-81 | when no two users share an address, the check accepts exactly the address/password pairs some stored user has |
| UserRepo.UserRepository.GetById | CabBookingSystem/Repositories/MongoDB/MongoUserRepository.cs:26-29 | a stored user with the id, or None exactly when no user has it |
| UserRepo.UserRepository.GetUserById | CabBookingSystem/Repositories/MongoDB/MongoUserRepository.cs:61-64 | agrees with GetById on every id |
| UserRepo.UserRepository.GetAll | CabBookingSystem/Repositories/MongoDB/MongoUserRepository.cs:31-34 | exactly the stored users |
| UserRepo.UserRepository.Find | CabBookingSystem/Repositories/MongoDB/MongoUserRepository.cs:36-39 | every stored user passing the predicate, and nothing else |
| UserRepo.UserRepository.GetUserByEmail | CabBookingSystem/Repositories/MongoDB/MongoUserRepository.cs:56-59 | the first user in storage order with exactly that address, or None exactly when there is none |
| UserRepo.UserRepository.GetByEmail | CabBookingSystem/Repositories/MongoDB/MongoUserRepository.cs:72-75 | agrees with GetUserByEmail on every address |
| UserRepo.UserRepository.UserExists | CabBookingSystem/Repositories/MongoDB/MongoUserRepository.cs:66-70 | true iff some stored user has exactly that address |
| UserRepo.UserRepository.ValidateUser | CabBookingSystem/Repositories/MongoDB/MongoUserRepository.cs:77-81 | true iff the user found by address exists and its password equals the one given; never true for an unknown address |
| UserRepo.UserRepository.Add | CabBookingSystem/Repositories/MongoDB/MongoUserRepository.cs:41-44 | an unused id appends the user; a used one stores nothing; ids stay unique |
| UserRepo.UserRepository.Update | CabBookingSystem/Repositories/MongoDB/MongoUserRepository.cs:46-49 | the collection becomes ReplaceByKey of what it was |
| UserRepo.UserRepository.Delete | CabBookingSystem/Repositories/MongoDB/MongoUserRepository.cs:51-54 | the collection becomes DeleteByKey of what it was, and no user has the id afterwards |
| BookingRepo.LoadBooking | Repositories/MongoDB/MongoBookingRepository.cs:116-133 | only the two snapshots may change; a snapshot present is never overwritten; a missing one is filled only from a non-empty id, with the registry's record of that id, and is filled whenever that record exists |
| BookingRepo.LoadBookingIdempotent | Repositories/MongoDB/MongoBookingRepository.cs:116-133 | loading a loaded booking again changes nothing |
| BookingRepo.LoadBookings | Repositories/MongoDB/MongoBookingRepository.cs:135-141 | every booking of the list loaded, position by position |
| BookingRepo.LoadBookingsSorted | Repositories/MongoDB/MongoBookingRepository.cs:70-77 | loading keeps a newest-first list newest first |
| BookingRepo.LoadBookingsPerm | Repositories/MongoDB/MongoBookingRepository.cs:70-77 | loading a reordering gives a reordering of the loaded list |
| BookingRepo.LimitOf | Repositories/MongoDB/MongoBookingRepository.cs:95-100 | `Limit(count)` out of `size` documents: zero passes everything; otherwise exactly the smaller of the size and the magnitude of `count`, and never more than a positive `count`; at least one from a non-empty collection |
| BookingRepo.SortedPrefixNewest | Repositories/MongoDB/MongoBookingRepository.cs:95-103 | of a newest-first list, every booking left out by a prefix is no newer than every booking in it |
| BookingRepo.BookingRepository.GetById | Repositories/MongoDB/MongoBookingRepository.cs:31-39 | None exactly when no booking has the id; otherwise a stored booking with the id, loaded |
| BookingRepo.BookingRepository.LoadRelatedData | Repositories/MongoDB/MongoBookingRepository.cs:135-141 | the loop yields LoadBookings of the list |
| BookingRepo.BookingRepository.GetAll | Repositories/MongoDB/MongoBookingRepository.cs:41-46 | every stored booking, loaded, in storage order |
| BookingRepo.BookingRepository.Find | Repositories/MongoDB/MongoBookingRepository.cs:48-53 | the stored bookings passing the predicate, loaded, in storage order |
| BookingRepo.BookingRepository.GetUserBookings | Repositories/MongoDB/MongoBookingRepository.cs:70-77 | exactly the user's bookings, loaded, as a permutation, newest first, and all of that user |
| BookingRepo.BookingRepository.GetAvailableBookings | Repositories/MongoDB/MongoBookingRepository.cs:79-84 | exactly the Pending or Confirmed bookings, loaded, in storage order |
| BookingRepo.BookingRepository.GetBookingsByStatus | Repositories/MongoDB/MongoBookingRepository.cs:86-93 | exactly the bookings in that status, loaded, as a permutation, newest first |
| BookingRepo.BookingRepository.GetRecentBookings | Repositories/MongoDB/MongoBookingRepository.cs:95-103 | as many bookings as the limit passes, newest first: the loaded prefix of a newest-first permutation of the whole collection |
| BookingRepo.BookingRepository.GetBookingsWithDetails | Repositories/MongoDB/MongoBookingRepository.cs:106-113 | every booking, loaded, as a permutation, newest first |
| BookingRepo.BookingRepository.Add | Repositories/MongoDB/MongoBookingRepository.cs:55-58 | an unused id appends the booking; a used one stores nothing; ids stay unique |
| BookingRepo.BookingRepository.Update | Repositories/MongoDB/MongoBookingRepository.cs:60-63 | the collection becomes ReplaceByKey of what it was |
| BookingRepo.BookingRepository.Delete | Repositories/MongoDB/MongoBookingRepository.cs:65-68 | the collection becomes DeleteByKey of what it was, and no booking has the id afterwards |
| PaymentRepo.LoadPayment | Repositories/MongoDB/MongoPaymentRepository.cs:128-145 | only the two snapshots may change; one present is never overwritten; the payer is filled from a non-empty id; the booking is filled from a non-empty id with the stored booking, itself loaded; each is filled whenever its record exists |
| PaymentRepo.LoadPayments | Repositories/MongoDB/MongoPaymentRepository.cs:147-153 | every payment of the list loaded, position by position |
| PaymentRepo.Settle | Repositories/MongoDB/MongoPaymentRepository.cs:113-121 | only status and transaction id change: success gives Completed with "TXN" and the time stamp; failure gives Failed and keeps the transaction id |
| PaymentRepo.PaymentRepository.GetById | Repositories/MongoDB/MongoPaymentRepository.cs:31-39 | None exactly when no payment has the id; otherwise a stored payment with the id, loaded |
| PaymentRepo.PaymentRepository.GetPaymentByBookingId | Repositories/MongoDB/MongoPaymentRepository.cs:70-78 | the first stored payment for the booking, loaded; None when there is none; later payments for the booking are ignored |
| PaymentRepo.PaymentRepository.LoadRelatedData | Repositories/MongoDB/MongoPaymentRepository.cs:147-153 | the loop yields LoadPayments of the list |
| PaymentRepo.PaymentRepository.GetAll | Repositories/MongoDB/MongoPaymentRepository.cs:41-46 | every stored payment, loaded, in storage order |
| PaymentRepo.PaymentRepository.Find | Repositories/MongoDB/MongoPaymentRepository.cs:48-53 | the stored payments passing the predicate, loaded, in storage order |
| PaymentRepo.PaymentRepository.GetUserPayments | Repositories/MongoDB/MongoPaymentRepository.cs:80-88 | exactly the user's payments, loaded, as a permutation, newest first |
| PaymentRepo.PaymentRepository.GetPaymentsWithDetails | Repositories/MongoDB/MongoPaymentRepository.cs:90-97 | every payment, loaded, as a permutation, newest first |
| PaymentRepo.PaymentRepository.Add | Repositories/MongoDB/MongoPaymentRepository.cs:55-58 | an unused id appends the payment; a used one stores nothing; ids stay unique |
| PaymentRepo.PaymentRepository.Update | Repositories/MongoDB/MongoPaymentRepository.cs:60-63 | the collection becomes ReplaceByKey of what it was |
| PaymentRepo.PaymentRepository.Delete | Repositories/MongoDB/MongoPaymentRepository.cs:65-68 | the collection becomes DeleteByKey of what it was, and no payment has the id afterwards |
| PaymentRepo.PaymentRepository.ProcessPayment | Repositories/MongoDB/MongoPaymentRepository.cs:99-125 | cash: reported paid, nothing written; digital: the result is the draw, and the stored copy is replaced by the settled payment |
| Sessions.DisplayName | CabBookingSystem/Controllers/PaymentController.cs:55 | `$"{user?.FirstName} {user?.LastName}"`: a lone space for a missing user, else the first name, a space and the last name |
| Sessions.Session.SignIn | CabBookingSystem/Controllers/AccountController.cs:39-41 | the session holds the user's id, first name and address |
| Sessions.Session.Clear | CabBookingSystem/Controllers/AccountController.cs:119 | the session holds nothing, so nobody is signed in |
| BookingCtrl.CalculateFare | Controllers/BookingController.cs:182-201 | for a non-negative distance the fare is at least the base fare, and it equals it at distance 0 |
| BookingCtrl.FareMonotone | Controllers/BookingController.cs:182-201 | a longer ride never costs less |
| BookingCtrl.FareOrder | Controllers/BookingController.cs:184-199 | Mini < Sedan < SUV < Luxury for the same ride; a name outside the table lands between Mini and Sedan |
| BookingCtrl.FareRange | Controllers/BookingController.cs:176-201 | a drawn distance in [5, 20) gives a fare between base + 5 × rate and base + 20 × rate |
| BookingCtrl.BookingController.Create | Controllers/BookingController.cs:24-99 | invalid form: nothing changes; not signed in: only the allocation happened; signed in: the cab is marked unavailable and exactly one Pending booking for it and the user is appended, priced by CalculateFare; a cab is always found |
| BookingCtrl.BookingController.BookingConfirmation | Controllers/BookingController.cs:101-110 | NotFound exactly when no booking has the id; otherwise the loaded booking; never forbidden |
| BookingCtrl.BookingController.BookingDetails | Controllers/BookingController.cs:127-136 | NotFound exactly when no booking has the id; shown iff the session's user owns it; otherwise forbidden |
| BookingCtrl.BookingController.MyBookings | Controllers/BookingController.cs:112-124 | not signed in: sent to sign in; else exactly the user's bookings, loaded, newest first, with the user's display name |
| BookingCtrl.BookingController.CancelBooking | Controllers/BookingController.cs:139-167 | missing or someone else's: NotFound and nothing changes; Pending or Confirmed: stored as Cancelled and its named cab made available; other statuses: nothing changes |
| BookingCtrl.BookingController.AllBookings | Controllers/BookingController.cs:169-174 | every booking, loaded, newest first |
| PaymentCtrl.LastFour | CabBookingSystem/Controllers/PaymentController.cs:190 | the last four characters, or the whole of a shorter string |
| PaymentCtrl.GetPaymentDetails | CabBookingSystem/Controllers/PaymentController.cs:186-196 | card: "Card: " followed by at most four last characters; "UPI: " and id; "Wallet: " and wallet type; "Cash Payment"; "Unknown" for other names |
| PaymentCtrl.CardNumberMasked | CabBookingSystem/Controllers/PaymentController.cs:190 | the stored line never carries more than four characters of the card number |
| PaymentCtrl.PayPage | CabBookingSystem/Controllers/PaymentController.cs:24-59 | sign in first; NotFound exactly when the booking is missing or someone else's; for the owner the first stored payment for the booking decides: Completed redirects to that payment, anything else (or no payment) shows the form with the booking's own fare |
| PaymentCtrl.PayPageAfterRetry | CabBookingSystem/Controllers/PaymentController.cs:42-46 | a failed payment followed by a completed one: the page as written offers the payment form, where the corrected page redirects to the completed payment |
| PaymentCtrl.PayPageIntended | CabBookingSystem/Controllers/PaymentController.cs:42-46 | corrected page: sign in first; NotFound exactly when the booking is missing or someone else's; for the owner, redirects iff any stored payment for the booking is completed, and shows the form iff none is |
| PaymentCtrl.FinalPayment | CabBookingSystem/Controllers/PaymentController.cs:95-108 | the settled payment is Completed iff it is cash or the draw succeeded; cash has no transaction id |
| PaymentCtrl.ProcessPaymentSpec | CabBookingSystem/Controllers/PaymentController.cs:62-127 | a payment is recorded iff the form is valid, the user is signed in and owns the booking, and the method parses; then exactly one payment is appended with the form's amount, the parsed method and its details line; it succeeds exactly when the method is Cash or the settlement draw succeeds, and a failed payment has no transaction id; success confirms the booking (whatever its status) by replacing it and nothing else, failure leaves the bookings alone; every other outcome changes nothing |
| PaymentCtrl.PaymentController.Payment | CabBookingSystem/Controllers/PaymentController.cs:24-59 | GET Payment over the stores, as written: sign in first; NotFound exactly when the loaded booking is missing or someone else's; for the owner the first stored payment for the booking decides between the redirect (Completed) and the form; the form shows the loaded booking and its fare |
| PaymentCtrl.PaymentController.ProcessPayment | CabBookingSystem/Controllers/PaymentController.cs:62-127 | the outcome and both stores are exactly what ProcessPaymentSpec gives, so cash always succeeds and a digital payment succeeds exactly when the draw does; ids stay unique |
| PaymentCtrl.PaymentController.RecordPayment | CabBookingSystem/Controllers/PaymentController.cs:93-108 | the new payment ends up stored once, settled as FinalPayment says; success iff cash or the draw succeeded |
| PaymentCtrl.PaymentController.PaymentResult | CabBookingSystem/Controllers/PaymentController.cs:129-151 | NotFound exactly when no payment has the id; otherwise the loaded payment, with no ownership test |
| PaymentCtrl.PaymentController.PaymentDetails | CabBookingSystem/Controllers/PaymentController.cs:168-178 | NotFound exactly when no payment has the id; shown iff the session's user is its payer; otherwise forbidden |
| PaymentCtrl.PaymentController.MyPayments | CabBookingSystem/Controllers/PaymentController.cs:153-166 | not signed in: sent to sign in; else exactly the user's payments, loaded, newest first, with the display name |
| PaymentCtrl.PaymentController.AllPayments | CabBookingSystem/Controllers/PaymentController.cs:180-184 | every payment, loaded, newest first |
| AccountCtrl.NewUser | CabBookingSystem/Controllers/AccountController.cs:89-96 | the new user has the fresh id, the address given and the password as typed |
| AccountCtrl.Registered | CabBookingSystem/Controllers/AccountController.cs:81-98 | an address in use leaves the users as they were; otherwise exactly the new user is appended; unique addresses stay unique |
| AccountCtrl.RegistrationsKeepEmailsUnique | CabBookingSystem/Controllers/AccountController.cs:81-98 | from unique addresses, any run of registrations keeps addresses unique |
| AccountCtrl.RegisteredCanSignIn | CabBookingSystem/Controllers/AccountController.cs:89-98 | after a registration with a new address, that address finds the new user and its password signs in |
| AccountCtrl.AccountController.Login | CabBookingSystem/Controllers/AccountController.cs:26-60 | invalid form: form shown; otherwise success iff ValidateUser; success puts that user in the session; failure leaves the session alone |
| AccountCtrl.AccountController.Register | CabBookingSystem/Controllers/AccountController.cs:71-112 | invalid form: nothing changes; otherwise the users become Registered; success iff the address was unused; on success the user is signed in and can sign in again; failure leaves the session alone |
| AccountCtrl.AccountController.Logout | CabBookingSystem/Controllers/AccountController.cs:116-125 | the session is cleared and the visitor goes to the welcome page |
| HomeCtrl.Index | Controllers/HomeController.cs:18-30 | dashboard iff signed in, welcome page otherwise |
| HomeCtrl.Welcome | Controllers/HomeController.cs:32-42 | dashboard iff signed in, the page otherwise |
| HomeCtrl.BookRide | Controllers/HomeController.cs:80-89 | the form iff signed in, sign-in otherwise |
| HomeCtrl.LandingPagesAgree | Controllers/HomeController.cs:18-42 | Index and Welcome agree on who goes to the dashboard |
| HomeCtrl.Take5 | Controllers/HomeController.cs:73 | the first five, or all of a shorter list |
| HomeCtrl.LoadedUserFilter | Controllers/HomeController.cs:55-66 | filtering the user's loaded bookings gives, up to order, the loaded stored bookings of the user that pass the filter |
| HomeCtrl.HomeController.Dashboard | Controllers/HomeController.cs:44-78 | not signed in: welcome page; else all = the user's non-cancelled bookings, loaded, newest first; recent = its first five; rides and spending = count and fare sum of the user's non-cancelled bookings of the current month |

## Left out

- Asynchrony and concurrency: every `await` is a sequential step. Interleaved requests are not modelled. Neither is the race between the `async void` seeding started in the cab store's constructor and the first request.
- Randomness: the ride distance and the 90% settlement draw are parameters. The `Task.Delay` before settlement is left out.
- Time: `DateTime.Now`/`UtcNow` are parameters (`now`, `stamp`). The time-zone difference between `UtcNow` (booking time) and `Now` (payment and dashboard) is not modelled. Neither is the `yyyyMMddHHmmss` format of the transaction stamp.
- Decimal and double arithmetic is modelled as exact `real`. Decimal rounding and the double-to-decimal cast in CalculateFare are not captured.
- CalculateDistance ignores its coordinates. ParseDouble's results only feed it, so the coordinates and ParseDouble are not part of this model.
- ASP.NET plumbing is not modelled: views, ViewBag, TempData messages, the RememberMe cookie, `[Authorize(Roles = "Admin")]`, and the GET Login/Register/Privacy pages. Model-state validation is a boolean parameter.
- Storage errors: the `try`/`catch` blocks, MongoDB exceptions and the connection-string check are not modelled. A duplicate `_id` on insert stores nothing and is reported by `ok`.
- Enum parsing accepts only the exact member names, as the case-sensitive Enum.Parse and Enum.TryParse do. Names with leading or trailing whitespace (which Enum.Parse trims), numeric forms and comma-separated forms are not modelled.
- A null string compared with `IsNullOrEmpty` is modelled as "". Because of that, a stored booking or payment whose UserId is null compares equal to an absent session in the source's ownership checks, but not in the model.
- The navigation collections (`Cab.Bookings`, `User.Bookings`, `User.Payments`, `Booking.Payments`) are never filled by the code and are left out.
- The in-place mutation of fetched objects is modelled by value: controllers write back a changed copy. Aliasing between a fetched object and the object later written is not captured.
- UserRepo.UserRepository.ValidateUser: states the first-match test and its consequences. Its relation to any matching user is only proved under unique addresses (UserRepo.PasswordMatchesUnique).
- BookingRepo.BookingRepository.GetRecentBookings: the tie order among bookings with equal booking times is left open.

## Findings

| source | as written | input that shows it | evidently intended | confidence | as-written member | corrected member |
|---|---|---|---|---|---|---|
| CabBookingSystem/Controllers/PaymentController.cs:42-46 | GET Payment checks only the first stored payment for the booking (GetPaymentByBookingIdAsync) for completion | a booking whose first payment Failed and whose retry Completed: the page offers to take payment again | redirect to the success page whenever any stored payment for the booking is completed | medium, not executed | PaymentCtrl.PayPageAfterRetry | PaymentCtrl.PayPageIntended |
