# BookIt booking and pricing, modelled in Dafny

BookIt lets a visitor browse experiences (kayaking, hiking, diving), pick a date and time, apply a promo code at checkout and book. This project models the parts of the application that hold real logic:

- **Booking reservation** (`server/src/routes/bookings.js`, schema in `server/src/models/Booking.js`). The route rejects a request that lacks a required field (400) or whose (experience, date, time) slot is already stored (409). Otherwise it builds a `REF-` reference and saves one document (201). A failed save answers 500. The route is modelled twice. `Bookings.Reserve` is a pure function giving the answer and the new collection. `Bookings.BookingStore.CreateBooking` is a method on a store object holding `records: seq<Booking>`, and it is proved to agree with `Reserve`. The collection invariant covers three things: no double booking, unique references, and every stored document schema-valid. It is proved to survive every request.
- **Promo validation** (`server/src/routes/promos.js`). An exact, case-sensitive lookup in the code directory, with 400, 404 or the rule as the answer.
- **Checkout** (`client/src/pages/Checkout.tsx`). The class `Checkout.CheckoutPage` holds the form, `discount`, `promoApplied` and `promoError`. Its methods are the three handlers. The class invariant is that a discount is only held while a promo is applied. The price summary is `price + 99 - discount`. The submit handler produces a local `REF-` number of six digits.
- **Catalog lookup** (`server/src/routes/experiences.js`). The listing, find-by-id with 404, and the fixed availability.
- **Search filter** (`client/src/pages/Home.tsx`, `client/src/pages/Search.tsx`). A case-insensitive substring test on four fields. It is proved to be an order-preserving, idempotent filter. The two pages' filters are proved equal.

Randomness, the clock and database faults are parameters:
- `random` is the text of `Math.random().toString(36)`.
- `n` is `Math.floor(100000 + Math.random() * 900000)`.
- `now` is the current time.
- `StoreFault` says whether `findOne` or `save` throws.

The catalog and the promo directory that `server/src/index.js` puts in global variables are the constants `Experiences.Catalog` and `Promos.PromoCodes`.

Facts about the code that a reader might not expect:
- The server reference is `REF-` plus at most 8 characters of `[0-9A-Z]`. The characters come from `substring(2, 10)` of the random number's base-36 text. That text can be short, so the token can have fewer than 6 characters: a draw of 0.5 gives `0.i` and the reference `REF-I`.
- The route does not check that the experience exists.
- The route stores `totalAmount` and `promoCode` as sent.
- The route does not retry on a reference collision: the unique index makes `save()` fail and the answer is 500.
- No code applies the `percentage`/`fixed` promo rules, and nothing clamps the total at the tax.
- The client's submit handler never calls the server.

Files: `wrappers.dfy` (Option), `text.dfy` (JavaScript string operations), `booking_schema.dfy`, `bookings.dfy`, `promos.dfy`, `experiences.dfy`, `checkout.dfy`, `home.dfy`, `search.dfy`.

## Model

| member | source | states |
|---|---|---|
| BookingSchema.SchemaValid | server/src/models/Booking.js:4-35 | a document passes Mongoose's `required` validators iff its five request strings and its reference are non-empty and `totalAmount` is present; `promoCode` and `createdAt` are not required (partners: Save, MissingTotalIsRejected, PromoCodeIsOptional) |
| BookingSchema.Save | server/src/models/Booking.js:3-40 | `save()` stores the document iff every required field is present (non-empty strings, a `totalAmount`) and its `bookingReference` is not already in the collection; the new collection is the old one with the document appended |
| BookingSchema.SaveKeepsIndex | server/src/models/Booking.js:31-35 | after a successful save no two documents share a `bookingReference` and every document is schema-valid |
| BookingSchema.MissingTotalIsRejected | server/src/models/Booking.js:27-30 | a document without `totalAmount` is never stored |
| BookingSchema.PromoCodeIsOptional | server/src/models/Booking.js:24-26 | removing `promoCode` from a storable document leaves it storable |
| BookingSchema.CreatedAt | server/src/models/Booking.js:36-39 | `createdAt` is the supplied time, or the current time when none is supplied |
| Bookings.HasRequiredFields | server/src/routes/bookings.js:10 | the field check: experienceId, date, time, fullName and email are each present and non-empty (partner: ReserveOutcomes, where it decides 400) |
| Bookings.FindSlot | server/src/routes/bookings.js:16-20 | `findOne` returns nothing iff no stored booking has the (experienceId, date, time) triple; what it returns is a stored booking with that triple |
| Bookings.Reference | server/src/routes/bookings.js:27 | the reference starts with `REF-` and is at most 12 characters long |
| Bookings.NewBooking | server/src/routes/bookings.js:30-40 | the document carries the given reference, the current time, and the request's promo code and total as sent; it passes schema validation iff `totalAmount` is present and the reference is non-empty (a `REF-` reference always is; the route's check already covers the strings) |
| Bookings.Reserve | server/src/routes/bookings.js:6-53 | the collection grows by exactly one document, whose reference is the one answered, iff the answer is 201; otherwise it is unchanged |
| Bookings.ReferenceFormat | server/src/routes/bookings.js:27 | the server reference is `REF-` followed by at most 8 characters, all in [0-9A-Z] |
| Bookings.ReserveOutcomes | server/src/routes/bookings.js:9-52 | 400 iff a required field is missing or empty; 409 iff the fields are present, the lookup succeeds and the slot is stored; 201 iff in addition the store is healthy, `totalAmount` is present and the reference is new; 500 in every remaining case; each outcome carries its JSON message ("Booking confirmed", "Missing required booking information", "This slot is already booked", "Failed to create booking") |
| Bookings.RejectionLeavesStore | server/src/routes/bookings.js:9-52 | every answer other than 201 leaves the collection unchanged |
| Bookings.CreatedAppendsOne | server/src/routes/bookings.js:26-48 | a 201 appends exactly one document carrying the request's fields verbatim (promo code and total as sent), the answered reference and the current time, and keeps all earlier documents |
| Bookings.ReservePreservesInvariant | server/src/routes/bookings.js:16-43 | if no two stored bookings share a triple or a reference and all are schema-valid, the same holds after any request |
| Bookings.RepeatConflicts | server/src/routes/bookings.js:16-24 | repeating a request that was just booked is answered 409 (unless the lookup itself fails) |
| Bookings.MissingTotalFailsOnSave | server/src/routes/bookings.js:10-52 | a request that passes the field check but has no `totalAmount` is answered 500, not 400, and nothing is stored |
| Bookings.BookingStore.CreateBooking | server/src/routes/bookings.js:6-53 | the handler's sequence of early returns gives exactly the answer and collection of `Reserve`, and keeps the collection invariant |
| Bookings.DoubleBookingScenario | server/src/routes/bookings.js:16-48 | booking experience "1" on "Oct 22" at "09:00 am" in an empty store gives 201 and a `REF-` reference; the identical request straight after gives 409 |
| Promos.Validate | server/src/routes/promos.js:5-23 | 400 iff the code is absent or empty; 404 iff it is not a key of the directory; otherwise `valid`, the same code echoed, and that key's rule |
| Promos.LookupIsCaseSensitive | server/src/routes/promos.js:12-16 | with the directory of `server/src/index.js`, "SAVE10" and "FLAT100" give their rules, "save10" gives 404 and "" gives 400 |
| Experiences.ListExperiences | server/src/routes/experiences.js:5-7 | the listing is the catalog unchanged |
| Experiences.FindIndex | server/src/routes/experiences.js:11 | `find` finds nothing iff no entry has the id; otherwise it finds the first entry with the id |
| Experiences.GetExperience | server/src/routes/experiences.js:10-27 | 404 iff no entry has the id; otherwise the first matching entry with the fixed availability |
| Experiences.AvailabilityIsFixed | server/src/routes/experiences.js:18-21 | every found id gets the same availability, of 5 dates and 3 times |
| Experiences.CatalogLookups | server/src/index.js:37-62 | in the server's catalog, id "1" is found as "Kayaking" at price 899, id "3" as "Scuba Diving", and any other id but "2" is a 404 |
| Checkout.Summary | client/src/pages/Checkout.tsx:123-125 | subtotal is the price, taxes are 99, and total plus discount equals subtotal plus taxes |
| Checkout.DiscountLowersTotal | client/src/pages/Checkout.tsx:123-125 | a larger discount lowers the total by exactly the difference; with no discount the total is price + 99, the total that `client/src/pages/Details.tsx` shows |
| Checkout.CheckoutPage.Total | client/src/pages/Checkout.tsx:123-125 | the page total plus the discount is the price plus 99; with no promo applied the total is price + 99 |
| Checkout.Updated | client/src/pages/Checkout.tsx:42-47 | an input change sets the named field to the checkbox state or the text value and leaves every other field as it was |
| Checkout.CheckoutPage.constructor | client/src/pages/Checkout.tsx:20-40 | the page starts with an empty form, discount 0, no promo, no error and the mock experience |
| Checkout.CheckoutPage.HandleInputChange | client/src/pages/Checkout.tsx:42-48 | the form becomes the updated form; the promo state is untouched |
| Checkout.CheckoutPage.HandleApplyPromo | client/src/pages/Checkout.tsx:50-73 | an empty code only sets "Please enter a promo code"; a valid reply stores its discount, marks the promo applied and clears the error; an invalid reply or a failed request resets discount to 0 and applied to false and sets a non-empty error; the form is untouched and the class invariant holds |
| Checkout.CheckoutPage.HandleSubmit | client/src/pages/Checkout.tsx:77-105 | returns early iff full name or email is empty or the terms are not accepted; otherwise the booking data carries the entered code iff a promo is applied (null otherwise) and the page total, and a booking without a promo code is charged price + 99; the navigation state carries the local reference |
| Checkout.ClientReference | client/src/pages/Checkout.tsx:99 | the client reference starts with `REF-` and is 10 characters long |
| Checkout.ClientReferenceFormat | client/src/pages/Checkout.tsx:99 | the client reference is `REF-` and 6 digits, and reading the digits back gives the drawn number |
| Checkout.EditedCodeScenario | client/src/pages/Checkout.tsx:50-94 | after a valid "SAVE10" reply with discount 10, editing the code to "BOGUS" keeps the discount, and the submitted data carries "BOGUS" and total 988 |
| Home.Matches | client/src/pages/Home.tsx:24-27 | the filter's test on one experience; the empty query matches every experience (partners: FilterMembership, FilterIgnoresCase) |
| Home.Filter | client/src/pages/Home.tsx:22-29 | the filtered list is no longer than the input, and its elements are elements of the input that match the query |
| Home.FilterMembership | client/src/pages/Home.tsx:23-28 | an experience is listed iff it is in the input and the lower-cased query occurs in its lower-cased title, description, location or category |
| Home.FilterAppend | client/src/pages/Home.tsx:23-28 | filtering a concatenation is the concatenation of the filtered parts, so every matching occurrence, repeats included, is kept in place |
| Home.FilterSingle | client/src/pages/Home.tsx:23-28 | a one-element list is kept, once, iff its experience matches; with FilterAppend this fixes the result for every list |
| Home.FilterIsSubsequence | client/src/pages/Home.tsx:23 | the filtered list is a subsequence of the input: order is kept |
| Home.EmptyQueryKeepsAll | client/src/pages/Home.tsx:24-27 | the empty query keeps every experience |
| Home.FilterIgnoresCase | client/src/pages/Home.tsx:24-27 | queries that differ only in letter case give the same list |
| Home.FilterIdempotent | client/src/pages/Home.tsx:22-29 | filtering the result again with the same query returns it unchanged |
| Home.ShowsNoResults | client/src/pages/Home.tsx:124 | the no-results condition: a non-empty query and an empty filtered list (partner: NoResultsMeansNoMatch) |
| Home.NoResultsMeansNoMatch | client/src/pages/Home.tsx:124 | "No experiences found" is shown iff the query is non-empty and no experience matches it |
| Search.QueryFromUrl | client/src/pages/Search.tsx:24-25 | the URL's `query` parameter, or "" when it is absent (partner: SyncedQuery) |
| Search.ShouldSync | client/src/pages/Search.tsx:29 | the copy condition: the URL query is non-empty and differs from the current query (partner: SyncSettles, which shows it is false once the copy is made) |
| Search.SyncedQuery | client/src/pages/Search.tsx:29-31 | after the effect, the search query is the URL query when that is non-empty, and is left alone otherwise |
| Search.SyncSettles | client/src/pages/Search.tsx:27-31 | after one sync, running the effect again copies nothing and changes nothing |
| Search.FilterLowered | client/src/pages/Search.tsx:49-57 | the filter over the already lower-cased query: no longer than the input, and holding only input elements whose four lower-cased fields contain the query in at least one place |
| Search.Filter | client/src/pages/Search.tsx:49-57 | the search page's filter is no longer than the input and holds only input elements that match the query as the home page's test does (partner: SameAsHome) |
| Search.SameAsHome | client/src/pages/Search.tsx:49-57 | for any list and query the search page's filter gives exactly the home page's list |
| Search.FilterMembership | client/src/pages/Search.tsx:49-57 | an experience is listed iff it is in the input and one of its four lower-cased fields contains the lower-cased query |
| Search.FilterIsSubsequence | client/src/pages/Search.tsx:49 | the result keeps the original order and holds only elements of the input |
| Search.FilterAppend | client/src/pages/Search.tsx:49-57 | filtering a concatenation is the concatenation of the filtered parts, repeats included |
| Search.EmptyQueryKeepsAll | client/src/pages/Search.tsx:50-56 | the empty query keeps every experience |

## Left out

- The check-then-act race between `findOne` and `save` in `server/src/routes/bookings.js`. The model is sequential, so the absence of double bookings is proved for sequential requests only. Nothing enforces it under concurrent requests, since the collection has no unique index on the slot.
- The floating-point draw of `Math.random`. Both references take the draw's result as a parameter. The server's is the base-36 text, the client's is the six-digit number. The client's range 100000..999999 is exact: the largest draw, 1 - 2^-53, gives `100000 + r * 900000` = 999999.9999999999, the product is at most 900000 - 2^-33, and 1000000 - 2^-33 is itself a double, so the sum cannot round up to 1000000.
- MongoDB and Express I/O: connection, routing, JSON parsing, CORS, `app.listen`. A thrown database call is the `StoreFault` parameter. Mongoose's casting of values of the wrong type (a `totalAmount` that is not a number) is not modelled: request fields are strings and an integer. Mongoose's own `_id` and `__v` fields are not modelled.
- `server/src/index.js` is not part of this model beyond its two constants.
- `client/src/services/api.ts` is not part of this model: it is thin axios wrappers. Its only effect that matters is that a 400 or 404 from the validator throws. That throw is `PromoReply.RequestFailed`.
- `client/src/pages/Payment.tsx`, `client/src/pages/Confirmation.tsx`, `client/src/pages/Details.tsx`, `client/src/components/Navbar.tsx`, `client/src/components/ExperienceCard.tsx` and `client/src/App.tsx` are not part of this model: rendering, timers and routing.
- Text.Lower: case mapping covers ASCII letters only, where `toLowerCase` maps all of Unicode. The same holds for Text.Upper, whose input here is only base-36 digits.
- Checkout.PromoReply: the discount is an integer. The validator actually sends the rule object, so in the running page the total would be `NaN`. That JavaScript coercion is not modelled.
- Checkout.CheckoutPage.HandleApplyPromo: the asynchronous gap between the request and its reply is not modelled. The reply is applied at once, to the form as it was when Apply was pressed.
- Checkout.CheckoutPage.constructor: the loading phase and the "Experience not found" render are not modelled. The page is taken after its mount effect has set the mock experience.
- Home.Filter and Search.Filter: the loading effects that fill the list are not modelled. The served catalog has no `location` or `category` fields, while the client's `Experience` type declares them. A query matching neither title nor description would then call `toLowerCase` on `undefined`. The model's client records always carry all four fields.
- Promos.Validate: the directory is a finite map. Inherited keys of a JavaScript object such as "constructor" are not modelled.
- Percentage and fixed discount arithmetic: no code in the repository applies the rules, so the model applies none.
