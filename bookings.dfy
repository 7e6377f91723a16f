/**
 * `POST /api/bookings`: validate the request, refuse a slot that is already
 * booked, build a `REF-` reference and save one new document.
 *
 * `Reserve` states what one request does to the collection and what it
 * answers; `BookingStore.CreateBooking` runs the handler's steps in order
 * against a store object and is proved to agree with it.
 */
module Bookings {

  import opened Wrappers
  import Text
  import opened BookingSchema

  /** The JSON body; `None` is an absent or null property. */
  datatype BookingRequest = BookingRequest(
    experienceId: Option<string>,
    date: Option<string>,
    time: Option<string>,
    fullName: Option<string>,
    email: Option<string>,
    promoCode: Option<string>,
    totalAmount: Option<int>)

  /** Where the database throws, if it does: in `findOne`, in `save`, or nowhere. */
  datatype StoreFault = Healthy | QueryFails | SaveFails

  datatype BookingResponse =
    | Created(bookingReference: string)
    | MissingFields
    | SlotTaken
    | CreateFailed
  {
    function Status(): int {
      match this
      case Created(_) => 201
      case MissingFields => 400
      case SlotTaken => 409
      case CreateFailed => 500
    }

    function Message(): string {
      match this
      case Created(_) => "Booking confirmed"
      case MissingFields => "Missing required booking information"
      case SlotTaken => "This slot is already booked"
      case CreateFailed => "Failed to create booking"
    }
  }

  /** JavaScript truthiness of a string-valued property. */
  predicate Truthy(v: Option<string>) {
    v.Some? && v.value != ""
  }

  predicate HasRequiredFields(req: BookingRequest) {
    && Truthy(req.experienceId)
    && Truthy(req.date)
    && Truthy(req.time)
    && Truthy(req.fullName)
    && Truthy(req.email)
  }

  predicate SameSlot(b: Booking, experienceId: string, date: string, time: string) {
    b.experienceId == experienceId && b.date == date && b.time == time
  }

  /** No two stored bookings share an (experienceId, date, time) triple. */
  predicate NoDoubleBooking(records: seq<Booking>) {
    forall i, j | 0 <= i < j < |records| ::
      !SameSlot(records[j], records[i].experienceId, records[i].date, records[i].time)
  }

  predicate StoreInvariant(records: seq<Booking>) {
    NoDoubleBooking(records) && UniqueReferences(records) && AllSchemaValid(records)
  }

  /** `Booking.findOne({experienceId, date, time})`: the first match in collection order. */
  function FindSlot(records: seq<Booking>, experienceId: string, date: string, time: string): (r: Option<Booking>)
    ensures r.None? <==> forall i | 0 <= i < |records| :: !SameSlot(records[i], experienceId, date, time)
    ensures r.Some? ==> r.value in records && SameSlot(r.value, experienceId, date, time)
    decreases |records|
  {
    if records == [] then None
    else if SameSlot(records[0], experienceId, date, time) then Some(records[0])
    else FindSlot(records[1..], experienceId, date, time)
  }

  /** `Math.random().toString(36)`: `"0"`, or `"0."` and base-36 digits. */
  predicate IsRandomBase36(s: string) {
    s == "0" || (|s| >= 3 && s[..2] == "0." && forall i | 2 <= i < |s| :: Text.IsDigit(s[i]) || Text.IsLowerLetter(s[i]))
  }

  /** `` `REF-${random.substring(2, 10).toUpperCase()}` `` */
  function Reference(random: string): (r: string)
    ensures Text.StartsWith(r, "REF-") && |r| <= 12
  {
    "REF-" + Text.Upper(Text.Substring(random, 2, 10))
  }

  predicate IsUpperAlphanumeric(c: char) {
    Text.IsDigit(c) || Text.IsUpperLetter(c)
  }

  /** A server reference is `REF-` and at most eight characters of [0-9A-Z]. */
  lemma ReferenceFormat(random: string)
    requires IsRandomBase36(random)
    ensures Reference(random)[..4] == "REF-"
    ensures 4 <= |Reference(random)| <= 12
    ensures forall i | 4 <= i < |Reference(random)| :: IsUpperAlphanumeric(Reference(random)[i])
  {
    var token := Text.Substring(random, 2, 10);
    var r := Reference(random);
    assert r == "REF-" + Text.Upper(token);
    forall i | 4 <= i < |r|
      ensures IsUpperAlphanumeric(r[i])
    {
      assert r[i] == Text.UpperChar(token[i - 4]);
      assert token[i - 4] == random[2 + (i - 4)];
    }
  }

  /** The document `new Booking({...})` builds from a request that passed the field check. */
  function NewBooking(req: BookingRequest, reference: string, now: int): (b: Booking)
    requires HasRequiredFields(req)
    ensures b.bookingReference == reference && b.createdAt == now
    ensures b.promoCode == req.promoCode && b.totalAmount == req.totalAmount
    ensures SchemaValid(b) <==> req.totalAmount.Some? && reference != ""
  {
    Booking(
      req.experienceId.value, req.date.value, req.time.value,
      req.fullName.value, req.email.value,
      req.promoCode, req.totalAmount,
      reference, CreatedAt(Some(now), now))
  }

  /** What one request answers, and the collection after it. */
  datatype Outcome = Outcome(response: BookingResponse, records: seq<Booking>)

  function Reserve(records: seq<Booking>, req: BookingRequest, random: string, now: int, fault: StoreFault): (o: Outcome)
    ensures o.response.Created? ==> |o.records| == |records| + 1 && o.records[..|records|] == records
    ensures !o.response.Created? ==> o.records == records
    ensures o.response.Created? ==> o.response.bookingReference == o.records[|records|].bookingReference
  {
    if !HasRequiredFields(req) then Outcome(MissingFields, records)
    else if fault == QueryFails then Outcome(CreateFailed, records)
    else if FindSlot(records, req.experienceId.value, req.date.value, req.time.value).Some? then Outcome(SlotTaken, records)
    else
      var doc := NewBooking(req, Reference(random), now);
      if fault == SaveFails then Outcome(CreateFailed, records)
      else match Save(records, doc)
        case Some(stored) => Outcome(Created(doc.bookingReference), stored)
        case None => Outcome(CreateFailed, records)
  }

  /** The request's slot is already in the collection. */
  predicate SlotBooked(records: seq<Booking>, req: BookingRequest)
    requires HasRequiredFields(req)
  {
    exists i | 0 <= i < |records| :: SameSlot(records[i], req.experienceId.value, req.date.value, req.time.value)
  }

  /** The four answers, each with the exact condition that produces it. */
  lemma ReserveOutcomes(records: seq<Booking>, req: BookingRequest, random: string, now: int, fault: StoreFault)
    ensures Reserve(records, req, random, now, fault).response.MissingFields? <==> !HasRequiredFields(req)
    ensures Reserve(records, req, random, now, fault).response.SlotTaken? <==>
      HasRequiredFields(req) && fault != QueryFails && SlotBooked(records, req)
    ensures Reserve(records, req, random, now, fault).response.Created? <==>
      && HasRequiredFields(req) && fault == Healthy && !SlotBooked(records, req)
      && req.totalAmount.Some? && !ReferenceTaken(records, Reference(random))
    ensures Reserve(records, req, random, now, fault).response.CreateFailed? <==>
      && HasRequiredFields(req)
      && (|| fault == QueryFails
          || (!SlotBooked(records, req)
              && (fault == SaveFails || req.totalAmount.None? || ReferenceTaken(records, Reference(random)))))
    ensures var r := Reserve(records, req, random, now, fault).response;
      && (r.Created? ==> r.Status() == 201 && r.Message() == "Booking confirmed")
      && (r.MissingFields? ==> r.Status() == 400 && r.Message() == "Missing required booking information")
      && (r.SlotTaken? ==> r.Status() == 409 && r.Message() == "This slot is already booked")
      && (r.CreateFailed? ==> r.Status() == 500 && r.Message() == "Failed to create booking")
  {
    if HasRequiredFields(req) {
      var f := FindSlot(records, req.experienceId.value, req.date.value, req.time.value);
      if SlotBooked(records, req) {
        assert f.Some?;
      } else {
        assert f.None?;
      }
    }
  }

  /** Every answer but 201 leaves the collection exactly as it was. */
  lemma RejectionLeavesStore(records: seq<Booking>, req: BookingRequest, random: string, now: int, fault: StoreFault)
    requires !Reserve(records, req, random, now, fault).response.Created?
    ensures Reserve(records, req, random, now, fault).records == records
  {
  }

  /**
   * A 201 appends exactly one document, holding the request's fields as
   * sent (no recomputed total, no promo check), the reference it answers
   * with, and the current time.
   */
  lemma CreatedAppendsOne(records: seq<Booking>, req: BookingRequest, random: string, now: int, fault: StoreFault)
    requires Reserve(records, req, random, now, fault).response.Created?
    ensures HasRequiredFields(req)
    ensures var o := Reserve(records, req, random, now, fault);
      && |o.records| == |records| + 1
      && o.records[..|records|] == records
      && o.records[|records|] == Booking(
           req.experienceId.value, req.date.value, req.time.value,
           req.fullName.value, req.email.value,
           req.promoCode, req.totalAmount,
           o.response.bookingReference, now)
      && o.response.bookingReference == Reference(random)
      && o.response.Status() == 201
  {
  }

  /** Sequential requests never book one slot twice and never repeat a reference. */
  lemma ReservePreservesInvariant(records: seq<Booking>, req: BookingRequest, random: string, now: int, fault: StoreFault)
    requires StoreInvariant(records)
    ensures StoreInvariant(Reserve(records, req, random, now, fault).records)
  {
    var o := Reserve(records, req, random, now, fault);
    if o.response.Created? {
      var doc := NewBooking(req, Reference(random), now);
      assert FindSlot(records, doc.experienceId, doc.date, doc.time).None?;
      SaveKeepsIndex(records, doc);
      var rs := o.records;
      assert rs == records + [doc];
      forall i, j | 0 <= i < j < |rs|
        ensures !SameSlot(rs[j], rs[i].experienceId, rs[i].date, rs[i].time)
      {
        if j == |records| {
          assert rs[i] == records[i];
          assert !SameSlot(records[i], doc.experienceId, doc.date, doc.time);
        }
      }
    }
  }

  /** Repeating a request that was just booked is refused with 409. */
  lemma RepeatConflicts(records: seq<Booking>, req: BookingRequest, random: string, now: int,
                        random': string, now': int, fault': StoreFault)
    requires Reserve(records, req, random, now, Healthy).response.Created?
    requires fault' != QueryFails
    ensures Reserve(Reserve(records, req, random, now, Healthy).records, req, random', now', fault').response == SlotTaken
  {
    var rs := Reserve(records, req, random, now, Healthy).records;
    assert SameSlot(rs[|records|], req.experienceId.value, req.date.value, req.time.value);
  }

  /**
   * The route's field check does not cover `totalAmount`; the schema does, so
   * a request without it fails with 500 rather than 400.
   */
  lemma MissingTotalFailsOnSave(records: seq<Booking>, req: BookingRequest, random: string, now: int)
    requires HasRequiredFields(req) && !SlotBooked(records, req)
    requires req.totalAmount.None?
    ensures Reserve(records, req, random, now, Healthy) == Outcome(CreateFailed, records)
    ensures Reserve(records, req, random, now, Healthy).response.Status() == 500
  {
    ReserveOutcomes(records, req, random, now, Healthy);
  }

  /** The collection behind the route, changed only by `save()`. */
  class BookingStore {
    var records: seq<Booking>

    ghost predicate Valid()
      reads this
    {
      StoreInvariant(records)
    }

    constructor ()
      ensures Valid() && records == []
    {
      records := [];
    }

    /** The route handler, step by step with early returns. */
    method CreateBooking(req: BookingRequest, random: string, now: int, fault: StoreFault)
      returns (response: BookingResponse)
      requires Valid()
      modifies this
      ensures Valid()
      ensures Outcome(response, records) == Reserve(old(records), req, random, now, fault)
    {
      if !HasRequiredFields(req) {
        return MissingFields;
      }
      if fault == QueryFails {
        return CreateFailed;
      }
      var existing := FindSlot(records, req.experienceId.value, req.date.value, req.time.value);
      if existing.Some? {
        return SlotTaken;
      }
      var bookingReference := Reference(random);
      var doc := NewBooking(req, bookingReference, now);
      if fault == SaveFails {
        return CreateFailed;
      }
      var saved := Save(records, doc);
      if saved.None? {
        return CreateFailed;
      }
      ReservePreservesInvariant(records, req, random, now, fault);
      records := saved.value;
      response := Created(bookingReference);
    }
  }

  /**
   * A first request for experience "1" on "Oct 22" at "09:00 am" is booked
   * with a `REF-` reference; the same request straight after is refused.
   */
  method DoubleBookingScenario(random1: string, random2: string, now: int)
    returns (first: BookingResponse, second: BookingResponse)
    requires IsRandomBase36(random1)
    ensures first.Status() == 201 && Text.StartsWith(first.bookingReference, "REF-")
    ensures forall i | 4 <= i < |first.bookingReference| :: IsUpperAlphanumeric(first.bookingReference[i])
    ensures second.Status() == 409
  {
    var store := new BookingStore();
    var req := BookingRequest(Some("1"), Some("Oct 22"), Some("09:00 am"), Some("Ada"), Some("ada@example.com"), None, Some(998));
    first := store.CreateBooking(req, random1, now, Healthy);
    ReferenceFormat(random1);
    second := store.CreateBooking(req, random2, now, Healthy);
    RepeatConflicts([], req, random1, now, random2, now, Healthy);
  }
}
