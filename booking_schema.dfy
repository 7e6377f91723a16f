/**
 * The `Booking` collection's schema: the record a reservation stores, which
 * of its fields Mongoose requires, the unique index on `bookingReference`,
 * the `createdAt` default, and what `save()` does with a new document.
 */
module BookingSchema {

  import opened Wrappers

  /** One document of the collection. Times are milliseconds since the epoch. */
  datatype Booking = Booking(
    experienceId: string,
    date: string,
    time: string,
    fullName: string,
    email: string,
    promoCode: Option<string>,
    totalAmount: Option<int>,
    bookingReference: string,
    createdAt: int)

  /**
   * Mongoose's `required` validator: a String path fails on an absent or
   * empty value, a Number path only on an absent one. `promoCode` is optional.
   */
  predicate SchemaValid(b: Booking) {
    && b.experienceId != ""
    && b.date != ""
    && b.time != ""
    && b.fullName != ""
    && b.email != ""
    && b.totalAmount.Some?
    && b.bookingReference != ""
  }

  /** The collection holds `reference` already. */
  predicate ReferenceTaken(records: seq<Booking>, reference: string) {
    exists i | 0 <= i < |records| :: records[i].bookingReference == reference
  }

  /** The unique index on `bookingReference`. */
  predicate UniqueReferences(records: seq<Booking>) {
    forall i, j | 0 <= i < j < |records| :: records[i].bookingReference != records[j].bookingReference
  }

  /** Every document in the collection passed validation when it was saved. */
  predicate AllSchemaValid(records: seq<Booking>) {
    forall i | 0 <= i < |records| :: SchemaValid(records[i])
  }

  /** `createdAt: { default: Date.now }`: the supplied time, or the clock's. */
  function CreatedAt(supplied: Option<int>, now: int): (t: int)
    ensures supplied.None? ==> t == now
    ensures supplied.Some? ==> t == supplied.value
  {
    match supplied
    case Some(t) => t
    case None => now
  }

  /**
   * `doc.save()`: the new collection, or `None` when validation fails or the
   * unique index already holds the reference (Mongoose rejects the promise).
   */
  function Save(records: seq<Booking>, doc: Booking): (r: Option<seq<Booking>>)
    ensures r.Some? <==> SchemaValid(doc) && !ReferenceTaken(records, doc.bookingReference)
    ensures r.Some? ==> r.value == records + [doc]
  {
    if SchemaValid(doc) && !ReferenceTaken(records, doc.bookingReference) then Some(records + [doc]) else None
  }

  /** A successful save keeps every stored document valid and every reference unique. */
  lemma SaveKeepsIndex(records: seq<Booking>, doc: Booking)
    requires UniqueReferences(records) && AllSchemaValid(records)
    requires Save(records, doc).Some?
    ensures UniqueReferences(Save(records, doc).value)
    ensures AllSchemaValid(Save(records, doc).value)
  {
    var rs := Save(records, doc).value;
    forall i, j | 0 <= i < j < |rs|
      ensures rs[i].bookingReference != rs[j].bookingReference
    {
      if j == |records| {
        assert rs[i] == records[i];
      }
    }
  }

  /** A document without `totalAmount` is never stored, whatever else it holds. */
  lemma MissingTotalIsRejected(records: seq<Booking>, doc: Booking)
    requires doc.totalAmount.None?
    ensures Save(records, doc).None?
  {
  }

  /** A document without `promoCode` is stored like any other. */
  lemma PromoCodeIsOptional(records: seq<Booking>, doc: Booking)
    requires SchemaValid(doc) && !ReferenceTaken(records, doc.bookingReference)
    ensures Save(records, doc.(promoCode := None)) == Some(records + [doc.(promoCode := None)])
  {
  }
}
