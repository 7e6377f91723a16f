/**
 * `POST /api/promo/validate`: look a code up in the promo directory.
 * The lookup is exact and case-sensitive and changes nothing.
 */
module Promos {

  import opened Wrappers

  datatype DiscountKind = Percentage | Fixed

  /** A directory entry, sent back to the caller as is; nothing applies it. */
  datatype PromoRule = PromoRule(kind: DiscountKind, value: int)

  /** The directory the server starts with. */
  const PromoCodes: map<string, PromoRule> :=
    map["SAVE10" := PromoRule(Percentage, 10), "FLAT100" := PromoRule(Fixed, 100)]

  datatype ValidateResponse =
    | CodeRequired
    | InvalidCode
    | Valid(code: string, discount: PromoRule)
  {
    function Status(): int {
      match this
      case CodeRequired => 400
      case InvalidCode => 404
      case Valid(_, _) => 200
    }
  }

  /** `code` is the body's `code` property; `None` when it is absent or null. */
  function Validate(directory: map<string, PromoRule>, code: Option<string>): (r: ValidateResponse)
    ensures r.CodeRequired? <==> code.None? || code.value == ""
    ensures r.InvalidCode? <==> code.Some? && code.value != "" && code.value !in directory
    ensures r.Valid? <==> code.Some? && code.value != "" && code.value in directory
    ensures r.Valid? ==> r.code == code.value && r.discount == directory[code.value]
  {
    match code
    case None => CodeRequired
    case Some(c) =>
      if c == "" then CodeRequired
      else if c !in directory then InvalidCode
      else Valid(c, directory[c])
  }

  /** Only exact keys are found: "save10" is unknown while "SAVE10" is a key. */
  lemma LookupIsCaseSensitive()
    ensures Validate(PromoCodes, Some("SAVE10")) == Valid("SAVE10", PromoRule(Percentage, 10))
    ensures Validate(PromoCodes, Some("FLAT100")) == Valid("FLAT100", PromoRule(Fixed, 100))
    ensures Validate(PromoCodes, Some("save10")).Status() == 404
    ensures Validate(PromoCodes, Some("")).Status() == 400
  {
    assert "save10" != "SAVE10" && "save10" != "FLAT100";
  }
}
