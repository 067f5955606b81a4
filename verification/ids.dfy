/**
 * The object ids of the wire format. Each wraps a validated `Identifier`;
 * `ProgramId` carries the operations, which the other ids repeat verbatim.
 */
module Ids {
  import opened Wrappers
  import opened Identifiers

  datatype ProgramId = ProgramId(id: Identifier)
  datatype EventId = EventId(id: Identifier)
  datatype ReportId = ReportId(id: Identifier)
  datatype VenId = VenId(id: Identifier)
  datatype ResourceId = ResourceId(id: Identifier)

  predicate ValidProgramId(p: ProgramId)
  {
    Valid(p.id)
  }

  /** `ProgramId::as_str`, also its `Display`. */
  function ProgramIdAsStr(p: ProgramId): string
  {
    AsStr(p.id)
  }

  /** `VenId`'s `Display`, used wherever a VEN id is turned into text. */
  function VenIdAsStr(v: VenId): string
  {
    AsStr(v.id)
  }

  /** `ProgramId::new`: the id when the text is an identifier, nothing otherwise. */
  function NewProgramId(s: string): (r: Option<ProgramId>)
    ensures r.Some? <==> IsIdentifier(s)
    ensures r.Some? ==> ValidProgramId(r.value) && ProgramIdAsStr(r.value) == s
  {
    ParseIdentifierIffGrammar(s);
    match ParseIdentifier(s)
    case Ok(id) => Some(ProgramId(id))
    case Err(_) => None
  }

  /** `ProgramId::from_str`: as `new`, but keeping the parser's error. */
  function ProgramIdFromStr(s: string): (r: Result<ProgramId, IdentifierError>)
    ensures r.Ok? <==> IsIdentifier(s)
    ensures r.Ok? ==> ValidProgramId(r.value) && ProgramIdAsStr(r.value) == s
    ensures r.Err? ==> ParseIdentifier(s) == Err(r.error)
  {
    ParseIdentifierIffGrammar(s);
    match ParseIdentifier(s)
    case Ok(id) => Ok(ProgramId(id))
    case Err(e) => Err(e)
  }

  /** `new` and `from_str` accept the same strings and build the same id. */
  lemma NewAgreesWithFromStr(s: string)
    ensures NewProgramId(s).Some? <==> ProgramIdFromStr(s).Ok?
    ensures NewProgramId(s).Some? ==> NewProgramId(s).value == ProgramIdFromStr(s).value
  {
  }

  /** A valid id's text parses back to the same id. */
  lemma ProgramIdTextRoundTrip(p: ProgramId)
    requires ValidProgramId(p)
    ensures ProgramIdFromStr(ProgramIdAsStr(p)) == Ok(p)
    ensures NewProgramId(ProgramIdAsStr(p)) == Some(p)
  {
    TextThenParse(p.id);
  }
}
