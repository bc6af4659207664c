/**
 * The error taxonomy shared by the domain: one base error carrying a message
 * key and the offending field, tagged with the kind of failure (the class
 * hierarchy of the source becomes a single tagged datatype).
 */
module ModelErrors {
  import opened Wrappers
  import opened Schema

  datatype ErrorKind =
    | InvalidDocument
    | FarmerNotFound
    | FarmNotFound
    | FarmerDuplicateDocument
    | FarmerCreate
    | FarmerParser
    | FarmerUpdate
    | FarmerDelete
    | FarmCreate
    | FarmParser
    | FarmUpdate

  /** A thrown domain error: its kind, its message key and the field it concerns (possibly unset). */
  datatype ModelError = ModelError(kind: ErrorKind, message: string, field: Option<string>)

  /** The message a kind substitutes when it is constructed without one, if any. */
  function DefaultMessage(kind: ErrorKind): Option<string> {
    match kind
    case InvalidDocument => Some("invalid.document")
    case FarmerNotFound => Some("farmer.not.found")
    case FarmNotFound => Some("farm.not.found")
    case FarmerDuplicateDocument => Some("farmer.duplicate.document")
    case _ => None
  }

  /**
   * `new <Kind>Error({ message, field })`. A kind with a default message uses
   * it when `message` is falsy (`undefined` or `''`); the others pass the
   * message through, and an absent message reads as `''`, as a JavaScript
   * Error's message does. The field is stored unchanged.
   */
  function NewError(kind: ErrorKind, message: Option<string>, field: Option<string>): (e: ModelError)
    ensures e.kind == kind && e.field == field
    ensures message.Some? && message.value != "" ==> e.message == message.value
    ensures DefaultMessage(kind).None? ==> e.message == message.GetOr("")
    ensures DefaultMessage(kind).Some? ==> e.message != ""
    ensures DefaultMessage(kind).Some? && (message == None || message == Some("")) ==> e.message == DefaultMessage(kind).value
  {
    var given := message.GetOr("");
    var text := if given == "" && DefaultMessage(kind).Some? then DefaultMessage(kind).value else given;
    ModelError(kind, text, field)
  }

  /**
   * `ModelError.handleZodError(error, Kind)` always throws; here it yields the
   * error it throws. It is given the first collected issue: that issue's
   * message becomes the message and its path, joined with '.', the field.
   */
  function HandleZodError(first: Issue, kind: ErrorKind): (e: ModelError)
    ensures e.kind == kind
    ensures e.field == Some(JoinPath(first.path))
    ensures first.message != "" || DefaultMessage(kind).None? ==> e.message == first.message
  {
    NewError(kind, Some(first.message), Some(JoinPath(first.path)))
  }

  /**
   * An entry path's `safeParse` followed by `handleZodError` on failure: a
   * successful validation passes through, a failed one becomes the error of
   * the path's kind built from the first issue.
   */
  function Report<T>(r: Result<T, Issue>, kind: ErrorKind): (e: Result<T, ModelError>)
    ensures e.Success? <==> r.Success?
    ensures e.Success? ==> e.value == r.value
    ensures e.Failure? ==> e.error == HandleZodError(r.error, kind)
  {
    match r
    case Success(v) => Success(v)
    case Failure(first) => Failure(HandleZodError(first, kind))
  }

  /** The kinds the three entry paths use never replace the issue's message. */
  lemma EntryKindsPassMessageThrough(kind: ErrorKind, m: string, f: Option<string>)
    requires kind in {FarmerCreate, FarmerParser, FarmerUpdate, FarmCreate, FarmParser, FarmUpdate, FarmerDelete}
    ensures NewError(kind, Some(m), f) == ModelError(kind, m, f)
  {
  }
}
