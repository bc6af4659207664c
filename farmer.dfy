/**
 * The farmer aggregate: the farmer schema with its document-checksum
 * refinement, the three entry paths (create, parse, update) built on it, and
 * the entity that stores the validated fields and reassigns them on a
 * successful update only.
 */
module Farmers {
  import opened Wrappers
  import opened Schema
  import opened ModelErrors
  import Documents

  // ---------------------------------------------------------------------------
  // Schema
  // ---------------------------------------------------------------------------

  /** The object handed to the farmer schema, each property as the schema sees it. */
  datatype FarmerInput = FarmerInput(
    id: Field<string>,
    document: Field<string>,
    name: Field<string>,
    createdAt: Field<Time>,
    updatedAt: Field<Time>)

  /** A validated farmer, as the schema outputs it and as `toJSON` returns it. */
  datatype FarmerRecord = FarmerRecord(
    id: Option<string>,
    document: string,
    name: string,
    createdAt: Option<Time>,
    updatedAt: Option<Time>)

  const NameMax: nat := 250

  /** What every farmer the schema accepts satisfies: the field rules hold and the document is canonical. */
  predicate FarmerValid(r: FarmerRecord) {
    && (r.id.Some? ==> IsUuid(r.id.value))
    && Documents.IsCanonical(r.document)
    && 1 <= |r.name| <= NameMax
  }

  /** The document refinement: a document string neither CPF- nor CNPJ-valid. */
  function DocumentRefinement(document: string, at: seq<PathSegment>): (r: Result<string, Issue>)
    ensures r.Success? <==> Documents.TryParse(document)
    ensures r.Success? ==> r.value == Documents.Parse(document).value.value && Documents.IsCanonical(r.value)
    ensures r.Failure? ==> r.error == Issue(at + [Key("document")], "farmer.invalid.document")
  {
    if !Documents.TryParse(document) then Failure(Issue(at + [Key("document")], "farmer.invalid.document"))
    else
      Documents.ParseIdempotent(document);
      Success(Documents.Parse(document).value.value)
  }

  /**
   * `farmer.safeParse`, reduced to the first issue it collects: the field
   * rules in declaration order, then the document refinement, which also
   * replaces the document by its canonical digits. `at` is the path of the
   * farmer object (empty at top level, `farmer` inside a farm).
   */
  function ValidateFarmer(input: FarmerInput, at: seq<PathSegment>): (r: Result<FarmerRecord, Issue>)
    ensures r.Success? ==> FarmerValid(r.value)
    ensures r.Success? ==>
      && input.document.Given? && Documents.TryParse(input.document.value)
      && r.value.document == Documents.Parse(input.document.value).value.value
      && input.name == Given(r.value.name)
      && input.id == AsField(r.value.id)
      && input.createdAt == AsField(r.value.createdAt)
      && input.updatedAt == AsField(r.value.updatedAt)
  {
    var id :- OptionalUuidRule(input.id, at + [Key("id")], "farmer.invalid.id");
    var document :- RequiredStringRule(input.document, at + [Key("document")], "farmer.invalid.document");
    var name :- StringRule(input.name, 1, NameMax, at + [Key("name")], "farmer.invalid.name");
    var createdAt :- OptionalDateRule(input.createdAt, at + [Key("createdAt")], "farmer.invalid.createdAt");
    var updatedAt :- OptionalDateRule(input.updatedAt, at + [Key("updatedAt")], "farmer.invalid.updatedAt");
    var canonical :- DocumentRefinement(document, at);
    Success(FarmerRecord(id, canonical, name, createdAt, updatedAt))
  }

  /**
   * Every rule the input violates, in the order the schema reports them:
   * the field rules in declaration order, then the refinement on a document
   * string that fails the checksum.
   */
  function FarmerViolations(input: FarmerInput, at: seq<PathSegment>): seq<Issue> {
    Violation(OptionalUuidRule(input.id, at + [Key("id")], "farmer.invalid.id"))
    + Violation(RequiredStringRule(input.document, at + [Key("document")], "farmer.invalid.document"))
    + Violation(StringRule(input.name, 1, NameMax, at + [Key("name")], "farmer.invalid.name"))
    + Violation(OptionalDateRule(input.createdAt, at + [Key("createdAt")], "farmer.invalid.createdAt"))
    + Violation(OptionalDateRule(input.updatedAt, at + [Key("updatedAt")], "farmer.invalid.updatedAt"))
    + (if input.document.Given? then Violation(DocumentRefinement(input.document.value, at)) else [])
  }

  /** Validation fails exactly when some rule is violated, and it reports the first violation. */
  lemma FirstViolationReported(input: FarmerInput, at: seq<PathSegment>)
    ensures ValidateFarmer(input, at).Success? <==> FarmerViolations(input, at) == []
    ensures ValidateFarmer(input, at).Failure? ==> ValidateFarmer(input, at).error == FarmerViolations(input, at)[0]
  {
  }

  /** The object a stored farmer is re-validated from (`toJSON`, absent fields undefined). */
  function RecordInput(r: FarmerRecord): FarmerInput {
    FarmerInput(AsField(r.id), Given(r.document), Given(r.name), AsField(r.createdAt), AsField(r.updatedAt))
  }

  /** A valid farmer re-validates to itself. */
  lemma ValidateRecord(r: FarmerRecord, at: seq<PathSegment>)
    requires FarmerValid(r)
    ensures ValidateFarmer(RecordInput(r), at) == Success(r)
  {
    assert Documents.TryParse(r.document);
  }

  /** Validation is idempotent: what it outputs is accepted again unchanged. */
  lemma ValidateIdempotent(input: FarmerInput, at: seq<PathSegment>)
    requires ValidateFarmer(input, at).Success?
    ensures ValidateFarmer(RecordInput(ValidateFarmer(input, at).value), at) == ValidateFarmer(input, at)
  {
    ValidateRecord(ValidateFarmer(input, at).value, at);
  }

  // ---------------------------------------------------------------------------
  // Entry paths
  // ---------------------------------------------------------------------------

  /** `CreateParams`: the caller's document and name. */
  datatype FarmerCreateParams = FarmerCreateParams(document: Field<string>, name: Field<string>)

  /** `UpdateParams`: any of document and name. */
  datatype FarmerPatch = FarmerPatch(document: Option<string>, name: Option<string>)

  /** `Farmer.parse`: validate a stored record, keeping its id and timestamps. */
  function ParseFarmer(input: FarmerInput): (r: Result<FarmerRecord, ModelError>)
    ensures r.Success? <==> ValidateFarmer(input, []).Success?
    ensures r.Success? ==> FarmerValid(r.value) && RecordInput(r.value).id == input.id
    ensures r.Success? ==> input.createdAt == AsField(r.value.createdAt) && input.updatedAt == AsField(r.value.updatedAt)
    ensures r.Success? ==>
      && input.document.Given? && r.value.document == Documents.Parse(input.document.value).value.value
      && input.name == Given(r.value.name)
    ensures r.Failure? ==> r.error.kind == FarmerParser
  {
    Report(ValidateFarmer(input, []), FarmerParser)
  }

  /** The object `Farmer.create` validates: the parameters stamped with `createdAt`. */
  function CreateInput(p: FarmerCreateParams, now: Time): FarmerInput {
    FarmerInput(Missing, p.document, p.name, Given(now), Missing)
  }

  /** `Farmer.create`: a new farmer without id or `updatedAt`, created at `now`. */
  function CreateFarmer(p: FarmerCreateParams, now: Time): (r: Result<FarmerRecord, ModelError>)
    ensures r.Success? <==> ValidateFarmer(CreateInput(p, now), []).Success?
    ensures r.Success? ==>
      && FarmerValid(r.value)
      && r.value.id == None && r.value.createdAt == Some(now) && r.value.updatedAt == None
      && p.name == Given(r.value.name)
      && r.value.document == Documents.Parse(p.document.value).value.value
    ensures r.Failure? ==> r.error.kind == FarmerCreate
  {
    var v :- Report(ValidateFarmer(CreateInput(p, now), []), FarmerCreate);
    Success(FarmerRecord(v.id, v.document, v.name, v.createdAt, None))
  }

  /**
   * The object `Farmer.update` validates: the current fields, overridden by
   * the truthy patch values, stamped with `updatedAt`.
   */
  function UpdateInput(current: FarmerRecord, patch: FarmerPatch, now: Time): FarmerInput {
    FarmerInput(
      AsField(current.id),
      Given(OrString(patch.document, current.document)),
      Given(OrString(patch.name, current.name)),
      AsField(current.createdAt),
      Given(now))
  }

  /**
   * `Farmer.update` on the current record: the new record, or the error it
   * throws. Only document, name and `updatedAt` are reassigned.
   */
  function UpdateFarmer(current: FarmerRecord, patch: FarmerPatch, now: Time): (r: Result<FarmerRecord, ModelError>)
    ensures r.Success? <==> ValidateFarmer(UpdateInput(current, patch, now), []).Success?
    ensures r.Success? ==>
      && FarmerValid(r.value)
      && r.value.id == current.id && r.value.createdAt == current.createdAt
      && r.value.updatedAt == Some(now)
      && r.value.name == OrString(patch.name, current.name)
      && Documents.TryParse(OrString(patch.document, current.document))
      && r.value.document == Documents.Parse(OrString(patch.document, current.document)).value.value
    ensures r.Failure? ==> r.error.kind == FarmerUpdate
  {
    var v :- Report(ValidateFarmer(UpdateInput(current, patch, now), []), FarmerUpdate);
    Success(current.(
      document := OrString(Some(v.document), current.document),
      name := OrString(Some(v.name), current.name),
      updatedAt := v.updatedAt))
  }

  /** The error an entry path throws carries the first violation's message and its joined path. */
  lemma EntryErrorIsFirstViolation(input: FarmerInput, kind: ErrorKind)
    requires kind in {FarmerCreate, FarmerParser, FarmerUpdate}
    requires ValidateFarmer(input, []).Failure?
    ensures FarmerViolations(input, []) != []
    ensures var first := FarmerViolations(input, [])[0];
      Report(ValidateFarmer(input, []), kind).error == ModelError(kind, first.message, Some(JoinPath(first.path)))
  {
    FirstViolationReported(input, []);
    var first := FarmerViolations(input, [])[0];
    EntryKindsPassMessageThrough(kind, first.message, Some(JoinPath(first.path)));
  }

  /** Parsing a valid stored farmer gives it back unchanged. */
  lemma ParseRecord(r: FarmerRecord)
    requires FarmerValid(r)
    ensures ParseFarmer(RecordInput(r)) == Success(r)
  {
    ValidateRecord(r, []);
  }

  /**
   * An update whose document and name are both absent or empty keeps every
   * field of a valid farmer and only stamps `updatedAt`; in particular an
   * empty name does not make the update fail.
   */
  lemma UpdateWithFalsyPatch(current: FarmerRecord, patch: FarmerPatch, now: Time)
    requires FarmerValid(current)
    requires patch.document in {None, Some("")} && patch.name in {None, Some("")}
    ensures UpdateFarmer(current, patch, now) == Success(current.(updatedAt := Some(now)))
  {
    ValidateRecord(current.(updatedAt := Some(now)), []);
    assert UpdateInput(current, patch, now) == RecordInput(current.(updatedAt := Some(now)));
  }

  /** Updating only the name of a valid farmer replaces the name and stamps `updatedAt`. */
  lemma UpdateNameOnly(current: FarmerRecord, name: string, now: Time)
    requires FarmerValid(current) && 1 <= |name| <= NameMax
    ensures UpdateFarmer(current, FarmerPatch(None, Some(name)), now) == Success(current.(name := name, updatedAt := Some(now)))
  {
    var expected := current.(name := name, updatedAt := Some(now));
    ValidateRecord(expected, []);
    assert UpdateInput(current, FarmerPatch(None, Some(name)), now) == RecordInput(expected);
  }

  /** An update that fails leaves nothing to assign: it fails with the update kind. */
  lemma UpdateOfInvalidDocumentFails(current: FarmerRecord, document: string, now: Time)
    requires FarmerValid(current) && document != "" && !Documents.TryParse(document)
    ensures UpdateFarmer(current, FarmerPatch(Some(document), None), now)
      == Failure(ModelError(FarmerUpdate, "farmer.invalid.document", Some("document")))
  {
  }

  /** A name rule violation is reported before a document that fails the checksum. */
  lemma CreateReportsNameBeforeDocument(document: string, now: Time)
    ensures CreateFarmer(FarmerCreateParams(Given(document), Given("")), now)
      == Failure(ModelError(FarmerCreate, "farmer.invalid.name", Some("name")))
  {
  }

  /** A document that is not a string is rejected on field 'document' whatever the name. */
  lemma CreateRejectsNonStringDocument(name: Field<string>, now: Time)
    ensures CreateFarmer(FarmerCreateParams(WrongType, name), now)
      == Failure(ModelError(FarmerCreate, "farmer.invalid.document", Some("document")))
  {
  }

  /** The document 'invalid' is rejected on field 'document'. */
  lemma CreateRejectsDocumentWithoutDigits(document: string, name: string, now: Time)
    requires Documents.OnlyDigits(document) == "" && 1 <= |name| <= NameMax
    ensures CreateFarmer(FarmerCreateParams(Given(document), Given(name)), now)
      == Failure(ModelError(FarmerCreate, "farmer.invalid.document", Some("document")))
  {
    Documents.NoDigitsRejected(document);
  }

  /** An id that is present but not a UUID, such as '121221', is the first issue reported. */
  lemma ParseRejectsMalformedId(id: string, input: FarmerInput)
    requires input.id == Given(id) && !IsUuid(id)
    ensures ParseFarmer(input) == Failure(ModelError(FarmerParser, "farmer.invalid.id", Some("id")))
  {
  }

  lemma ShortIdIsNotUuid()
    ensures !IsUuid("121221")
  {
  }

  // ---------------------------------------------------------------------------
  // Entity
  // ---------------------------------------------------------------------------

  class Farmer {
    var id: Option<string>
    var document: string
    var name: string
    var createdAt: Option<Time>
    var updatedAt: Option<Time>

    /** `toJSON`: the five current fields. */
    function ToJson(): FarmerRecord
      reads this
    {
      FarmerRecord(id, document, name, createdAt, updatedAt)
    }

    predicate Valid()
      reads this
    {
      FarmerValid(ToJson())
    }

    constructor (r: FarmerRecord)
      ensures ToJson() == r
    {
      id := r.id;
      document := r.document;
      name := r.name;
      createdAt := r.createdAt;
      updatedAt := r.updatedAt;
    }

    static method Parse(input: FarmerInput) returns (r: Result<Farmer, ModelError>)
      ensures r.Success? <==> ParseFarmer(input).Success?
      ensures r.Success? ==> fresh(r.value) && r.value.ToJson() == ParseFarmer(input).value && r.value.Valid()
      ensures r.Failure? ==> r.error == ParseFarmer(input).error
    {
      var result := ParseFarmer(input);
      if result.Failure? {
        return Failure(result.error);
      }
      var farmer := new Farmer(result.value);
      return Success(farmer);
    }

    static method Create(p: FarmerCreateParams, now: Time) returns (r: Result<Farmer, ModelError>)
      ensures r.Success? <==> CreateFarmer(p, now).Success?
      ensures r.Success? ==> fresh(r.value) && r.value.ToJson() == CreateFarmer(p, now).value && r.value.Valid()
      ensures r.Failure? ==> r.error == CreateFarmer(p, now).error
    {
      var result := CreateFarmer(p, now);
      if result.Failure? {
        return Failure(result.error);
      }
      var farmer := new Farmer(result.value);
      return Success(farmer);
    }

    /** The three assignments `update` ends with: document, name and `updatedAt`. */
    method Assign(next: FarmerRecord)
      requires next.id == id && next.createdAt == createdAt
      modifies this
      ensures ToJson() == next
    {
      document := next.document;
      name := next.name;
      updatedAt := next.updatedAt;
    }

    /**
     * `update`: validate the merged record and, only when it validates,
     * reassign document, name and `updatedAt`; otherwise report the error and
     * change nothing.
     */
    method Update(patch: FarmerPatch, now: Time) returns (err: Option<ModelError>)
      modifies this
      ensures UpdateFarmer(old(ToJson()), patch, now).Success? ==>
        err == None && ToJson() == UpdateFarmer(old(ToJson()), patch, now).value
      ensures UpdateFarmer(old(ToJson()), patch, now).Failure? ==>
        err == Some(UpdateFarmer(old(ToJson()), patch, now).error) && ToJson() == old(ToJson())
      ensures id == old(id) && createdAt == old(createdAt)
      ensures err == None ==> Valid() && updatedAt == Some(now)
      ensures old(Valid()) ==> Valid()
    {
      var result := UpdateFarmer(ToJson(), patch, now);
      if result.Failure? {
        return Some(result.error);
      }
      Assign(result.value);
      return None;
    }
  }
}
