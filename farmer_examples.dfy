/**
 * The documented farmer scenarios whose documents are concrete, evaluated on
 * the model: an update that replaces name and document, an update whose new
 * document fails both checks, and the farmer a farm update brings along.
 */
module FarmerExamples {
  import opened Wrappers
  import opened Schema
  import opened ModelErrors
  import Documents
  import DocumentExamples
  import opened Farmers

  /** The input an update with a nonempty document and name validates. */
  lemma UpdateInputOf(current: FarmerRecord, document: string, name: string, now: Time)
    requires document != "" && name != ""
    ensures UpdateInput(current, FarmerPatch(Some(document), Some(name)), now)
      == FarmerInput(AsField(current.id), Given(document), Given(name), AsField(current.createdAt), Given(now))
  {
  }

  /** Stored id and creation time, a name within bounds and a document that parses: the input validates. */
  lemma AcceptedUpdateInput(id: Option<string>, document: string, canonical: string, name: string, createdAt: Option<Time>, now: Time)
    requires (id.Some? ==> IsUuid(id.value)) && 1 <= |name| <= NameMax
    requires Documents.Parse(document) == Success(Documents.Document(canonical))
    ensures ValidateFarmer(FarmerInput(AsField(id), Given(document), Given(name), AsField(createdAt), Given(now)), [])
      == Success(FarmerRecord(id, canonical, name, createdAt, Some(now)))
  {
    assert Documents.TryParse(document);
    assert DocumentRefinement(document, []) == Success(canonical);
  }

  /** The same input with a document that parses as neither CPF nor CNPJ fails on the document. */
  lemma RejectedUpdateInput(id: Option<string>, document: string, name: string, createdAt: Option<Time>, now: Time)
    requires (id.Some? ==> IsUuid(id.value)) && 1 <= |name| <= NameMax
    requires Documents.Parse(document).Failure?
    ensures ValidateFarmer(FarmerInput(AsField(id), Given(document), Given(name), AsField(createdAt), Given(now)), [])
      == Failure(Issue([Key("document")], "farmer.invalid.document"))
  {
    assert !Documents.TryParse(document);
    assert [] + [Key("document")] == [Key("document")];
  }

  /** The document issue becomes the update error on the field 'document'. */
  lemma DocumentIssueError()
    ensures HandleZodError(Issue([Key("document")], "farmer.invalid.document"), FarmerUpdate)
      == ModelError(FarmerUpdate, "farmer.invalid.document", Some("document"))
  {
    assert JoinPath([Key("document")]) == "document";
  }

  /** An update with a nonempty name and a document that parses stores the parsed document and the name. */
  lemma UpdateWithParsedDocument(current: FarmerRecord, document: string, canonical: string, name: string, now: Time)
    requires FarmerValid(current) && document != "" && 1 <= |name| <= NameMax
    requires Documents.Parse(document) == Success(Documents.Document(canonical))
    ensures UpdateFarmer(current, FarmerPatch(Some(document), Some(name)), now)
      == Success(current.(document := canonical, name := name, updatedAt := Some(now)))
  {
    UpdateInputOf(current, document, name, now);
    AcceptedUpdateInput(current.id, document, canonical, name, current.createdAt, now);
  }

  /** An update whose document parses as neither CPF nor CNPJ is rejected on the document. */
  lemma UpdateWithRejectedDocument(current: FarmerRecord, document: string, name: string, now: Time)
    requires FarmerValid(current) && document != "" && 1 <= |name| <= NameMax
    requires Documents.Parse(document).Failure?
    ensures UpdateFarmer(current, FarmerPatch(Some(document), Some(name)), now)
      == Failure(ModelError(FarmerUpdate, "farmer.invalid.document", Some("document")))
  {
    UpdateInputOf(current, document, name, now);
    RejectedUpdateInput(current.id, document, name, current.createdAt, now);
    DocumentIssueError();
  }

  /** A farmer input with a uuid, a nonempty name and a document that parses validates with the parsed document. */
  lemma ValidateWithParsedDocument(id: string, document: string, canonical: string, name: string)
    requires IsUuid(id) && 1 <= |name| <= NameMax
    requires Documents.Parse(document) == Success(Documents.Document(canonical))
    ensures ValidateFarmer(FarmerInput(Given(id), Given(document), Given(name), Missing, Missing), [Key("farmer")])
      == Success(FarmerRecord(Some(id), canonical, name, None, None))
  {
  }

  /** `update({ name: 'New Name', document: '33.487.511/0001-39' })` stores the CNPJ '33487511000139'. */
  lemma UpdateNameAndCnpj(current: FarmerRecord, now: Time)
    requires FarmerValid(current)
    ensures UpdateFarmer(current, FarmerPatch(Some("33.487.511/0001-39"), Some("New Name")), now)
      == Success(current.(document := "33487511000139", name := "New Name", updatedAt := Some(now)))
  {
    DocumentExamples.ExampleCnpj33487511000139("33.487.511/0001-39");
    UpdateWithParsedDocument(current, "33.487.511/0001-39", "33487511000139", "New Name", now);
  }

  /** `update({ name: 'New Name', document: '01.387.511/0001-15' })` throws 'farmer.invalid.document'. */
  lemma UpdateRejectsCnpj(current: FarmerRecord, now: Time)
    requires FarmerValid(current)
    ensures UpdateFarmer(current, FarmerPatch(Some("01.387.511/0001-15"), Some("New Name")), now)
      == Failure(ModelError(FarmerUpdate, "farmer.invalid.document", Some("document")))
  {
    DocumentExamples.ExampleRejectedCnpj01387511000115("01.387.511/0001-15");
    UpdateWithRejectedDocument(current, "01.387.511/0001-15", "New Name", now);
  }

  /** The farmer `{ id, name, document: '292.057.320-95' }` of a farm update validates with the document '29205732095'. */
  lemma FarmerWithFormattedCpf(id: string, name: string)
    requires IsUuid(id) && 1 <= |name| <= NameMax
    ensures ValidateFarmer(FarmerInput(Given(id), Given("292.057.320-95"), Given(name), Missing, Missing), [Key("farmer")])
      == Success(FarmerRecord(Some(id), "29205732095", name, None, None))
  {
    DocumentExamples.ExampleCpf29205732095("292.057.320-95");
    ValidateWithParsedDocument(id, "292.057.320-95", "29205732095", name);
  }
}
