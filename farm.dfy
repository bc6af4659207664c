/**
 * The farm aggregate: the crop enumeration, the crop and farm schemas with
 * the refinement that derives the cultivable area and checks it against the
 * total area, the three entry paths and the entity that reassigns its fields
 * on a successful update only.
 */
module Farms {
  import opened Wrappers
  import opened Schema
  import opened ModelErrors
  import Farmers

  // ---------------------------------------------------------------------------
  // Crops
  // ---------------------------------------------------------------------------

  /** `CropTypeEnum`. */
  datatype CropType = Soy | Corn | Cotton | Coffee | SugarCane

  /** The string each enumeration member stands for. */
  function CropTypeValue(t: CropType): string {
    match t
    case Soy => "soy"
    case Corn => "corn"
    case Cotton => "cotton"
    case Coffee => "coffee"
    case SugarCane => "sugarCane"
  }

  /** `z.nativeEnum(CropTypeEnum)`: the member a string stands for, if any. */
  function ParseCropType(s: string): (r: Option<CropType>)
    ensures r.Some? ==> CropTypeValue(r.value) == s
    ensures r.None? ==> forall t: CropType :: CropTypeValue(t) != s
  {
    if s == "soy" then Some(Soy)
    else if s == "corn" then Some(Corn)
    else if s == "cotton" then Some(Cotton)
    else if s == "coffee" then Some(Coffee)
    else if s == "sugarCane" then Some(SugarCane)
    else None
  }

  /** Every member is recognised from its own string. */
  lemma CropTypeRoundTrip(t: CropType)
    ensures ParseCropType(CropTypeValue(t)) == Some(t)
  {
  }

  /** One element of `crops`, each property as the schema sees it. */
  datatype CropInput = CropInput(kind: Field<string>, totalArea: Field<int>)

  /** A validated crop. */
  datatype Crop = Crop(kind: CropType, totalArea: int)

  /** The crop schema: `type` first, then `totalArea`. */
  function ValidateCrop(c: CropInput, at: seq<PathSegment>): (r: Result<Crop, Issue>)
    ensures r.Success? <==> c.kind.Given? && ParseCropType(c.kind.value).Some? && c.totalArea.Given? && c.totalArea.value > 0
    ensures r.Success? ==> CropTypeValue(r.value.kind) == c.kind.value && Given(r.value.totalArea) == c.totalArea
  {
    var kind :- if c.kind.Given? && ParseCropType(c.kind.value).Some? then Success(ParseCropType(c.kind.value).value)
      else Failure(Issue(at + [Key("type")], "farm.invalid.cropType"));
    var area :- PositiveRule(c.totalArea, at + [Key("totalArea")], "farm.invalid.totalArea");
    Success(Crop(kind, area))
  }

  /** The issues of one crop, in the order the crop schema reports them. */
  function CropViolations(c: CropInput, at: seq<PathSegment>): seq<Issue> {
    (if c.kind.Given? && ParseCropType(c.kind.value).Some? then [] else [Issue(at + [Key("type")], "farm.invalid.cropType")])
    + Violation(PositiveRule(c.totalArea, at + [Key("totalArea")], "farm.invalid.totalArea"))
  }

  /** The elements of the crop array from index `offset` on, in index order. */
  function ValidateCrops(cs: seq<CropInput>, at: seq<PathSegment>, offset: nat): (r: Result<seq<Crop>, Issue>)
    ensures r.Success? ==> |r.value| == |cs|
    ensures r.Success? ==> forall i :: 0 <= i < |cs| ==>
      && cs[i].kind == Given(CropTypeValue(r.value[i].kind))
      && r.value[i].totalArea > 0 && cs[i].totalArea == Given(r.value[i].totalArea)
    decreases |cs|
  {
    if cs == [] then Success([])
    else
      var first :- ValidateCrop(cs[0], at + [Index(offset)]);
      var rest :- ValidateCrops(cs[1..], at, offset + 1);
      Success([first] + rest)
  }

  /** Every issue of every element, element by element. */
  function CropListViolations(cs: seq<CropInput>, at: seq<PathSegment>, offset: nat): seq<Issue>
    decreases |cs|
  {
    if cs == [] then [] else CropViolations(cs[0], at + [Index(offset)]) + CropListViolations(cs[1..], at, offset + 1)
  }

  /** The crop array fails exactly when some element has an issue, and reports the first one. */
  lemma {:induction false} CropListFirstViolation(cs: seq<CropInput>, at: seq<PathSegment>, offset: nat)
    ensures ValidateCrops(cs, at, offset).Success? <==> CropListViolations(cs, at, offset) == []
    ensures ValidateCrops(cs, at, offset).Failure? ==> ValidateCrops(cs, at, offset).error == CropListViolations(cs, at, offset)[0]
    decreases |cs|
  {
    if cs != [] {
      CropListFirstViolation(cs[1..], at, offset + 1);
    }
  }

  /** `z.array(crop).nonempty()`: a missing, mistyped or empty list reports 'farm.empty.crops'. */
  function CropsRule(f: Field<seq<CropInput>>): (r: Result<seq<Crop>, Issue>)
    ensures r.Success? ==> f.Given? && |r.value| == |f.value| > 0
    ensures r.Success? ==> forall i :: 0 <= i < |r.value| ==>
      && f.value[i].kind == Given(CropTypeValue(r.value[i].kind))
      && r.value[i].totalArea > 0 && f.value[i].totalArea == Given(r.value[i].totalArea)
    ensures !f.Given? || f.value == [] ==> r == Failure(Issue([Key("crops")], "farm.empty.crops"))
  {
    if !f.Given? || f.value == [] then Failure(Issue([Key("crops")], "farm.empty.crops"))
    else ValidateCrops(f.value, [Key("crops")], 0)
  }

  /** The crop inputs a stored crop list is re-validated from. */
  function CropInputs(cs: seq<Crop>): (r: seq<CropInput>)
    ensures |r| == |cs|
    ensures forall i :: 0 <= i < |cs| ==> r[i] == CropInput(Given(CropTypeValue(cs[i].kind)), Given(cs[i].totalArea))
  {
    if cs == [] then [] else [CropInput(Given(CropTypeValue(cs[0].kind)), Given(cs[0].totalArea))] + CropInputs(cs[1..])
  }

  /** Stored crops with positive areas re-validate to themselves. */
  lemma {:induction false} ValidateCropInputs(cs: seq<Crop>, at: seq<PathSegment>, offset: nat)
    requires forall i :: 0 <= i < |cs| ==> cs[i].totalArea > 0
    ensures ValidateCrops(CropInputs(cs), at, offset) == Success(cs)
  {
    if cs != [] {
      CropTypeRoundTrip(cs[0].kind);
      ValidateCropInputs(cs[1..], at, offset + 1);
      assert CropInputs(cs)[1..] == CropInputs(cs[1..]);
      assert [cs[0]] + cs[1..] == cs;
    }
  }

  /** Different members stand for different strings. */
  lemma CropTypeValueInjective(a: CropType, b: CropType)
    requires CropTypeValue(a) == CropTypeValue(b)
    ensures a == b
  {
    CropTypeRoundTrip(a);
    CropTypeRoundTrip(b);
  }

  /** Whatever a re-fed stored crop list validates to is that list again. */
  lemma StoredCropsBack(cs: seq<Crop>)
    requires CropsRule(Given(CropInputs(cs))).Success?
    ensures CropsRule(Given(CropInputs(cs))).value == cs
  {
    var r := CropsRule(Given(CropInputs(cs))).value;
    forall i | 0 <= i < |cs|
      ensures r[i] == cs[i]
    {
      CropTypeValueInjective(r[i].kind, cs[i].kind);
    }
  }

  /** `crops.reduce((total, crop) => total + crop.totalArea, 0)`, a left fold. */
  function CropSum(cs: seq<Crop>): int {
    if cs == [] then 0 else CropSum(cs[..|cs| - 1]) + cs[|cs| - 1].totalArea
  }

  /** A non-empty list of positive areas has a positive sum. */
  lemma {:induction false} CropSumPositive(cs: seq<Crop>)
    requires |cs| > 0 && forall i :: 0 <= i < |cs| ==> cs[i].totalArea > 0
    ensures CropSum(cs) > 0
  {
    if |cs| > 1 {
      CropSumPositive(cs[..|cs| - 1]);
    }
  }

  /** The sum can be taken from the front as well. */
  lemma {:induction false} CropSumCons(c: Crop, cs: seq<Crop>)
    ensures CropSum([c] + cs) == c.totalArea + CropSum(cs)
    decreases |cs|
  {
    if cs != [] {
      var last := cs[|cs| - 1];
      assert ([c] + cs)[..|cs|] == [c] + cs[..|cs| - 1];
      CropSumCons(c, cs[..|cs| - 1]);
    }
  }

  // ---------------------------------------------------------------------------
  // Farm schema
  // ---------------------------------------------------------------------------

  /** The object handed to the farm schema, each property as the schema sees it. */
  datatype FarmInput = FarmInput(
    id: Field<string>,
    name: Field<string>,
    city: Field<string>,
    state: Field<string>,
    totalArea: Field<int>,
    cultivableArea: Field<int>,
    vegetationArea: Field<int>,
    farmer: Option<Farmers.FarmerInput>,
    crops: Field<seq<CropInput>>,
    createdAt: Field<Time>,
    updatedAt: Field<Time>)

  /** A validated farm, as the schema outputs it and as `toJSON` returns it. */
  datatype FarmRecord = FarmRecord(
    id: Option<string>,
    name: string,
    city: string,
    state: string,
    totalArea: int,
    cultivableArea: int,
    vegetationArea: int,
    farmer: Option<Farmers.FarmerRecord>,
    crops: seq<Crop>,
    createdAt: Option<Time>,
    updatedAt: Option<Time>)

  const NameMax: nat := 250
  const CityMax: nat := 100
  const StateLength: nat := 2

  /** What every farm the schema accepts satisfies. */
  predicate FarmValid(r: FarmRecord) {
    && (r.id.Some? ==> IsUuid(r.id.value))
    && 1 <= |r.name| <= NameMax
    && 1 <= |r.city| <= CityMax && ToUpperCase(r.city) == r.city
    && |r.state| == StateLength && ToUpperCase(r.state) == r.state
    && r.totalArea > 0 && r.vegetationArea > 0
    && (r.farmer.Some? ==> Farmers.FarmerValid(r.farmer.value))
    && |r.crops| > 0 && (forall i :: 0 <= i < |r.crops| ==> r.crops[i].totalArea > 0)
    && r.cultivableArea == CropSum(r.crops)
    && r.cultivableArea + r.vegetationArea <= r.totalArea
  }

  /** `farmer.optional()`: an absent farmer passes, a present one goes through the farmer schema at path `farmer`. */
  function FarmerRule(f: Option<Farmers.FarmerInput>): (r: Result<Option<Farmers.FarmerRecord>, Issue>)
    ensures r.Success? <==> f.None? || Farmers.ValidateFarmer(f.value, [Key("farmer")]).Success?
    ensures r.Success? ==> r.value.Some? == f.Some?
    ensures r.Success? && f.Some? ==> r.value.value == Farmers.ValidateFarmer(f.value, [Key("farmer")]).value
    ensures r.Failure? ==> r.error == Farmers.ValidateFarmer(f.value, [Key("farmer")]).error
  {
    if f.None? then Success(None)
    else
      var v :- Farmers.ValidateFarmer(f.value, [Key("farmer")]);
      Success(Some(v))
  }

  /** The refinement: the derived cultivable area and the area invariant, reported on `totalArea`. */
  function AreaRefinement(totalArea: int, vegetationArea: int, crops: seq<Crop>): (r: Result<int, Issue>)
    ensures r.Success? <==> CropSum(crops) + vegetationArea <= totalArea
    ensures r.Success? ==> r.value == CropSum(crops)
    ensures r.Failure? ==> r.error == Issue([Key("totalArea")], "farmer.invalid.totalArea")
  {
    var cultivableArea := CropSum(crops);
    if cultivableArea + vegetationArea > totalArea then Failure(Issue([Key("totalArea")], "farmer.invalid.totalArea"))
    else Success(cultivableArea)
  }

  /** The field rules before `farmer`, in declaration order. */
  datatype Head = Head(id: Option<string>, name: string, city: string, state: string, totalArea: int, vegetationArea: int)

  function ValidateHead(input: FarmInput): (r: Result<Head, Issue>)
    ensures r.Success? ==>
      && input.id == AsField(r.value.id) && (r.value.id.Some? ==> IsUuid(r.value.id.value))
      && input.name == Given(r.value.name) && 1 <= |r.value.name| <= NameMax
      && input.city == Given(r.value.city) && 1 <= |r.value.city| <= CityMax
      && input.state == Given(r.value.state) && |r.value.state| == StateLength
      && input.totalArea == Given(r.value.totalArea) && r.value.totalArea > 0
      && input.vegetationArea == Given(r.value.vegetationArea) && r.value.vegetationArea > 0
      && !input.cultivableArea.WrongType? && (input.cultivableArea.Given? ==> input.cultivableArea.value > 0)
  {
    var id :- OptionalUuidRule(input.id, [Key("id")], "farm.invalid.id");
    var name :- StringRule(input.name, 1, NameMax, [Key("name")], "farm.invalid.name");
    var city :- StringRule(input.city, 1, CityMax, [Key("city")], "farm.invalid.city");
    var state :- StringRule(input.state, StateLength, StateLength, [Key("state")], "farm.invalid.state");
    var totalArea :- PositiveRule(input.totalArea, [Key("totalArea")], "farm.invalid.totalArea");
    var givenCultivableArea :- OptionalPositiveRule(input.cultivableArea, [Key("cultivableArea")], "farm.invalid.cultivableArea");
    var vegetationArea :- PositiveRule(input.vegetationArea, [Key("vegetationArea")], "farm.invalid.vegetationArea");
    Success(Head(id, name, city, state, totalArea, vegetationArea))
  }

  /** The head violations: the field rules before `farmer`, in declaration order. */
  function HeadViolations(input: FarmInput): seq<Issue> {
    Violation(OptionalUuidRule(input.id, [Key("id")], "farm.invalid.id"))
    + Violation(StringRule(input.name, 1, NameMax, [Key("name")], "farm.invalid.name"))
    + Violation(StringRule(input.city, 1, CityMax, [Key("city")], "farm.invalid.city"))
    + Violation(StringRule(input.state, StateLength, StateLength, [Key("state")], "farm.invalid.state"))
    + Violation(PositiveRule(input.totalArea, [Key("totalArea")], "farm.invalid.totalArea"))
    + Violation(OptionalPositiveRule(input.cultivableArea, [Key("cultivableArea")], "farm.invalid.cultivableArea"))
    + Violation(PositiveRule(input.vegetationArea, [Key("vegetationArea")], "farm.invalid.vegetationArea"))
  }

  lemma HeadFirstViolation(input: FarmInput)
    ensures ValidateHead(input).Success? <==> HeadViolations(input) == []
    ensures ValidateHead(input).Failure? ==> ValidateHead(input).error == HeadViolations(input)[0]
  {
  }

  /**
   * The rules after the head: the farmer, the crops, the timestamps, then the
   * refinement, which overwrites `cultivableArea` with the crop sum. `city`
   * and `state` are stored upper-cased.
   */
  function ValidateTail(input: FarmInput, head: Head): (r: Result<FarmRecord, Issue>)
    requires ValidateHead(input) == Success(head)
    ensures r.Success? ==> FarmValid(r.value)
    ensures r.Success? ==> r.value.id == head.id && r.value.name == head.name
    ensures r.Success? ==> r.value.city == ToUpperCase(head.city) && r.value.state == ToUpperCase(head.state)
    ensures r.Success? ==> r.value.totalArea == head.totalArea && r.value.vegetationArea == head.vegetationArea
    ensures r.Success? ==> input.createdAt == AsField(r.value.createdAt) && input.updatedAt == AsField(r.value.updatedAt)
    ensures r.Success? ==> FarmerRule(input.farmer) == Success(r.value.farmer) && CropsRule(input.crops) == Success(r.value.crops)
  {
    var farmer :- FarmerRule(input.farmer);
    var crops :- CropsRule(input.crops);
    var createdAt :- OptionalDateRule(input.createdAt, [Key("createdAt")], "farmer.invalid.createdAt");
    var updatedAt :- OptionalDateRule(input.updatedAt, [Key("updatedAt")], "farmer.invalid.updatedAt");
    var cultivableArea :- AreaRefinement(head.totalArea, head.vegetationArea, crops);
    ToUpperCaseIdempotent(head.city);
    ToUpperCaseIdempotent(head.state);
    Success(FarmRecord(
      head.id, head.name, ToUpperCase(head.city), ToUpperCase(head.state),
      head.totalArea, cultivableArea, head.vegetationArea,
      farmer, crops, createdAt, updatedAt))
  }

  /** The tail violations, the refinement listed when the values it reads passed their own rules. */
  function TailViolations(input: FarmInput): seq<Issue> {
    (if input.farmer.Some? then Farmers.FarmerViolations(input.farmer.value, [Key("farmer")]) else [])
    + (if !input.crops.Given? || input.crops.value == [] then [Issue([Key("crops")], "farm.empty.crops")]
       else CropListViolations(input.crops.value, [Key("crops")], 0))
    + Violation(OptionalDateRule(input.createdAt, [Key("createdAt")], "farmer.invalid.createdAt"))
    + Violation(OptionalDateRule(input.updatedAt, [Key("updatedAt")], "farmer.invalid.updatedAt"))
    + (if input.totalArea.Given? && input.vegetationArea.Given? && CropsRule(input.crops).Success?
       then Violation(AreaRefinement(input.totalArea.value, input.vegetationArea.value, CropsRule(input.crops).value))
       else [])
  }

  /** `v` is the issue list a rule's result `r` contributes: empty on success, headed by its error on failure. */
  predicate Reports<T>(r: Result<T, Issue>, v: seq<Issue>) {
    (r.Success? <==> v == []) && (r.Failure? ==> v != [] && v[0] == r.error)
  }

  lemma ViolationReports<T>(r: Result<T, Issue>)
    ensures Reports(r, Violation(r))
  {
  }

  lemma FarmerPartReports(f: Option<Farmers.FarmerInput>)
    ensures Reports(FarmerRule(f), if f.Some? then Farmers.FarmerViolations(f.value, [Key("farmer")]) else [])
  {
    if f.Some? {
      Farmers.FirstViolationReported(f.value, [Key("farmer")]);
    }
  }

  lemma CropsPartReports(f: Field<seq<CropInput>>)
    ensures Reports(CropsRule(f),
      if !f.Given? || f.value == [] then [Issue([Key("crops")], "farm.empty.crops")]
      else CropListViolations(f.value, [Key("crops")], 0))
  {
    if f.Given? && f.value != [] {
      CropListFirstViolation(f.value, [Key("crops")], 0);
    }
  }

  /** Issue lists concatenated in rule order report the first failing rule. */
  lemma ReportsConcat(a: seq<Issue>, b: seq<Issue>)
    ensures a != [] ==> (a + b)[0] == a[0]
    ensures a == [] ==> a + b == b
  {
  }

  lemma TailFirstViolation(input: FarmInput, head: Head)
    requires ValidateHead(input) == Success(head)
    ensures ValidateTail(input, head).Success? <==> TailViolations(input) == []
    ensures ValidateTail(input, head).Failure? ==> ValidateTail(input, head).error == TailViolations(input)[0]
  {
    var farmer := FarmerRule(input.farmer);
    var crops := CropsRule(input.crops);
    var createdAt := OptionalDateRule(input.createdAt, [Key("createdAt")], "farmer.invalid.createdAt");
    var updatedAt := OptionalDateRule(input.updatedAt, [Key("updatedAt")], "farmer.invalid.updatedAt");
    var v1 := if input.farmer.Some? then Farmers.FarmerViolations(input.farmer.value, [Key("farmer")]) else [];
    var v2 := if !input.crops.Given? || input.crops.value == [] then [Issue([Key("crops")], "farm.empty.crops")]
      else CropListViolations(input.crops.value, [Key("crops")], 0);
    var v3 := Violation(createdAt);
    var v4 := Violation(updatedAt);
    var v5 := if crops.Success? then Violation(AreaRefinement(head.totalArea, head.vegetationArea, crops.value)) else [];
    assert TailViolations(input) == (v1 + v2 + v3 + v4) + v5;
    FarmerPartReports(input.farmer);
    CropsPartReports(input.crops);
    ViolationReports(createdAt);
    ViolationReports(updatedAt);
    ReportsConcat(v1, v2);
    ReportsConcat(v1 + v2, v3);
    ReportsConcat(v1 + v2 + v3, v4);
    ReportsConcat(v1 + v2 + v3 + v4, v5);
    if farmer.Failure? {
      assert ValidateTail(input, head) == Failure(farmer.error);
    } else if crops.Failure? {
      assert ValidateTail(input, head) == Failure(crops.error);
    } else if createdAt.Failure? {
      assert ValidateTail(input, head) == Failure(createdAt.error);
    } else if updatedAt.Failure? {
      assert ValidateTail(input, head) == Failure(updatedAt.error);
    } else {
      var area := AreaRefinement(head.totalArea, head.vegetationArea, crops.value);
      ViolationReports(area);
      assert ValidateTail(input, head).Success? <==> area.Success?;
    }
  }

  /**
   * `farm.safeParse`, reduced to the first issue it collects: the field
   * rules in declaration order (the nested farmer with its own refinement),
   * then the refinement.
   */
  function ValidateFarm(input: FarmInput): (r: Result<FarmRecord, Issue>)
    ensures r.Success? ==> FarmValid(r.value)
    ensures r.Success? ==> input.id == AsField(r.value.id)
    ensures r.Success? ==> input.createdAt == AsField(r.value.createdAt) && input.updatedAt == AsField(r.value.updatedAt)
    ensures r.Success? ==>
      && input.name == Given(r.value.name)
      && input.city.Given? && r.value.city == ToUpperCase(input.city.value)
      && input.state.Given? && r.value.state == ToUpperCase(input.state.value)
      && input.totalArea == Given(r.value.totalArea) && input.vegetationArea == Given(r.value.vegetationArea)
    ensures r.Success? ==> FarmerRule(input.farmer) == Success(r.value.farmer) && CropsRule(input.crops) == Success(r.value.crops)
  {
    var head :- ValidateHead(input);
    ValidateTail(input, head)
  }

  /** Every rule the input violates, in the order the schema reports them. */
  function FarmViolations(input: FarmInput): seq<Issue> {
    HeadViolations(input) + TailViolations(input)
  }

  /** Validation fails exactly when some rule is violated, and it reports the first violation. */
  lemma FarmFirstViolationReported(input: FarmInput)
    ensures ValidateFarm(input).Success? <==> FarmViolations(input) == []
    ensures ValidateFarm(input).Failure? ==> ValidateFarm(input).error == FarmViolations(input)[0]
  {
    HeadFirstViolation(input);
    if ValidateHead(input).Success? {
      TailFirstViolation(input, ValidateHead(input).value);
      assert FarmViolations(input) == TailViolations(input);
    }
  }

  /** The object a stored farm is re-validated from (`toJSON`, absent fields undefined). */
  function FarmRecordInput(r: FarmRecord): FarmInput {
    FarmInput(
      AsField(r.id), Given(r.name), Given(r.city), Given(r.state),
      Given(r.totalArea), Given(r.cultivableArea), Given(r.vegetationArea),
      StoredFarmer(r.farmer), Given(CropInputs(r.crops)),
      AsField(r.createdAt), AsField(r.updatedAt))
  }

  /** The stored farmer, as the nested farmer schema receives it. */
  function StoredFarmer(f: Option<Farmers.FarmerRecord>): Option<Farmers.FarmerInput> {
    if f.Some? then Some(Farmers.RecordInput(f.value)) else None
  }

  /** A valid farm re-validates to itself. */
  lemma ValidateFarmRecord(r: FarmRecord)
    requires FarmValid(r)
    ensures ValidateFarm(FarmRecordInput(r)) == Success(r)
  {
    var input := FarmRecordInput(r);
    var head := Head(r.id, r.name, r.city, r.state, r.totalArea, r.vegetationArea);
    CropSumPositive(r.crops);
    assert ValidateHead(input) == Success(head);
    if r.farmer.Some? {
      Farmers.ValidateRecord(r.farmer.value, [Key("farmer")]);
    }
    ValidateCropInputs(r.crops, [Key("crops")], 0);
    assert CropsRule(input.crops) == Success(r.crops);
  }

  // ---------------------------------------------------------------------------
  // Entry paths
  // ---------------------------------------------------------------------------

  /** `CreateParams`. */
  datatype FarmCreateParams = FarmCreateParams(
    name: Field<string>,
    city: Field<string>,
    state: Field<string>,
    totalArea: Field<int>,
    vegetationArea: Field<int>,
    farmer: Option<Farmers.FarmerInput>,
    crops: Field<seq<CropInput>>)

  /** `UpdateParams`: any of the create parameters. */
  datatype FarmPatch = FarmPatch(
    name: Option<string>,
    city: Option<string>,
    state: Option<string>,
    totalArea: Option<int>,
    vegetationArea: Option<int>,
    farmer: Option<Farmers.FarmerInput>,
    crops: Option<seq<CropInput>>)

  /** `Farm.parse`: validate a stored record, keeping its id and timestamps. */
  function ParseFarm(input: FarmInput): (r: Result<FarmRecord, ModelError>)
    ensures r.Success? <==> ValidateFarm(input).Success?
    ensures r.Success? ==> FarmValid(r.value)
    ensures r.Success? ==> input.id == AsField(r.value.id)
    ensures r.Success? ==> input.createdAt == AsField(r.value.createdAt) && input.updatedAt == AsField(r.value.updatedAt)
    ensures r.Success? ==> ValidateFarm(input) == Success(r.value)
    ensures r.Failure? ==> r.error.kind == FarmParser
  {
    Report(ValidateFarm(input), FarmParser)
  }

  /** The object `Farm.create` validates: the parameters stamped with `createdAt`. */
  function CreateInput(p: FarmCreateParams, now: Time): FarmInput {
    FarmInput(
      Missing, p.name, p.city, p.state, p.totalArea, Missing, p.vegetationArea,
      p.farmer, p.crops, Given(now), Missing)
  }

  /** `Farm.create`: a new farm without id or `updatedAt`, created at `now`. */
  function CreateFarm(p: FarmCreateParams, now: Time): (r: Result<FarmRecord, ModelError>)
    ensures r.Success? <==> ValidateFarm(CreateInput(p, now)).Success?
    ensures r.Success? ==> FarmValid(r.value)
    ensures r.Success? ==> r.value.id == None && r.value.createdAt == Some(now) && r.value.updatedAt == None
    ensures r.Success? ==>
      && p.name == Given(r.value.name)
      && p.city.Given? && r.value.city == ToUpperCase(p.city.value)
      && p.state.Given? && r.value.state == ToUpperCase(p.state.value)
      && p.totalArea == Given(r.value.totalArea) && p.vegetationArea == Given(r.value.vegetationArea)
      && r.value.cultivableArea == CropSum(r.value.crops)
    ensures r.Success? ==> FarmerRule(p.farmer) == Success(r.value.farmer) && CropsRule(p.crops) == Success(r.value.crops)
    ensures r.Failure? ==> r.error.kind == FarmCreate
  {
    Report(ValidateFarm(CreateInput(p, now)), FarmCreate)
  }

  /**
   * The object `Farm.update` validates: the current fields, overridden by the
   * truthy patch values (a list or an object is truthy even when empty),
   * stamped with `updatedAt`; the stored `cultivableArea` goes along.
   */
  function UpdateInput(current: FarmRecord, patch: FarmPatch, now: Time): FarmInput {
    FarmInput(
      AsField(current.id),
      Given(OrString(patch.name, current.name)),
      Given(OrString(patch.city, current.city)),
      Given(OrString(patch.state, current.state)),
      Given(OrNumber(patch.totalArea, current.totalArea)),
      Given(current.cultivableArea),
      Given(OrNumber(patch.vegetationArea, current.vegetationArea)),
      if patch.farmer.Some? then patch.farmer else StoredFarmer(current.farmer),
      Given(OrObject(patch.crops, CropInputs(current.crops))),
      AsField(current.createdAt),
      Given(now))
  }

  /**
   * `Farm.update` on the current record: the new record, or the error it
   * throws. Every field but `id` and `createdAt` is reassigned.
   */
  function UpdateFarm(current: FarmRecord, patch: FarmPatch, now: Time): (r: Result<FarmRecord, ModelError>)
    ensures r.Success? <==> ValidateFarm(UpdateInput(current, patch, now)).Success?
    ensures r.Success? ==> r.value.id == current.id && r.value.createdAt == current.createdAt
    ensures r.Failure? ==> r.error.kind == FarmUpdate
  {
    var v :- Report(ValidateFarm(UpdateInput(current, patch, now)), FarmUpdate);
    Success(current.(
      name := v.name, city := v.city, state := v.state,
      totalArea := v.totalArea, cultivableArea := v.cultivableArea, vegetationArea := v.vegetationArea,
      farmer := v.farmer, crops := v.crops, updatedAt := v.updatedAt))
  }

  /**
   * A successful update yields a valid farm stamped at `now` whose cultivable
   * area is the sum of the crop list in effect.
   */
  lemma UpdateFarmValid(current: FarmRecord, patch: FarmPatch, now: Time)
    requires UpdateFarm(current, patch, now).Success?
    ensures var r := UpdateFarm(current, patch, now).value;
      && FarmValid(r) && r.updatedAt == Some(now)
      && r.cultivableArea == CropSum(r.crops)
      && r.name == OrString(patch.name, current.name)
      && r.totalArea == OrNumber(patch.totalArea, current.totalArea)
      && r.vegetationArea == OrNumber(patch.vegetationArea, current.vegetationArea)
      && r.city == ToUpperCase(OrString(patch.city, current.city))
      && r.state == ToUpperCase(OrString(patch.state, current.state))
      && FarmerRule(if patch.farmer.Some? then patch.farmer else StoredFarmer(current.farmer)) == Success(r.farmer)
      && CropsRule(Given(OrObject(patch.crops, CropInputs(current.crops)))) == Success(r.crops)
    ensures patch.crops.None? ==> UpdateFarm(current, patch, now).value.crops == current.crops
    ensures patch.farmer.None? && FarmValid(current) ==> UpdateFarm(current, patch, now).value.farmer == current.farmer
  {
    if patch.crops.None? {
      StoredCropsBack(current.crops);
    }
    if patch.farmer.None? && FarmValid(current) && current.farmer.Some? {
      Farmers.ValidateRecord(current.farmer.value, [Key("farmer")]);
    }
  }

  /** The error an entry path throws carries the first violation's message and its joined path. */
  lemma EntryErrorIsFirstViolation(input: FarmInput, kind: ErrorKind)
    requires kind in {FarmCreate, FarmParser, FarmUpdate}
    requires ValidateFarm(input).Failure?
    ensures FarmViolations(input) != []
    ensures var first := FarmViolations(input)[0];
      Report(ValidateFarm(input), kind).error == ModelError(kind, first.message, Some(JoinPath(first.path)))
  {
    FarmFirstViolationReported(input);
    var first := FarmViolations(input)[0];
    EntryKindsPassMessageThrough(kind, first.message, Some(JoinPath(first.path)));
  }

  /** Parsing a valid stored farm gives it back unchanged. */
  lemma ParseFarmRecord(r: FarmRecord)
    requires FarmValid(r)
    ensures ParseFarm(FarmRecordInput(r)) == Success(r)
  {
    ValidateFarmRecord(r);
  }

  /**
   * An update whose every field is absent or falsy (empty strings, zero areas)
   * keeps every field of a valid farm and only stamps `updatedAt`.
   */
  lemma UpdateWithFalsyPatch(current: FarmRecord, patch: FarmPatch, now: Time)
    requires FarmValid(current)
    requires patch.name in {None, Some("")} && patch.city in {None, Some("")} && patch.state in {None, Some("")}
    requires patch.totalArea in {None, Some(0)} && patch.vegetationArea in {None, Some(0)}
    requires patch.farmer.None? && patch.crops.None?
    ensures UpdateFarm(current, patch, now) == Success(current.(updatedAt := Some(now)))
  {
    ValidateFarmRecord(current.(updatedAt := Some(now)));
    assert UpdateInput(current, patch, now) == FarmRecordInput(current.(updatedAt := Some(now)));
  }

  /** An empty crop list is truthy, so it replaces the stored list and the update fails. */
  lemma UpdateWithEmptyCropsFails(current: FarmRecord, now: Time)
    requires FarmValid(current)
    ensures UpdateFarm(current, FarmPatch(None, None, None, None, None, None, Some([])), now)
      == Failure(ModelError(FarmUpdate, "farm.empty.crops", Some("crops")))
  {
    EmptyCropsInputFails(current, now);
    assert JoinPath([Key("crops")]) == "crops";
  }

  /** The merged input of that update fails on the crop list, after the head and the farmer pass. */
  lemma EmptyCropsInputFails(current: FarmRecord, now: Time)
    requires FarmValid(current)
    ensures ValidateFarm(UpdateInput(current, FarmPatch(None, None, None, None, None, None, Some([])), now))
      == Failure(Issue([Key("crops")], "farm.empty.crops"))
  {
    var input := UpdateInput(current, FarmPatch(None, None, None, None, None, None, Some([])), now);
    if current.farmer.Some? {
      Farmers.ValidateRecord(current.farmer.value, [Key("farmer")]);
    }
    CropSumPositive(current.crops);
    assert ValidateHead(input).Success?;
    assert FarmerRule(input.farmer).Success?;
    assert CropsRule(input.crops) == Failure(Issue([Key("crops")], "farm.empty.crops"));
  }

  // ---------------------------------------------------------------------------
  // Entity
  // ---------------------------------------------------------------------------

  class Farm {
    var id: Option<string>
    var name: string
    var city: string
    var state: string
    var totalArea: int
    var cultivableArea: int
    var vegetationArea: int
    var farmer: Option<Farmers.FarmerRecord>
    var crops: seq<Crop>
    var createdAt: Option<Time>
    var updatedAt: Option<Time>

    /** `toJSON`: the eleven current fields. */
    function ToJson(): FarmRecord
      reads this
    {
      FarmRecord(id, name, city, state, totalArea, cultivableArea, vegetationArea, farmer, crops, createdAt, updatedAt)
    }

    predicate Valid()
      reads this
    {
      FarmValid(ToJson())
    }

    constructor (r: FarmRecord)
      ensures ToJson() == r
    {
      id := r.id;
      name := r.name;
      city := r.city;
      state := r.state;
      totalArea := r.totalArea;
      cultivableArea := r.cultivableArea;
      vegetationArea := r.vegetationArea;
      farmer := r.farmer;
      crops := r.crops;
      createdAt := r.createdAt;
      updatedAt := r.updatedAt;
    }

    static method Parse(input: FarmInput) returns (r: Result<Farm, ModelError>)
      ensures r.Success? <==> ParseFarm(input).Success?
      ensures r.Success? ==> fresh(r.value) && r.value.ToJson() == ParseFarm(input).value && r.value.Valid()
      ensures r.Failure? ==> r.error == ParseFarm(input).error
    {
      var result := ParseFarm(input);
      if result.Failure? {
        return Failure(result.error);
      }
      var farm := new Farm(result.value);
      return Success(farm);
    }

    static method Create(p: FarmCreateParams, now: Time) returns (r: Result<Farm, ModelError>)
      ensures r.Success? <==> CreateFarm(p, now).Success?
      ensures r.Success? ==> fresh(r.value) && r.value.ToJson() == CreateFarm(p, now).value && r.value.Valid()
      ensures r.Failure? ==> r.error == CreateFarm(p, now).error
    {
      var result := CreateFarm(p, now);
      if result.Failure? {
        return Failure(result.error);
      }
      var farm := new Farm(result.value);
      return Success(farm);
    }

    /** The nine assignments `update` ends with: every field but `id` and `createdAt`. */
    method Assign(next: FarmRecord)
      requires next.id == id && next.createdAt == createdAt
      modifies this
      ensures ToJson() == next
    {
      name := next.name;
      city := next.city;
      state := next.state;
      totalArea := next.totalArea;
      cultivableArea := next.cultivableArea;
      vegetationArea := next.vegetationArea;
      farmer := next.farmer;
      crops := next.crops;
      updatedAt := next.updatedAt;
    }

    /**
     * `update`: validate the merged record and, only when it validates,
     * reassign nine fields; otherwise report the error and change nothing.
     */
    method Update(patch: FarmPatch, now: Time) returns (err: Option<ModelError>)
      modifies this
      ensures UpdateFarm(old(ToJson()), patch, now).Success? ==>
        err == None && ToJson() == UpdateFarm(old(ToJson()), patch, now).value
      ensures UpdateFarm(old(ToJson()), patch, now).Failure? ==>
        err == Some(UpdateFarm(old(ToJson()), patch, now).error) && ToJson() == old(ToJson())
      ensures id == old(id) && createdAt == old(createdAt)
      ensures err == None ==> Valid() && updatedAt == Some(now) && cultivableArea == CropSum(crops)
      ensures old(Valid()) ==> Valid()
    {
      var result := UpdateFarm(ToJson(), patch, now);
      if result.Failure? {
        return Some(result.error);
      }
      UpdateFarmValid(ToJson(), patch, now);
      Assign(result.value);
      return None;
    }
  }
}
