/**
 * The scenarios the farm model is exercised with: a farm created from two
 * crops, the updated farm, and the first error each kind of bad parameter
 * produces. Each holds for every other parameter that passes its rules.
 */
module FarmExamples {
  import opened Wrappers
  import opened Schema
  import opened ModelErrors
  import Farmers
  import opened Farms
  import FarmerExamples

  /** The head parameters (`name`, `city`, `state`) pass their rules. */
  predicate TextOk(p: FarmCreateParams) {
    && p.name.Given? && 1 <= |p.name.value| <= NameMax
    && p.city.Given? && 1 <= |p.city.value| <= CityMax
    && p.state.Given? && |p.state.value| == StateLength
  }

  /** Every parameter before `farmer` passes its rule. */
  predicate HeadOk(p: FarmCreateParams) {
    && TextOk(p)
    && p.totalArea.Given? && p.totalArea.value > 0
    && p.vegetationArea.Given? && p.vegetationArea.value > 0
  }

  /** The head `Farm.create` validates from parameters that pass their head rules. */
  function CreateHead(p: FarmCreateParams): Head
    requires HeadOk(p)
  {
    Head(None, p.name.value, p.city.value, p.state.value, p.totalArea.value, p.vegetationArea.value)
  }

  lemma CreateHeadValid(p: FarmCreateParams, now: Time)
    requires HeadOk(p)
    ensures ValidateHead(CreateInput(p, now)) == Success(CreateHead(p))
  {
  }

  lemma CreateFailure(p: FarmCreateParams, now: Time, first: Issue)
    requires ValidateFarm(CreateInput(p, now)) == Failure(first)
    requires first.message != ""
    ensures CreateFarm(p, now) == Failure(ModelError(FarmCreate, first.message, Some(JoinPath(first.path))))
  {
  }

  /** One element of a crop list validated, followed by the rest. */
  lemma CropsCons(cs: seq<CropInput>, at: seq<PathSegment>, offset: nat, c: Crop, rest: seq<Crop>)
    requires cs != []
    requires ValidateCrop(cs[0], at + [Index(offset)]) == Success(c)
    requires ValidateCrops(cs[1..], at, offset + 1) == Success(rest)
    ensures ValidateCrops(cs, at, offset) == Success([c] + rest)
  {
  }

  /** A list whose first element fails reports that element's issue. */
  lemma CropsHeadFails(cs: seq<CropInput>, at: seq<PathSegment>, offset: nat, issue: Issue)
    requires cs != []
    requires ValidateCrop(cs[0], at + [Index(offset)]) == Failure(issue)
    ensures ValidateCrops(cs, at, offset) == Failure(issue)
  {
  }

  /** A list whose first element passes reports the first issue of the rest. */
  lemma CropsTailFails(cs: seq<CropInput>, at: seq<PathSegment>, offset: nat, issue: Issue)
    requires cs != [] && ValidateCrop(cs[0], at + [Index(offset)]).Success?
    requires ValidateCrops(cs[1..], at, offset + 1) == Failure(issue)
    ensures ValidateCrops(cs, at, offset) == Failure(issue)
  {
  }

  /** Two crops that both pass. */
  lemma TwoCrops(cs: seq<CropInput>, a: Crop, b: Crop)
    requires |cs| == 2 && a.totalArea > 0 && b.totalArea > 0
    requires cs[0] == CropInput(Given(CropTypeValue(a.kind)), Given(a.totalArea))
    requires cs[1] == CropInput(Given(CropTypeValue(b.kind)), Given(b.totalArea))
    ensures CropsRule(Given(cs)) == Success([a, b])
    ensures CropSum([a, b]) == a.totalArea + b.totalArea
  {
    var at := [Key("crops")];
    CropTypeRoundTrip(a.kind);
    CropTypeRoundTrip(b.kind);
    assert ValidateCrop(cs[0], at + [Index(0)]) == Success(a);
    assert ValidateCrop(cs[1], at + [Index(1)]) == Success(b);
    assert cs[1..][1..] == [];
    CropsCons(cs[1..], at, 1, b, []);
    assert [b] + [] == [b];
    CropsCons(cs, at, 0, a, [b]);
    assert [a] + [b] == [a, b];
    CropSumCons(b, []);
    CropSumCons(a, [b]);
    assert [b] + [] == [b];
  }

  // ---------------------------------------------------------------------------
  // Creating a farm
  // ---------------------------------------------------------------------------

  function SoyAndCorn(): seq<CropInput> {
    [CropInput(Given("soy"), Given(1000)), CropInput(Given("corn"), Given(2000))]
  }

  lemma SoyAndCornValid()
    ensures CropsRule(Given(SoyAndCorn())) == Success([Crop(Soy, 1000), Crop(Corn, 2000)])
    ensures CropSum([Crop(Soy, 1000), Crop(Corn, 2000)]) == 3000
  {
    TwoCrops(SoyAndCorn(), Crop(Soy, 1000), Crop(Corn, 2000));
  }

  /**
   * Two crops of 1000 and 2000 on a farm of 10000 with 5000 of vegetation:
   * the cultivable area is 3000, city and state are upper-cased, and the
   * farm has no id or `updatedAt`.
   */
  lemma CreateWithTwoCrops(p: FarmCreateParams, now: Time)
    requires TextOk(p) && p.totalArea == Given(10000) && p.vegetationArea == Given(5000)
    requires FarmerRule(p.farmer).Success?
    requires p.crops == Given(SoyAndCorn())
    ensures CreateFarm(p, now) == Success(FarmRecord(
      None, p.name.value, ToUpperCase(p.city.value), ToUpperCase(p.state.value),
      10000, 3000, 5000, FarmerRule(p.farmer).value,
      [Crop(Soy, 1000), Crop(Corn, 2000)], Some(now), None))
  {
    CreateHeadValid(p, now);
    SoyAndCornValid();
  }

  // ---------------------------------------------------------------------------
  // The first error of each kind of bad parameter
  // ---------------------------------------------------------------------------

  /** A mistyped, empty or overlong name is the first error, whatever the other parameters are. */
  lemma CreateRejectsName(p: FarmCreateParams, now: Time)
    requires !(p.name.Given? && 1 <= |p.name.value| <= NameMax)
    ensures CreateFarm(p, now) == Failure(ModelError(FarmCreate, "farm.invalid.name", Some("name")))
  {
  }

  lemma CreateRejectsCity(p: FarmCreateParams, now: Time)
    requires p.name.Given? && 1 <= |p.name.value| <= NameMax
    requires !(p.city.Given? && 1 <= |p.city.value| <= CityMax)
    ensures CreateFarm(p, now) == Failure(ModelError(FarmCreate, "farm.invalid.city", Some("city")))
  {
  }

  lemma CreateRejectsState(p: FarmCreateParams, now: Time)
    requires p.name.Given? && 1 <= |p.name.value| <= NameMax
    requires p.city.Given? && 1 <= |p.city.value| <= CityMax
    requires !(p.state.Given? && |p.state.value| == StateLength)
    ensures CreateFarm(p, now) == Failure(ModelError(FarmCreate, "farm.invalid.state", Some("state")))
  {
  }

  /** A zero, negative or mistyped total area. */
  lemma CreateRejectsTotalArea(p: FarmCreateParams, now: Time)
    requires TextOk(p)
    requires !(p.totalArea.Given? && p.totalArea.value > 0)
    ensures CreateFarm(p, now) == Failure(ModelError(FarmCreate, "farm.invalid.totalArea", Some("totalArea")))
  {
  }

  lemma CreateRejectsVegetationArea(p: FarmCreateParams, now: Time)
    requires TextOk(p) && p.totalArea.Given? && p.totalArea.value > 0
    requires !(p.vegetationArea.Given? && p.vegetationArea.value > 0)
    ensures CreateFarm(p, now) == Failure(ModelError(FarmCreate, "farm.invalid.vegetationArea", Some("vegetationArea")))
  {
  }

  /** An empty farmer object fails on its missing document, reported on `farmer.document`. */
  lemma CreateRejectsEmptyFarmer(p: FarmCreateParams, now: Time)
    requires HeadOk(p)
    requires p.farmer == Some(Farmers.FarmerInput(Missing, Missing, Missing, Missing, Missing))
    ensures CreateFarm(p, now) == Failure(ModelError(FarmCreate, "farmer.invalid.document", Some("farmer.document")))
  {
    CreateHeadValid(p, now);
    var issue := Issue([Key("farmer"), Key("document")], "farmer.invalid.document");
    assert [Key("farmer")] + [Key("document")] == issue.path;
    assert Farmers.ValidateFarmer(p.farmer.value, [Key("farmer")]) == Failure(issue);
    assert JoinPath(issue.path) == "farmer.document";
    CreateFailure(p, now, issue);
  }

  /** A missing or empty crop list. */
  lemma CreateRejectsNoCrops(p: FarmCreateParams, now: Time)
    requires HeadOk(p) && FarmerRule(p.farmer).Success?
    requires p.crops == Missing || p.crops == Given([])
    ensures CreateFarm(p, now) == Failure(ModelError(FarmCreate, "farm.empty.crops", Some("crops")))
  {
    CreateHeadValid(p, now);
  }

  function UnknownSecondCrop(): seq<CropInput> {
    [CropInput(Given("soy"), Given(5000)), CropInput(Given("xxx"), Given(-1))]
  }

  /** A crop list that fails reports its issue from `Farm.create`, once the head and the farmer pass. */
  lemma CropsFailure(p: FarmCreateParams, now: Time, issue: Issue)
    requires HeadOk(p) && FarmerRule(p.farmer).Success?
    requires p.crops.Given? && p.crops.value != [] && issue.message != ""
    requires ValidateCrops(p.crops.value, [Key("crops")], 0) == Failure(issue)
    ensures CreateFarm(p, now) == Failure(ModelError(FarmCreate, issue.message, Some(JoinPath(issue.path))))
  {
    CreateHeadValid(p, now);
    CreateFailure(p, now, issue);
  }

  lemma UnknownSecondCropIssue()
    ensures ValidateCrops(UnknownSecondCrop(), [Key("crops")], 0)
      == Failure(Issue([Key("crops"), Index(1), Key("type")], "farm.invalid.cropType"))
  {
    var cs := UnknownSecondCrop();
    var at := [Key("crops")];
    var issue := Issue([Key("crops"), Index(1), Key("type")], "farm.invalid.cropType");
    CropTypeRoundTrip(Soy);
    assert ValidateCrop(cs[0], at + [Index(0)]).Success?;
    assert ParseCropType("xxx") == None;
    assert at + [Index(1)] + [Key("type")] == issue.path;
    assert ValidateCrop(cs[1], at + [Index(1)]) == Failure(issue);
    CropsHeadFails(cs[1..], at, 1, issue);
    CropsTailFails(cs, at, 0, issue);
  }

  /** The second crop's unknown type is reported before its negative area, at `crops.1.type`. */
  lemma CreateRejectsUnknownCropType(p: FarmCreateParams, now: Time)
    requires HeadOk(p) && FarmerRule(p.farmer).Success?
    requires p.crops == Given(UnknownSecondCrop())
    ensures CreateFarm(p, now) == Failure(ModelError(FarmCreate, "farm.invalid.cropType", Some("crops.1.type")))
  {
    UnknownSecondCropIssue();
    assert JoinPath([Key("crops"), Index(1), Key("type")]) == "crops.1.type";
    CropsFailure(p, now, Issue([Key("crops"), Index(1), Key("type")], "farm.invalid.cropType"));
  }

  function NegativeFirstCrop(): seq<CropInput> {
    [CropInput(Given("soy"), Given(-5000)), CropInput(Given("corn"), Given(10000))]
  }

  lemma NegativeFirstCropIssue()
    ensures ValidateCrops(NegativeFirstCrop(), [Key("crops")], 0)
      == Failure(Issue([Key("crops"), Index(0), Key("totalArea")], "farm.invalid.totalArea"))
  {
    var cs := NegativeFirstCrop();
    var at := [Key("crops")];
    var issue := Issue([Key("crops"), Index(0), Key("totalArea")], "farm.invalid.totalArea");
    CropTypeRoundTrip(Soy);
    assert at + [Index(0)] + [Key("totalArea")] == issue.path;
    assert ValidateCrop(cs[0], at + [Index(0)]) == Failure(issue);
    CropsHeadFails(cs, at, 0, issue);
  }

  /** The first crop's negative area, at `crops.0.totalArea`. */
  lemma CreateRejectsNegativeCropArea(p: FarmCreateParams, now: Time)
    requires HeadOk(p) && FarmerRule(p.farmer).Success?
    requires p.crops == Given(NegativeFirstCrop())
    ensures CreateFarm(p, now) == Failure(ModelError(FarmCreate, "farm.invalid.totalArea", Some("crops.0.totalArea")))
  {
    NegativeFirstCropIssue();
    assert JoinPath([Key("crops"), Index(0), Key("totalArea")]) == "crops.0.totalArea";
    CropsFailure(p, now, Issue([Key("crops"), Index(0), Key("totalArea")], "farm.invalid.totalArea"));
  }

  /** Crops and vegetation that together exceed the total area fail the refinement, on `totalArea`. */
  lemma CreateRejectsOversizedAreas(p: FarmCreateParams, now: Time)
    requires HeadOk(p) && FarmerRule(p.farmer).Success? && CropsRule(p.crops).Success?
    requires CropSum(CropsRule(p.crops).value) + p.vegetationArea.value > p.totalArea.value
    ensures CreateFarm(p, now) == Failure(ModelError(FarmCreate, "farmer.invalid.totalArea", Some("totalArea")))
  {
    CreateHeadValid(p, now);
  }

  // ---------------------------------------------------------------------------
  // Updating a farm
  // ---------------------------------------------------------------------------

  function CottonAndCoffee(): seq<CropInput> {
    [CropInput(Given("cotton"), Given(1500)), CropInput(Given("coffee"), Given(1000))]
  }

  lemma CottonAndCoffeeValid()
    ensures CropsRule(Given(CottonAndCoffee())) == Success([Crop(Cotton, 1500), Crop(Coffee, 1000)])
    ensures CropSum([Crop(Cotton, 1500), Crop(Coffee, 1000)]) == 2500
  {
    TwoCrops(CottonAndCoffee(), Crop(Cotton, 1500), Crop(Coffee, 1000));
  }

  /** The tail of a farm whose farmer, crops (1500 and 1000) and areas (11000 and 6000) all pass. */
  lemma ReplacedTailValid(input: FarmInput, head: Head, farmer: Farmers.FarmerInput, now: Time)
    requires ValidateHead(input) == Success(head)
    requires head.totalArea == 11000 && head.vegetationArea == 6000
    requires input.farmer == Some(farmer) && Farmers.ValidateFarmer(farmer, [Key("farmer")]).Success?
    requires input.crops == Given(CottonAndCoffee())
    requires !input.createdAt.WrongType? && input.updatedAt == Given(now)
    ensures ValidateTail(input, head) == Success(FarmRecord(
      head.id, head.name, ToUpperCase(head.city), ToUpperCase(head.state), 11000, 2500, 6000,
      Some(Farmers.ValidateFarmer(farmer, [Key("farmer")]).value), [Crop(Cotton, 1500), Crop(Coffee, 1000)],
      if input.createdAt.Given? then Some(input.createdAt.value) else None, Some(now)))
  {
    CottonAndCoffeeValid();
  }

  function FullPatch(name: string, city: string, state: string, farmer: Farmers.FarmerInput): FarmPatch {
    FarmPatch(Some(name), Some(city), Some(state), Some(11000), Some(6000), Some(farmer), Some(CottonAndCoffee()))
  }

  /** The patch replaces every field but the stored cultivable area, which goes along. */
  lemma FullPatchInput(current: FarmRecord, name: string, city: string, state: string, farmer: Farmers.FarmerInput, now: Time)
    requires name != "" && city != "" && state != ""
    ensures UpdateInput(current, FullPatch(name, city, state, farmer), now) == FarmInput(
      AsField(current.id), Given(name), Given(city), Given(state), Given(11000), Given(current.cultivableArea),
      Given(6000), Some(farmer), Given(CottonAndCoffee()), AsField(current.createdAt), Given(now))
  {
  }

  /** An update whose merged input validates to `next` takes every field but `id` and `createdAt` from it. */
  lemma UpdateTakes(current: FarmRecord, patch: FarmPatch, now: Time, next: FarmRecord)
    requires ValidateFarm(UpdateInput(current, patch, now)) == Success(next)
    ensures UpdateFarm(current, patch, now) == Success(next.(id := current.id, createdAt := current.createdAt))
  {
  }

  /** The merged input of the full patch on a valid farm. */
  function FullInput(current: FarmRecord, name: string, city: string, state: string, farmer: Farmers.FarmerInput, now: Time): FarmInput {
    FarmInput(
      AsField(current.id), Given(name), Given(city), Given(state), Given(11000), Given(current.cultivableArea),
      Given(6000), Some(farmer), Given(CottonAndCoffee()), AsField(current.createdAt), Given(now))
  }

  lemma FullHeadValid(current: FarmRecord, name: string, city: string, state: string, farmer: Farmers.FarmerInput, now: Time)
    requires (current.id.Some? ==> IsUuid(current.id.value)) && current.cultivableArea > 0
    requires 1 <= |name| <= NameMax && 1 <= |city| <= CityMax && |state| == StateLength
    ensures ValidateHead(FullInput(current, name, city, state, farmer, now)) == Success(Head(current.id, name, city, state, 11000, 6000))
  {
  }

  /**
   * An update replacing every field of a valid farm: the new crops of 1500
   * and 1000 give a cultivable area of 2500, city and state are upper-cased,
   * the farmer is the validated new farmer, and `id` and `createdAt` stay.
   */
  lemma UpdateEveryField(current: FarmRecord, name: string, city: string, state: string, farmer: Farmers.FarmerInput, now: Time)
    requires FarmValid(current)
    requires 1 <= |name| <= NameMax && 1 <= |city| <= CityMax && |state| == StateLength
    requires Farmers.ValidateFarmer(farmer, [Key("farmer")]).Success?
    ensures UpdateFarm(current, FullPatch(name, city, state, farmer), now)
      == Success(current.(
        name := name, city := ToUpperCase(city), state := ToUpperCase(state),
        totalArea := 11000, cultivableArea := 2500, vegetationArea := 6000,
        farmer := Some(Farmers.ValidateFarmer(farmer, [Key("farmer")]).value),
        crops := [Crop(Cotton, 1500), Crop(Coffee, 1000)], updatedAt := Some(now)))
  {
    var input := FullInput(current, name, city, state, farmer, now);
    FullPatchInput(current, name, city, state, farmer, now);
    var head := Head(current.id, name, city, state, 11000, 6000);
    CropSumPositive(current.crops);
    FullHeadValid(current, name, city, state, farmer, now);
    ReplacedTailValid(input, head, farmer, now);
    var next := ValidateTail(input, head).value;
    assert ValidateFarm(input) == Success(next);
    UpdateTakes(current, FullPatch(name, city, state, farmer), now, next);
  }

  /**
   * The documented update: its farmer `{ id, name, document: '292.057.320-95' }`
   * is stored with the document '29205732095'.
   */
  lemma UpdateWithFormattedCpfFarmer(current: FarmRecord, name: string, city: string, state: string,
                                     farmerId: string, farmerName: string, now: Time)
    requires FarmValid(current)
    requires 1 <= |name| <= NameMax && 1 <= |city| <= CityMax && |state| == StateLength
    requires IsUuid(farmerId) && 1 <= |farmerName| <= Farmers.NameMax
    ensures UpdateFarm(current, FullPatch(name, city, state,
        Farmers.FarmerInput(Given(farmerId), Given("292.057.320-95"), Given(farmerName), Missing, Missing)), now)
      == Success(current.(
        name := name, city := ToUpperCase(city), state := ToUpperCase(state),
        totalArea := 11000, cultivableArea := 2500, vegetationArea := 6000,
        farmer := Some(Farmers.FarmerRecord(Some(farmerId), "29205732095", farmerName, None, None)),
        crops := [Crop(Cotton, 1500), Crop(Coffee, 1000)], updatedAt := Some(now)))
  {
    var farmer := Farmers.FarmerInput(Given(farmerId), Given("292.057.320-95"), Given(farmerName), Missing, Missing);
    FarmerExamples.FarmerWithFormattedCpf(farmerId, farmerName);
    UpdateEveryField(current, name, city, state, farmer, now);
  }
}
