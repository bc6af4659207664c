# brain-ag domain model in Dafny

brain-ag registers rural producers (farmers, identified by a Brazilian CPF or
CNPJ document) and their farms (location, areas, crops), and shows a
dashboard of totals. This project models the domain core of that system and
proves properties of it:

- **Documents** (`document.dfy`): cleaning a raw document down to its digits,
  the CPF and CNPJ check-digit algorithms (as loop methods proved against
  reference functions), and `Document.parse` / `Document.tryParse`, with the
  zero-padding to 11 or 14 digits.
- **Errors** (`errors.dfy`): the model error kinds, their default messages,
  and `handleZodError`, which turns the first schema issue into an error
  whose field is the issue path joined with dots.
- **Schema primitives** (`schema.dfy`): the zod rules the two schemas are
  built from (required strings, length-bounded strings, optional UUIDs,
  positive numbers, optional dates), issue paths, the falsy-keeps-current
  merge used by `update`, and upper-casing.
- **Farmers** (`farmer.ts` → `farmer.dfy`): the farmer schema with its
  document refinement, and the `Farmer` entity with `parse`, `create`,
  `update` and `toJSON`.
- **Farms** (`farm.ts` → `farm.dfy`): crop types, the crop and farm schemas
  with the derived cultivable area and the area invariant, and the `Farm`
  entity with `parse`, `create`, `update` and `toJSON`.
- **Totaliser** (`totalizers.dfy`): the accumulation in
  `FarmRepository.getTotalizers` as a loop method over the stored rows.
- `document_examples.dfy`, `farmer_examples.dfy` and `farm_examples.dfy`
  prove against the model the unit-test scenarios whose inputs are concrete:
  every document of the document tests, the farmer updates to
  '33.487.511/0001-39' and '01.387.511/0001-15', and the farm scenarios.
  Scenarios built on random Chance values (a random CPF, name or UUID) are
  proved for every value meeting the schema's rules instead.

Schema validation is modelled fail-fast: each schema is a `Result` chain in
the order zod reports issues (fields in declaration order, a nested object's
own refinement before the next field, an array's emptiness before its
elements, elements in index order, the object's refinement last). Next to
each chain there is an independent list of every violated rule, and a lemma
proves that validation fails exactly when that list is non-empty and reports
its first element, which is the only issue `handleZodError` reads.

Raw inputs are typed `Field<T> = Missing | Given(value) | WrongType`: a
property that is undefined, of the expected JavaScript type, or of another
type. Clocks are parameters (`now`), and areas are mathematical integers.

Where the code and its documentation differ, the model follows the code:

- `cleanString` pads with `padStart`, which never truncates. So a value with
  more than 11 (or 14) digits is accepted when its first 11 (or 14) digits
  pass the checksum, and the stored document keeps all of its digits
  (`Documents.Parse`).
- Eleven equal digits pass the CPF arithmetic. Only the repeated-digit guard
  rejects them (`Documents.RepeatedDigitsPassCpfArithmetic`).
- `Farmer.update({ name: '' })` succeeds and keeps the current name, because
  `''` is falsy and is replaced before validation
  (`Farmers.UpdateWithFalsyPatch`). The unit test at
  src/model/farmer.spec.ts:87 expects an error here.
- The farm refinement reports the area invariant with the message
  `'farmer.invalid.totalArea'`, and the farm's date rules use
  `'farmer.invalid.createdAt'` and `'farmer.invalid.updatedAt'`.
- `Farm.update` sends the stored `cultivableArea` back through the schema.
  The refinement then recomputes it from the crop list in effect.

## Model

| member | source | states |
|---|---|---|
| Documents.OnlyDigitsProperties | src/model/types/document.ts:4 | removing non-digits leaves only digits, never lengthens, and leaves an all-digit string unchanged |
| Documents.OnlyDigitsAppend | src/model/types/document.ts:4 | removing non-digits distributes over concatenation |
| Documents.Zeros | src/model/types/document.ts:7 | the padding is `n` zero characters |
| Documents.PadStart | src/model/types/document.ts:7 | padStart: length max(len, size), the input is a suffix, the rest is '0', and it never truncates |
| Documents.CleanString | src/model/types/document.ts:3-9 | the cleaned value is all digits and at least `size` long when a size is given |
| Documents.CleanStringShape | src/model/types/document.ts:3-9 | with a size, the cleaned value is all digits, max(digit count, size) long, the input's digits at its end behind zeros |
| Documents.CleanStringOfClean | src/model/types/document.ts:3-9 | cleaning an all-digit string that is already long enough returns it unchanged |
| Documents.CpfCheckDigit | src/model/types/document.ts:22-23 | a CPF check digit lies in 0..9 (remainders 10 and 11 become 0) |
| Documents.CpfCheckDigitOfRun | src/model/types/document.ts:22-23 | for a digit d, the check digit of 54·d and of 65·d is d (540 and 650 are both 1 more than a multiple of 11) |
| Documents.CpfSumConstant | src/model/types/document.ts:19-21 | the weighted CPF sum of a constant digit string in closed form |
| Documents.CpfWeightedSum | src/model/types/document.ts:19-21 | the accumulation loop returns the weighted CPF sum of the first n digits |
| Documents.IsValidCpf | src/model/types/document.ts:11-35 | the loop method answers exactly the CPF validity predicate (repeated-digit guard, both weighted sums, both check digits) |
| Documents.RepeatedDigitsRejected | src/model/types/document.ts:12-14 | an all-digit run of eleven equal characters is not a valid CPF |
| Documents.RepeatedCnpjDigitsRejected | src/model/types/document.ts:38-40 | an all-digit run of fourteen equal characters is not a valid CNPJ |
| Documents.RepeatedDigitsPassCpfArithmetic | src/model/types/document.ts:14-34 | eleven equal digits satisfy both CPF check digits, yet are invalid because of the guard |
| Documents.CnpjWeightsCycle | src/model/types/document.ts:42-43 | the CNPJ weight lists have 12 and 13 entries that cycle 9 down to 2 |
| Documents.CnpjCheckDigit | src/model/types/document.ts:51-53 | a CNPJ check digit lies in 0..9 (remainders below 2 become 0) |
| Documents.CnpjWeightedSum | src/model/types/document.ts:48-50 | the accumulation loop returns the CNPJ sum of the first n digits under the given weights |
| Documents.IsValidCnpj | src/model/types/document.ts:37-67 | the loop method answers exactly the CNPJ validity predicate |
| Documents.Parse | src/model/types/document.ts:72-81 | succeeds iff tryParse holds; the value is the digits left-padded with '0' to 11 when CPF-valid, else 14, all digits, at least 11 long; otherwise InvalidDocument 'invalid.document' on field 'document' |
| Documents.ParseIdempotent | src/model/types/document.ts:72-81 | a parsed value parses to itself |
| Documents.NoDigitsRejected | src/model/types/document.ts:72-92 | a value without digits is rejected by tryParse and by parse |
| Documents.SameDigitsSameParse | src/model/types/document.ts:72-81 | punctuation is irrelevant: values with the same digits parse alike |
| Documents.ParseCpfDigits | src/model/types/document.ts:72-81 | up to 11 digits whose padding is CPF-valid parse to that padding |
| Documents.ParseCnpjDigits | src/model/types/document.ts:72-81 | 11 to 14 digits, CPF-invalid and CNPJ-valid after padding, parse to the 14-digit padding |
| Documents.RejectDigits | src/model/types/document.ts:72-78 | digits failing both checks are rejected with the invalid-document error |
| DocumentExamples.CnpjSumIsCycleSum | src/model/types/document.ts:42-61 | the weighted CNPJ sums equal sums over the cyclic weight formula |
| DocumentExamples.ExampleFormattedCpf | src/model/types/document.spec.ts:7-10 | '243.551.660-66' parses to '24355166066' |
| DocumentExamples.ExampleShortCpf | src/model/types/document.spec.ts:8-11 | '387690000' parses to '00387690000' |
| DocumentExamples.ExampleCpf87234223002 | src/model/types/document.spec.ts:15 | '872.342.230-02' parses, to the CPF '87234223002' |
| DocumentExamples.ExampleCpf66760198093 | src/model/types/document.spec.ts:16 | '66760198093' parses, to itself |
| DocumentExamples.ExampleFormattedCnpj | src/model/types/document.spec.ts:23-26 | '11.582.377/0001-12' parses to '11582377000112' |
| DocumentExamples.ExampleShortCnpj | src/model/types/document.spec.ts:24-27 | '6327015000145' parses to '06327015000145' |
| DocumentExamples.ExampleCnpj74104642000177 | src/model/types/document.spec.ts:31 | '74.104.642/0001-77' parses, to the CNPJ '74104642000177' |
| DocumentExamples.ExampleCnpj19914642000124 | src/model/types/document.spec.ts:32 | '19914642000124' parses, to itself |
| DocumentExamples.ExampleRejectedFormattedCpf | src/model/types/document.spec.ts:41-47 | '143.551.660-60' is rejected with 'invalid.document' |
| DocumentExamples.ExampleRejectedCpf61365166580 | src/model/types/document.spec.ts:51 | tryParse('613.651.665-80') is false and parse rejects it |
| DocumentExamples.ExampleRejectedCpf | src/model/types/document.spec.ts:52 | '15431454158' is rejected |
| DocumentExamples.ExampleRejectedCnpj10582377000312 | src/model/types/document.spec.ts:56-58 | '10.582.377/0003-12' is rejected with 'invalid.document': its first CNPJ check digit passes, the second fails |
| DocumentExamples.ExampleRejectedCnpj | src/model/types/document.spec.ts:60-62 | '19934642000125' is rejected |
| DocumentExamples.ExampleRejectedCnpj11583087000324 | src/model/types/document.spec.ts:66 | tryParse('11.583.087/0003-24') is false and parse rejects it |
| DocumentExamples.ExampleRejectedCnpjWithNines | src/model/types/document.spec.ts:67 | '55584087000899' is rejected |
| DocumentExamples.ExampleCnpj33487511000139 | src/model/farmer.spec.ts:55-57 | '33.487.511/0001-39' parses to the CNPJ '33487511000139' |
| DocumentExamples.ExampleRejectedCnpj01387511000115 | src/model/farmer.spec.ts:76-81 | tryParse('01.387.511/0001-15') is false and parse rejects it |
| DocumentExamples.ExampleCpf29205732095 | src/model/farm.spec.ts:197 | '292.057.320-95' parses to the CPF '29205732095' |
| ModelErrors.NewError | src/model/errors/modelError.ts:11-14 | the error keeps its kind and field; a non-empty message is kept; an empty or absent one becomes the kind's default where it has one ('invalid.document', 'farmer.not.found', 'farm.not.found', 'farmer.duplicate.document') |
| ModelErrors.HandleZodError | src/model/errors/modelError.ts:16-23 | the error has the given kind, the first issue's message and the issue path joined with '.' |
| ModelErrors.Report | src/model/farmer.ts:88-91 | a successful parse passes its value through; a failed one becomes the handleZodError of its first issue |
| ModelErrors.EntryKindsPassMessageThrough | src/model/errors/farmCreateError.ts:4-6 | the create, parse, update and delete error classes keep the message they are given |
| Schema.DecimalString | src/model/errors/modelError.ts:21 | an array index in a path is written as a non-empty string of decimal digits |
| Schema.DecimalRoundTrip | src/model/errors/modelError.ts:21 | the decimal text of an index reads back as that index |
| Schema.JoinPathAppend | src/model/errors/modelError.ts:21 | joining a nested path gives the outer path, '.', and the inner path |
| Schema.RequiredStringRule | src/model/farmer.ts:14 | a string property passes iff it is a string; otherwise the issue is at the given path with the given message |
| Schema.StringRule | src/model/farmer.ts:15-18 | passes iff a string with length in min..max |
| Schema.OptionalUuidRule | src/model/farmer.ts:10-13 | passes iff absent or a UUID string; the output is the value when present |
| Schema.PositiveRule | src/model/farm.ts:45-47 | passes iff a number greater than 0 |
| Schema.OptionalPositiveRule | src/model/farm.ts:48-51 | passes iff absent or a positive number |
| Schema.OptionalDateRule | src/model/farmer.ts:19-20 | passes iff absent or a date |
| Schema.OrString | src/model/farmer.ts:118-119 | `a \|\| b` on strings: a non-empty given string wins, an absent or empty one keeps the current value |
| Schema.OrNumber | src/model/farm.ts:224-225 | `a \|\| b` on numbers: a non-zero given number wins, an absent or zero one keeps the current value |
| Schema.OrObject | src/model/farm.ts:226-227 | `a \|\| b` on objects and arrays: any given value wins, even an empty array |
| Schema.UpperChar | src/model/farm.ts:39 | a lower-case ASCII letter moves up by 32; characters that are neither ASCII nor Latin-1 lower-case letters are unchanged |
| Schema.ToUpperCase | src/model/farm.ts:39 | upper-casing keeps the length and maps each character |
| Schema.ToUpperCaseIdempotent | src/model/farm.ts:39-44 | upper-casing an upper-cased string changes nothing |
| Farmers.DocumentRefinement | src/model/farmer.ts:22-35 | passes iff tryParse holds, replacing the document with its canonical parsed value; otherwise 'farmer.invalid.document' at `document` |
| Farmers.ValidateFarmer | src/model/farmer.ts:8-35 | on success the record is valid (UUID id, canonical document, name of 1..250), the document is the parse of the given one, and name, id and dates are the given ones |
| Farmers.FirstViolationReported | src/model/farmer.ts:8-35 | validation fails iff some rule is violated and reports the first violation in schema order |
| Farmers.ValidateRecord | src/model/farmer.ts:8-35 | a valid stored record validates to itself |
| Farmers.ValidateIdempotent | src/model/farmer.ts:8-35 | validating a validated record gives it back |
| Farmers.ParseFarmer | src/model/farmer.ts:87-100 | parse succeeds iff the farmer schema accepts the input, keeps the supplied id and timestamps and the given name, and stores the parsed canonical document; failures are FarmerParserError |
| Farmers.CreateFarmer | src/model/farmer.ts:102-115 | create yields a valid farmer with no id, createdAt = now, no updatedAt, the given name and the canonical document; failures are FarmerCreateError |
| Farmers.UpdateFarmer | src/model/farmer.ts:117-130 | update keeps id and createdAt, stamps updatedAt = now, takes the truthy patch values, stores the canonical document; failures are FarmerUpdateError |
| Farmers.EntryErrorIsFirstViolation | src/model/farmer.ts:88-91 | the error an entry path throws carries the first violation's message and joined path |
| Farmers.ParseRecord | src/model/farmer.ts:87-100 | parsing a valid stored farmer gives it back unchanged |
| Farmers.UpdateWithFalsyPatch | src/model/farmer.ts:117-130 | a patch of absent or empty strings keeps every field and only stamps updatedAt |
| Farmers.UpdateNameOnly | src/model/farmer.spec.ts:62-69 | a name-only update changes the name and keeps the document |
| Farmers.UpdateOfInvalidDocumentFails | src/model/farmer.spec.ts:73-81 | an update to a document failing both checksums fails with 'farmer.invalid.document' on 'document' |
| FarmerExamples.UpdateWithParsedDocument | src/model/farmer.ts:117-130 | an update with a non-empty name and a document that parses stores that name and the parsed document, stamped now |
| FarmerExamples.UpdateWithRejectedDocument | src/model/farmer.ts:117-130 | an update with a document that parses as neither CPF nor CNPJ fails with 'farmer.invalid.document' on 'document' |
| FarmerExamples.UpdateNameAndCnpj | src/model/farmer.spec.ts:53-60 | the update to name 'New Name' and document '33.487.511/0001-39' stores 'New Name' and '33487511000139', stamped now |
| FarmerExamples.UpdateRejectsCnpj | src/model/farmer.spec.ts:73-81 | the update to document '01.387.511/0001-15' fails with 'farmer.invalid.document' on 'document' (FarmerUpdateError) |
| FarmerExamples.ValidateWithParsedDocument | src/model/farmer.ts:8-35 | a farmer input with a UUID, a name within bounds and a document that parses validates to the parsed document |
| FarmerExamples.FarmerWithFormattedCpf | src/model/farm.spec.ts:194-198 | the farmer `{ id, name, document: '292.057.320-95' }` validates with document '29205732095' |
| Farmers.CreateReportsNameBeforeDocument | src/model/farmer.spec.ts:37-40 | an empty name is reported, whatever the document, because field rules precede the refinement |
| Farmers.CreateRejectsNonStringDocument | src/model/farmer.spec.ts:29-31 | a non-string document is rejected on 'document' |
| Farmers.CreateRejectsDocumentWithoutDigits | src/model/farmer.spec.ts:26-28 | a document without digits such as 'invalid' is rejected on 'document' |
| Farmers.ParseRejectsMalformedId | src/model/farmer.spec.ts:120-127 | a present id that is not a UUID fails parse with 'farmer.invalid.id' on 'id' |
| Farmers.ShortIdIsNotUuid | src/model/farmer.spec.ts:121 | '121221' is not a UUID |
| Farmers.Farmer.constructor | src/model/farmer.ts:53-65 | the new farmer's toJSON is the record it was built from |
| Farmers.Farmer.Parse | src/model/farmer.ts:87-100 | returns a fresh valid farmer holding the parse result, or its error |
| Farmers.Farmer.Create | src/model/farmer.ts:102-115 | returns a fresh valid farmer holding the create result, or its error |
| Farmers.Farmer.Assign | src/model/farmer.ts:127-129 | the reassignment of document, name and updatedAt leaves the entity equal to the new record |
| Farmers.Farmer.Update | src/model/farmer.ts:117-130 | on success the entity becomes the update result and stays valid; on failure it returns the error and nothing changes; id and createdAt never change |
| Farms.ParseCropType | src/model/farm.ts:8-17 | a string is accepted iff it is one of the five enum values, and maps back to itself |
| Farms.CropTypeRoundTrip | src/model/farm.ts:8-14 | every crop type's value parses back to it |
| Farms.ValidateCrop | src/model/farm.ts:16-21 | a crop passes iff its type is an enum value and its area is positive; the type issue precedes the area issue |
| Farms.ValidateCrops | src/model/farm.ts:56-58 | a validated crop list has the input's length; element i has the crop type named by input i's type and a positive area equal to input i's area |
| Farms.CropListFirstViolation | src/model/farm.ts:56-58 | the crop list fails iff some element has an issue, reporting the first in index order |
| Farms.CropsRule | src/model/farm.ts:56-58 | a missing, mistyped or empty list gives 'farm.empty.crops' at 'crops'; a passing list is non-empty and element i has input i's crop type and its positive area |
| Farms.CropInputs | src/model/farm.ts:227 | the stored crops sent back through the schema, one input per crop |
| Farms.ValidateCropInputs | src/model/farm.ts:227-230 | stored crops with positive areas re-validate to themselves |
| Farms.CropSumPositive | src/model/farm.ts:63-66 | the sum of a non-empty list of positive areas is positive |
| Farms.CropSumCons | src/model/farm.ts:63-66 | the left-fold sum splits off the first crop |
| Farms.FarmerRule | src/model/farm.ts:55 | an absent farmer passes; a present one passes iff the farmer schema accepts it at path 'farmer', and yields its output |
| Farms.AreaRefinement | src/model/farm.ts:62-78 | passes iff crop sum + vegetation ≤ total, yielding the crop sum as cultivableArea; otherwise 'farmer.invalid.totalArea' at 'totalArea' |
| Farms.ValidateHead | src/model/farm.ts:27-54 | the fields before farmer pass: optional UUID id, name 1..250, city 1..100, state of length 2, positive areas, optional positive cultivableArea |
| Farms.HeadFirstViolation | src/model/farm.ts:27-54 | the head fails iff some head rule is violated and reports the first |
| Farms.ValidateTail | src/model/farm.ts:55-78 | the rest passes to a valid farm with upper-cased city and state, the head's values, the given timestamps, the farmer rule's output for the input farmer and the crops rule's output for the input crops |
| Farms.TailFirstViolation | src/model/farm.ts:55-78 | the rest fails iff some of its rules is violated and reports the first |
| Farms.ValidateFarm | src/model/farm.ts:25-78 | a validated farm is valid (cultivableArea is the crop sum, cultivable + vegetation ≤ total, city and state upper-case), takes name, areas, id and timestamps from the input, city and state upper-cased from it, and farmer and crops as their rules output them for the input |
| Farms.FarmFirstViolationReported | src/model/farm.ts:25-78 | farm validation fails iff some rule is violated and reports the first in schema order |
| Farms.ValidateFarmRecord | src/model/farm.ts:25-78 | a valid stored farm validates to itself |
| Farms.ParseFarm | src/model/farm.ts:177-196 | parse returns exactly the farm the schema validates from the input, so it keeps the supplied id and timestamps; failures are FarmParserError |
| Farms.CreateFarm | src/model/farm.ts:198-218 | create yields a valid farm with no id, createdAt = now and no updatedAt, the given name and areas, upper-cased city and state, cultivableArea the crop sum, and farmer and crops as their rules output them for the parameters; failures are FarmCreateError |
| Farms.UpdateFarm | src/model/farm.ts:220-244 | update succeeds iff the merged input validates, keeps id and createdAt; failures are FarmUpdateError |
| Farms.UpdateFarmValid | src/model/farm.ts:220-244 | a successful update is valid, stamped now, with cultivableArea recomputed from the crops in effect, the truthy patch values taken, farmer and crops as their rules output them for the patch's or the stored values, and the stored farmer and crops kept when the patch has none |
| Farms.CropTypeValueInjective | src/model/farm.ts:8-14 | distinct crop types have distinct names |
| Farms.StoredCropsBack | src/model/farm.ts:227 | a stored crop list sent back through the crops rule comes out unchanged |
| Farms.EntryErrorIsFirstViolation | src/model/farm.ts:178-181 | the error an entry path throws carries the first violation's message and joined path |
| Farms.ParseFarmRecord | src/model/farm.ts:177-196 | parsing a valid stored farm gives it back unchanged |
| Farms.UpdateWithFalsyPatch | src/model/farm.ts:220-229 | a patch of absent, empty or zero values keeps every field and only stamps updatedAt |
| Farms.UpdateWithEmptyCropsFails | src/model/farm.ts:227 | an empty crop array is truthy, replaces the stored crops, and fails with 'farm.empty.crops' |
| Farms.EmptyCropsInputFails | src/model/farm.ts:227-230 | the merged input with an empty crop list passes the head and farmer rules and fails on 'crops' with 'farm.empty.crops' |
| Farms.Farm.constructor | src/model/farm.ts:107-131 | the new farm's toJSON is the record it was built from |
| Farms.Farm.Parse | src/model/farm.ts:177-196 | returns a fresh valid farm holding the parse result, or its error |
| Farms.Farm.Create | src/model/farm.ts:198-218 | returns a fresh valid farm holding the create result, or its error |
| Farms.Farm.Assign | src/model/farm.ts:235-243 | the nine reassignments leave the entity equal to the new record |
| Farms.Farm.Update | src/model/farm.ts:220-244 | on success the entity becomes the update result, valid and stamped now; on failure it returns the error and nothing changes; id and createdAt never change; a valid farm stays valid |
| FarmExamples.CreateWithTwoCrops | src/model/farm.spec.ts:33-52 | crops of 1000 and 2000 give cultivableArea 3000, upper-cased city and state, no id and no updatedAt |
| FarmExamples.CreateRejectsName | src/model/farm.spec.ts:56-68 | a mistyped, empty or overlong name gives 'farm.invalid.name', whatever else is given |
| FarmExamples.CreateRejectsCity | src/model/farm.spec.ts:70-77 | a mistyped, empty or overlong city gives 'farm.invalid.city' |
| FarmExamples.CreateRejectsState | src/model/farm.spec.ts:84-95 | a state that is not a 2-character string gives 'farm.invalid.state' |
| FarmExamples.CreateRejectsTotalArea | src/model/farm.spec.ts:98-110 | a zero, negative or mistyped total area gives 'farm.invalid.totalArea' |
| FarmExamples.CreateRejectsVegetationArea | src/model/farm.spec.ts:112-124 | a zero, negative or mistyped vegetation area gives 'farm.invalid.vegetationArea' |
| FarmExamples.CreateRejectsEmptyFarmer | src/model/farm.spec.ts:126-134 | an empty farmer object gives 'farmer.invalid.document' on 'farmer.document' |
| FarmExamples.CreateRejectsNoCrops | src/model/farm.spec.ts:137-147 | missing or empty crops give 'farm.empty.crops' |
| FarmExamples.CreateRejectsUnknownCropType | src/model/farm.spec.ts:149-163 | crops [soy 5000, 'xxx' -1] give 'farm.invalid.cropType' on 'crops.1.type' |
| FarmExamples.CreateRejectsNegativeCropArea | src/model/farm.spec.ts:165-179 | crops [soy -5000, corn 10000] give 'farm.invalid.totalArea' on 'crops.0.totalArea' |
| FarmExamples.CreateRejectsOversizedAreas | src/model/farm.ts:69-75 | crops and vegetation exceeding the total area give 'farmer.invalid.totalArea' on 'totalArea' |
| FarmExamples.UpdateEveryField | src/model/farm.spec.ts:186-224 | replacing every field with crops of 1500 and 1000 gives cultivableArea 2500, upper-cased city and state, the validated farmer, and keeps id and createdAt |
| FarmExamples.UpdateWithFormattedCpfFarmer | src/model/farm.spec.ts:186-224 | the documented update with farmer document '292.057.320-95' stores the farmer with document '29205732095', cultivableArea 2500 and the crops cotton 1500, coffee 1000 |
| Totalizers.AddTo | src/infra/db/farmRepository.ts:143-147 | the truthiness update adds to the current value, a missing key counting as 0 |
| Totalizers.ByStateCorrect | src/infra/db/farmRepository.ts:143-147 | the by-state keys are exactly the rows' states, each holding that state's cultivable area |
| Totalizers.AddCropsCorrect | src/infra/db/farmRepository.ts:149-155 | the inner loop adds each crop area under its type and adds those types as keys |
| Totalizers.ByCropCorrect | src/infra/db/farmRepository.ts:149-155 | the by-crop keys are exactly the crop types present, each holding that type's area over all rows |
| Totalizers.ByStateSum | src/infra/db/farmRepository.ts:140-147 | the by-state values sum to the total cultivable area |
| Totalizers.AddCropsSum | src/infra/db/farmRepository.ts:149-155 | the inner loop adds the area of every crop to the values' sum |
| Totalizers.ByCropSum | src/infra/db/farmRepository.ts:149-155 | when each row's cultivable area is its crop sum, the by-crop values sum to the total cultivable area |
| Totalizers.RowCropsArea | src/model/farm.ts:63-67 | a stored crop list's area is the farm's crop sum |
| Totalizers.ValidFarmRows | src/model/farm.ts:63-67 | rows stored from valid farms meet the premise of ByCropSum |
| Totalizers.DictionariesCorrect | src/infra/db/farmRepository.ts:143-155 | the folded dictionaries have exactly the states and crop types as keys, per-key sums as values, and values summing to the cultivable total (by crop: when rows are consistent) |
| Totalizers.GetTotalizers | src/infra/db/farmRepository.ts:128-160 | count = number of rows; the three totals are the row sums (0 when empty); the two dictionaries have the right keys and per-key sums; by-state values sum to the cultivable total, and so do by-crop values when rows are consistent |

## Left out

- Prisma queries, the services, the controllers and the HTTP status mapping: the totaliser takes the rows as a parameter.
- `new Date()`: every entry path takes the timestamp `now` as a parameter.
- Lengths are counted in characters, not in UTF-16 code units.
- Schema.UpperChar: upper-cases ASCII and Latin-1 letters only; other Unicode case mappings (such as 'ß' or 'ÿ') are not modelled.
- Schema.OptionalUuidRule: a UUID is 8-4-4-4-12 hexadecimal digits; zod's exact version and variant checks are not modelled.
- A `farmer` that is not an object, or a crop element that is not an object, is not modelled. zod reports such values with its own default message.
- Areas are integers, so JavaScript's floating-point numbers, NaN and infinities are not modelled.
- Farms.FarmFirstViolationReported: the violation list matches zod's issue list in its first element only. zod also runs the refinement on data with field errors, so later entries may differ; `handleZodError` reads only the first.
- Farmers.FirstViolationReported: likewise only the first element is zod's. The list names the document refinement whenever the document is a string, even after an earlier field error, where zod skips the refinement of an object with field errors.
- Extra properties in the parameters: zod strips them, and the model's inputs have none.
- The mutation of the caller's `params` object inside `update`: it changes the argument, not the entity. The model states the merge as a defaulting rule.
- Totalizers.GetTotalizers: the rows' order (by id) is not modelled, since the totals do not depend on it. Keys such as `__proto__` that a JavaScript object treats specially are not modelled either.
- The farmer stored in a farm is the farmer schema's output (a plain record), not a `Farmer` entity.
