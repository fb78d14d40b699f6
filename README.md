# PragmaRX ZIPcode: the zip-resolution engine, in Dafny

This project models the engine of PragmaRX ZIPcode. The engine turns a
user-typed postal code into address fields. It asks a web service configured
for the active country and reads the fields out of the service's answer.

The model has these parts:

- **Zip normaliser** (`ZipNormalizer`). `clearZip` keeps the ASCII letters and
  digits of the input, in order. `validateZip` accepts the cleared zip exactly
  when its length is the country's `zip_length`. Otherwise it raises
  `InvalidZipCode`.
- **Mask formatter** (`ZipFormatter`). Each `9` of the mask takes the next zip
  character, letters included. Every other mask character is copied as it is.
  There is a spec function `Formatted` and a loop, `FormatZip`, proved equal to it.
- **Response tree and paths** (`ResponseTree`). A decoded answer is a tree of
  objects, arrays and scalars. A dotted path is followed one segment at a time.
  A numeric segment indexes an array.
- **Field mapper** (`FieldMapper`). The mapper reads each declared output field.
  Paths are read from the answer, or with `iterate_on` from the first element of
  the array at that path. A field declared `null` is skipped. A path that cannot
  be followed adds `Result field '<name>' was not found.`, in declaration order.
  `isEmpty()` holds when a mandatory field is missing.
- **Configuration records** (`Config`, `OpenDatasoft`, `CountryUS`). These are the
  web-service and country records, the lookup of a service by name, and the
  substitution of `%zip_code%` in a query.
- **Engine** (`Engine.ZipCode`). This class holds the active country, the last zip
  and the last result. It offers `setZip`, `setCountryData`, `setCountry`,
  `clearWebServicesList`, `getWebServiceByName`, `checkZipWebServices`,
  `gatherInformationFromZip` and `find`.
- **Behaviour fixtures** (`ZipExamples`, `SpecFixtures`). These are the fixtures of the
  behaviour specification (`tests/spec/PragmaRX/ZIPcode/ZIPcodeSpec.php`) and the
  behaviours it states, proved about the model.

The repository's implementation classes are not part of this model. The
behaviour modelled is the one its phpspec specification pins down, plus the two
configuration records.

The HTTP layer is given to the engine as two functions. `consume(service, zip)`
returns the decoded answer, and `ping(name)` returns reachability. The
configuration source is a map from country id to country record.

Two behaviours follow the phpspec assertions:

- `formatZip` could fail on a zip shorter than the mask. `ZIPcodeSpec.php:189`
  expects `'99750'` with mask `'99999999'` to give `'99750'`, so the model
  truncates, as that test does.
- The test at `ZIPcodeSpec.php:165` is named for an empty error list, but it
  asserts one error. The model follows the assertion.

## Model

| member | source | states |
|---|---|---|
| `ZipNormalizer.ClearZip` | tests/spec/PragmaRX/ZIPcode/ZIPcodeSpec.php:93-96 | the cleared zip is never longer than the input |
| `ZipNormalizer.ClearZipAlphaNum` | tests/spec/PragmaRX/ZIPcode/ZIPcodeSpec.php:93-96 | the cleared zip holds only letters and digits |
| `ZipNormalizer.ClearZipAppend` | tests/spec/PragmaRX/ZIPcode/ZIPcodeSpec.php:93-96 | clearing distributes over concatenation, so the kept characters stay in their order |
| `ZipNormalizer.ClearZipFixedPoint` | tests/spec/PragmaRX/ZIPcode/ZIPcodeSpec.php:84-91 | clearing leaves a string unchanged if and only if it holds only letters and digits |
| `ZipNormalizer.ClearZipKeepsAlphaNum` | tests/spec/PragmaRX/ZIPcode/ZIPcodeSpec.php:93-96 | every letter and digit survives as often as it occurs; every other character is removed |
| `ZipNormalizer.ClearZipIdempotent` | tests/spec/PragmaRX/ZIPcode/ZIPcodeSpec.php:88-90 | clearing twice is clearing once |
| `ZipNormalizer.ValidateZip` | tests/spec/PragmaRX/ZIPcode/ZIPcodeSpec.php:84-107 | accepted exactly when the cleared length equals `zip_length`, then as the cleared zip; otherwise InvalidZipCode |
| `ZipNormalizer.ValidateZipIdempotent` | tests/spec/PragmaRX/ZIPcode/ZIPcodeSpec.php:90 | a validated zip validates to itself |
| `ZipFormatter.Formatted` | tests/spec/PragmaRX/ZIPcode/ZIPcodeSpec.php:183-196 | the output is never longer than the mask |
| `ZipFormatter.FormatZip` | tests/spec/PragmaRX/ZIPcode/ZIPcodeSpec.php:183-196 | the mask walk with a read position in the zip computes the mask interpreter's meaning |
| `ZipFormatter.ClearFormattedRoundTrip` | tests/spec/PragmaRX/ZIPcode/ZIPcodeSpec.php:183-196 | with separator literals, clearing the formatted zip gives back the zip characters the placeholders consumed |
| `ZipFormatter.FormatClearRoundTrip` | tests/spec/PragmaRX/ZIPcode/ZIPcodeSpec.php:183-196 | with separator literals, a zip displayed in the mask's shape is rebuilt by formatting its cleared form |
| `ZipFormatter.FormattedShape` | tests/spec/PragmaRX/ZIPcode/ZIPcodeSpec.php:185 | with enough zip characters the output has the mask's length and its literals in place |
| `ZipFormatter.FormattedAppend` | tests/spec/PragmaRX/ZIPcode/ZIPcodeSpec.php:193 | the mask is read left to right: a mask in two parts formats the rest of the zip with the second part |
| `ZipFormatter.AllNinesKeepsZip` | tests/spec/PragmaRX/ZIPcode/ZIPcodeSpec.php:187-189 | a mask of placeholders only gives the zip's first characters, stopping when the zip runs out |
| `ResponseTree.Split` | src/Support/WebServices/Services/OpenDatasoft.php:17 | a path splits into at least one segment, none holding a dot |
| `ResponseTree.SplitJoin` | src/Support/WebServices/Services/OpenDatasoft.php:25 | splitting the dotted join of dot-free segments gives those segments back |
| `ResponseTree.Child` | src/Support/WebServices/Services/OpenDatasoft.php:25 | an object is read by key, an array only by an in-range numeric segment without a leading zero, a scalar not at all; what is found is that member or element |
| `ResponseTree.Resolve` | src/Support/WebServices/Services/OpenDatasoft.php:25 | no segments give the node itself, one segment is one descent step, and a missing first segment makes the whole path missing |
| `ResponseTree.ResolvePath` | src/Support/WebServices/Services/OpenDatasoft.php:17 | a dotted path is found only if its first segment is found in the root |
| `ResponseTree.ResolveAppend` | src/Support/WebServices/Services/OpenDatasoft.php:29-31 | following a path is following its prefix and then the rest, segment by segment |
| `ResponseTree.MissingPrefixMissing` | src/Support/WebServices/Services/OpenDatasoft.php:25 | once a segment is missing, every longer path through it is missing |
| `ResponseTree.ResolveSingleSegment` | tests/spec/PragmaRX/ZIPcode/ZIPcodeSpec.php:32-41 | a path without dots reads one member of the top-level object |
| `Config.LookupService` | tests/spec/PragmaRX/ZIPcode/ZIPcodeSpec.php:198-208 | the first service with the name; WebServicesNotFound exactly when no service has it |
| `Config.ReplaceAll` | src/Support/WebServices/Services/OpenDatasoft.php:7 | a replacement as long as the pattern keeps the text's length; a longer one never shortens it |
| `Config.SubstituteNoPercent` | src/Support/WebServices/Services/OpenDatasoft.php:7 | text with no `%` is left unchanged by placeholder substitution |
| `Config.SubstitutePercentFreePrefix` | src/Support/WebServices/Services/OpenDatasoft.php:7 | a prefix with no `%` is copied through unchanged |
| `Config.SubstituteSinglePlaceholder` | src/Support/WebServices/Services/OpenDatasoft.php:7 | one placeholder between `%`-free texts becomes the zip, with the texts kept |
| `FieldMapper.RecordRoot` | src/Support/WebServices/Services/OpenDatasoft.php:13 | without `iterate_on` the answer itself; with it, the first element of the non-empty array at that path, and no record otherwise |
| `FieldMapper.MapFields` | tests/spec/PragmaRX/ZIPcode/ZIPcodeSpec.php:165-174 | a pass over the declarations records at most one error per declared field |
| `FieldMapper.NotFoundMessageInjective` | tests/spec/PragmaRX/ZIPcode/ZIPcodeSpec.php:72 | distinct field names give distinct not-found messages |
| `FieldMapper.MapFieldsErrorsInOrder` | tests/spec/PragmaRX/ZIPcode/ZIPcodeSpec.php:165-174 | the errors of a declaration list are those of its first part followed by those of the rest |
| `FieldMapper.MapFieldsSingleError` | tests/spec/PragmaRX/ZIPcode/ZIPcodeSpec.php:32-41 | one mapping adds its not-found message exactly when it has a path that is not found |
| `FieldMapper.MapFieldsExtracts` | tests/spec/PragmaRX/ZIPcode/ZIPcodeSpec.php:32-41 | a declared output is extracted exactly when it has a path that is found, with the value found there |
| `FieldMapper.UndeclaredNotExtracted` | tests/spec/PragmaRX/ZIPcode/ZIPcodeSpec.php:60-70 | answer keys that no mapping declares are not extracted |
| `FieldMapper.ErrorsWithoutRecord` | src/Support/WebServices/Services/OpenDatasoft.php:13 | with no record to read, the errors are the not-found messages of the fields that have a path, in declaration order |
| `FieldMapper.NothingExtractedWithoutRecord` | src/Support/WebServices/Services/OpenDatasoft.php:13 | with no record to read, nothing is extracted |
| `FieldMapper.MapFieldsErrorIff` | tests/spec/PragmaRX/ZIPcode/ZIPcodeSpec.php:165-174 | a not-found message names a field if and only if that declared field's path fails |
| `FieldMapper.Extract` | tests/spec/PragmaRX/ZIPcode/ZIPcodeSpec.php:123-130 | the result names the service asked and carries its mandatory fields |
| `FieldMapper.ExtractField` | tests/spec/PragmaRX/ZIPcode/ZIPcodeSpec.php:32-41 | per declared field: extracted with the value at its path from the record, or its error recorded |
| `FieldMapper.EmptyIffMandatoryError` | tests/spec/PragmaRX/ZIPcode/ZIPcodeSpec.php:264-282 | the result is empty if and only if a mandatory field's not-found error was recorded |
| `OpenDatasoft.OutputsDistinct` | src/Support/WebServices/Services/OpenDatasoft.php:15-32 | the record's output names are distinct |
| `OpenDatasoft.TextBeforeZipHasNoPercent` | src/Support/WebServices/Services/OpenDatasoft.php:7 | the query text before the placeholder has no `%` |
| `OpenDatasoft.TextAfterZipHasNoPercent` | src/Support/WebServices/Services/OpenDatasoft.php:7 | the query text after the placeholder has no `%` |
| `OpenDatasoft.QuerySubstitution` | src/Support/WebServices/Services/OpenDatasoft.php:7 | the zip replaces `%zip_code%` and the rest of the query is kept |
| `OpenDatasoft.NullOutputsIgnored` | src/Support/WebServices/Services/OpenDatasoft.php:19-23 | `country_id`, `country_name` and `state_id` are never extracted and never reported |
| `OpenDatasoft.SharedPathAgrees` | src/Support/WebServices/Services/OpenDatasoft.php:16-27 | `city` and `place` are both extracted with the same value, or both fail |
| `OpenDatasoft.ZipPathSegments` | src/Support/WebServices/Services/OpenDatasoft.php:17 | `fields.zip` has the segments `fields`, `zip` |
| `OpenDatasoft.StatePathSegments` | src/Support/WebServices/Services/OpenDatasoft.php:25 | `places.0.state` has the segments `places`, `0`, `state` |
| `OpenDatasoft.RecordsRoot` | src/Support/WebServices/Services/OpenDatasoft.php:13 | with a non-empty `records` array, paths are read from its first element |
| `OpenDatasoft.ReadsInsideFirstRecord` | src/Support/WebServices/Services/OpenDatasoft.php:13-25 | `zip` and `state_name` are read inside the first record, including the index segment `0` |
| `OpenDatasoft.NoRecordErrors` | src/Support/WebServices/Services/OpenDatasoft.php:13-32 | with no record, the six fields that have paths fail, in declaration order |
| `OpenDatasoft.NoRecordAllFail` | src/Support/WebServices/Services/OpenDatasoft.php:13-32 | without a record nothing is extracted, and every field with a path is reported in order |
| `CountryUS.ValidatesFiveCharacters` | src/Support/WebServices/Countries/US.php:7 | under the US record a zip is accepted exactly when it clears to five characters |
| `CountryUS.ExampleValidates` | src/Support/WebServices/Countries/US.php:13 | the example zip `10006` validates to itself |
| `CountryUS.ServicesInOrder` | src/Support/WebServices/Countries/US.php:15-39 | Geonames comes before Zippopotamus, and both are found by name |
| `CountryUS.FormatKeepsValidZip` | src/Support/WebServices/Countries/US.php:20-30 | every US mask formats a valid US zip to itself |
| `CountryUS.QueryCountryIsRecordId` | src/Support/WebServices/Countries/US.php:3-34 | every US service sends the record's `country_id` as `country` |
| `Engine.Selected` | tests/spec/PragmaRX/ZIPcode/ZIPcodeSpec.php:246-262 | no target picks the first service, none when the list is empty; a name picks the first listed service of that name, the one the name lookup returns, or raises WebServicesNotFound exactly when none has it; a record is used as given |
| `Engine.Answer` | tests/spec/PragmaRX/ZIPcode/ZIPcodeSpec.php:246-282 | fails exactly when the selection fails; no service gives the empty result; otherwise the result names the selected service and carries its mandatory fields |
| `Engine.AnswerOutcomes` | tests/spec/PragmaRX/ZIPcode/ZIPcodeSpec.php:246-262 | find fails only for an unknown name; an empty list gives the empty result; one service is asked and named in the result; find by a name gives what find on the record getWebServiceByName returns for it gives |
| `Engine.ZipCode.constructor` | tests/spec/PragmaRX/ZIPcode/ZIPcodeSpec.php:144-152 | a new engine has no zip and the empty result |
| `Engine.ZipCode.SetZip` | tests/spec/PragmaRX/ZIPcode/ZIPcodeSpec.php:210-215 | stores the validated zip; an invalid zip changes nothing |
| `Engine.ZipCode.SetCountryData` | tests/spec/PragmaRX/ZIPcode/ZIPcodeSpec.php:102 | makes the given record the active country |
| `Engine.ZipCode.SetCountry` | tests/spec/PragmaRX/ZIPcode/ZIPcodeSpec.php:139-142 | activates the configured record for the id, whose id is then the one asked for; an unknown id raises WebServicesNotFound and changes nothing |
| `Engine.ZipCode.ClearWebServicesList` | tests/spec/PragmaRX/ZIPcode/ZIPcodeSpec.php:176-181 | the active country keeps everything but its services, which become empty |
| `Engine.ZipCode.GetWebServiceByName` | tests/spec/PragmaRX/ZIPcode/ZIPcodeSpec.php:198-208 | the loop over the services returns what the lookup function specifies |
| `Engine.ZipCode.CheckZipWebServices` | tests/spec/PragmaRX/ZIPcode/ZIPcodeSpec.php:114-121 | true exactly when every configured service answers the probe |
| `Engine.ZipCode.GatherInformationFromZip` | tests/spec/PragmaRX/ZIPcode/ZIPcodeSpec.php:217-226 | the service's answer for the validated zip, unchanged; InvalidZipCode otherwise |
| `Engine.ZipCode.Find` | tests/spec/PragmaRX/ZIPcode/ZIPcodeSpec.php:154-174 | an invalid zip changes nothing; otherwise the zip is stored and the lookup result becomes the last result |
| `ZipExamples.ClearsSeparators` | tests/spec/PragmaRX/ZIPcode/ZIPcodeSpec.php:86 | `20.250-030` clears to `20250030` |
| `ZipExamples.ClearsDotted` | tests/spec/PragmaRX/ZIPcode/ZIPcodeSpec.php:95 | `2.0.2.5.0-0.3.0` clears to `20250030` |
| `ZipExamples.ValidZips` | tests/spec/PragmaRX/ZIPcode/ZIPcodeSpec.php:84-91 | the three spellings of `20250030` validate to it |
| `ZipExamples.InvalidZips` | tests/spec/PragmaRX/ZIPcode/ZIPcodeSpec.php:98-107 | `2`, `a` and `2025003333` raise InvalidZipCode |
| `ZipExamples.FormatWithDash` | tests/spec/PragmaRX/ZIPcode/ZIPcodeSpec.php:185 | `20250030` with `99999-999` is `20250-030` |
| `ZipExamples.FormatAllPlaceholders` | tests/spec/PragmaRX/ZIPcode/ZIPcodeSpec.php:187 | `20250030` with `99999999` is `20250030` |
| `ZipExamples.FormatShortZip` | tests/spec/PragmaRX/ZIPcode/ZIPcodeSpec.php:189 | `99750` with `99999999` is `99750` |
| `ZipExamples.FormatWithDot` | tests/spec/PragmaRX/ZIPcode/ZIPcodeSpec.php:191 | `99750` with `99.999` is `99.750` |
| `ZipExamples.FormatBackslashLiteral` | tests/spec/PragmaRX/ZIPcode/ZIPcodeSpec.php:193 | a backslash in the mask is copied like any literal |
| `ZipExamples.FormatLetters` | tests/spec/PragmaRX/ZIPcode/ZIPcodeSpec.php:195 | letters are placed by the placeholders like digits |
| `SpecFixtures.ExampleErrors` | tests/spec/PragmaRX/ZIPcode/ZIPcodeSpec.php:165-174 | the example answer yields exactly the `missing_field` error |
| `SpecFixtures.ExampleNotEmpty` | tests/spec/PragmaRX/ZIPcode/ZIPcodeSpec.php:264-271 | the example answer gives a non-empty result |
| `SpecFixtures.MissingMandatoryMakesEmpty` | tests/spec/PragmaRX/ZIPcode/ZIPcodeSpec.php:273-282 | without `uf` the mandatory `state_id` is missing and the result is empty |
| `SpecFixtures.NewEngineHasNoZip` | tests/spec/PragmaRX/ZIPcode/ZIPcodeSpec.php:149-152 | a new engine has no zip |
| `SpecFixtures.SetZipStoresClearedZip` | tests/spec/PragmaRX/ZIPcode/ZIPcodeSpec.php:210-215 | `setZip('20.123-456')` stores `20123456` |
| `SpecFixtures.FindKeepsZipAndErrors` | tests/spec/PragmaRX/ZIPcode/ZIPcodeSpec.php:123-174 | find keeps `20250030`, reports the one error and names the test service |
| `SpecFixtures.FindOnGivenService` | tests/spec/PragmaRX/ZIPcode/ZIPcodeSpec.php:264-271 | find on the record looked up by name succeeds and is not empty |
| `SpecFixtures.FindWithoutMandatoryField` | tests/spec/PragmaRX/ZIPcode/ZIPcodeSpec.php:273-282 | with `uf` taken out of the answer, find on the same record gives an empty result |
| `SpecFixtures.FindByNameMatchesGivenService` | tests/spec/PragmaRX/ZIPcode/ZIPcodeSpec.php:246-262 | find by a name and find on the record of that name give the same result |
| `SpecFixtures.GatherReturnsAnswer` | tests/spec/PragmaRX/ZIPcode/ZIPcodeSpec.php:217-226 | gather returns the stubbed answer unchanged |
| `SpecFixtures.AllServicesReachable` | tests/spec/PragmaRX/ZIPcode/ZIPcodeSpec.php:114-121 | with every service reachable the check is true |
| `SpecFixtures.ClearedListFindsNothing` | tests/spec/PragmaRX/ZIPcode/ZIPcodeSpec.php:176-181 | after clearing there are no services, and find with no target gives the empty result |
| `SpecFixtures.UnknownNamesRaise` | tests/spec/PragmaRX/ZIPcode/ZIPcodeSpec.php:139-142 | an unknown country id and an unknown service name raise WebServicesNotFound |
| `SpecFixtures.SetCountryActivates` | tests/spec/PragmaRX/ZIPcode/ZIPcodeSpec.php:228-233 | setCountry('CA') makes the active country's id `CA` |

## Left out

- HTTP transport: `consume`, `ping`, URL building and JSON/XML decoding are network I/O. `consume` is a given function from service and zip to a decoded answer. `ping` is a given predicate on service names. Transport failures are not modelled.
- `setUserAgent`/`getUserAgent` (`ZIPcodeSpec.php:235-244`) pass the value through to the transport. They have no logic of their own.
- Country loading: `setCountry` reads country and service files from disk. Here the configuration source is a map from id to country record.
- The default country record is not part of this model. It is a constructor parameter. The scenarios that use it before `setCountryData` require only that it takes eight-character zips. The CA record is not part of this model either; its scenario requires only that the source has it.
- The configuration source is assumed to key every record by its own `country_id`, as `US.php:3` and `US.php:9` do for `US`. The engine and every scenario require it.
- Merging of service fragments into country records is not modelled. The OpenDatasoft record is kept as the fragment it is, with no name and no zip format.
- Engine.ZipCode.SetCountry: also forgets the last zip and result; the tests show neither behaviour.
- `result_type`, `_check_resultado`, the `facet` parameters and `numberOfWebServicesAvailable` are carried as data or omitted. Nothing in the model interprets them.
- A pass copying same-named top-level answer keys into the result is not modelled: fields declared `null` are never filled.
- `find` asks one service per call. There is no retry on the next service after an empty or failed answer.
- ZipNormalizer.ClearZip: keeps ASCII letters and digits only. Non-ASCII letters such as `é` are removed.
- ZipFormatter.Formatted: output stops at the first `9` that finds the zip used up, so literals after that point are not emitted. Zip characters beyond the mask's placeholders are dropped. The specification pins neither case.
- FieldMapper.RecordRoot: when `iterate_on` names no non-empty array, there is no record, and every field with a path fails.
- ResponseTree.Child: a JSON `null` at the end of a path counts as found.
- ResponseTree.Child: an array is read only by a canonical decimal index (`0`, `1`, ...). A segment such as `00` reads nothing from an array, as a string key other than an integer's own spelling does in PHP.
- ResponseTree.Json: numbers are integers. Decimal values such as the OpenDatasoft `longitude` and `latitude` are not representable, and the field mapper never inspects values, so nothing depends on it.
- FieldMapper.ServiceResult.IsEmpty: a mandatory field declared `null` makes every result empty.
- Engine.ZipCode.Find: the validated zip is stored before the service is selected, so an unknown service name still updates the zip.
- `OpenDatasoft.php:16` lacks a trailing comma and does not parse as written. The model uses the intended mapping, with `city` first.
