/**
 * The fixtures of the engine's behaviour specification — a one-service
 * country with eight-character zips, a decoded answer and the error it
 * yields — and the behaviours stated against them.
 */
module SpecFixtures {
  import opened Wrappers
  import opened ZipNormalizer
  import opened ResponseTree
  import opened Config
  import opened FieldMapper
  import opened Engine
  import opened ZipExamples

  const TestService: WebService := WebService(
    name := "testwebService",
    url := "testwebService",
    query := "",
    resultType := "json",
    zipFormat := "99999999",
    queryParameters := map[],
    iterateOn := None,
    fields := [
      FieldMapping("zip", Some("zip")),
      FieldMapping("state_id", Some("uf")),
      FieldMapping("state_name", None),
      FieldMapping("city", Some("cidade")),
      FieldMapping("neighborhood", Some("bairro")),
      FieldMapping("street_kind", Some("tipo_logradouro")),
      FieldMapping("street_name", Some("logradouro")),
      FieldMapping("missing_field", Some("whatever"))
    ],
    mandatoryFields := ["state_id"])

  /** The country data set with setCountryData: eight-character zips and the one test service. */
  const TestCountry: Country := Country(
    id := "", name := "", zipLength := 8, zipCodeExample := "", webServices := [TestService])

  const ResultExample: Json := Obj(map[
    "resultado" := Str("1"),
    "zip" := Str("20250030"),
    "uf" := Str("RJ"),
    "cidade" := Str("Rio de Janeiro"),
    "bairro" := Str("Estácio"),
    "tipo_logradouro" := Str("Rua"),
    "logradouro" := Str("Professor Quintino do Vale"),
    "country_id" := Str("BR"),
    "web_service" := Str("testwebService")])

  const MissingFieldError: seq<string> := ["Result field 'missing_field' was not found."]

  lemma TestOutputsDistinct()
    ensures DistinctOutputs(TestService.fields) && MandatoryMapped(TestService)
  {
    assert TestService.fields[1].output == "state_id" && TestService.fields[1].path.Some?;
  }

  /** Each declared path of the test service is a single top-level key. */
  lemma TopLevelPaths(raw: Json, i: nat)
    requires i < |TestService.fields| && TestService.fields[i].path.Some?
    ensures Lookup(Some(raw), TestService.fields[i].path.value) == Child(raw, TestService.fields[i].path.value)
  {
    ResolveSingleSegment(raw, TestService.fields[i].path.value);
  }

  /** The declared paths other than `whatever` are keys of the example answer. */
  lemma ExampleLookupsFound(i: nat)
    requires i < 7 && TestService.fields[i].path.Some?
    ensures !Fails(Some(ResultExample), TestService.fields[i])
  {
    TopLevelPaths(ResultExample, i);
  }

  lemma ExampleLookupMissing()
    ensures Fails(Some(ResultExample), TestService.fields[7])
  {
    TopLevelPaths(ResultExample, 7);
  }

  /** Only `missing_field` fails on the example answer. */
  lemma ExampleLookups(i: nat)
    requires i < |TestService.fields| && TestService.fields[i].path.Some?
    ensures Fails(Some(ResultExample), TestService.fields[i]) <==> i == 7
  {
    if i < 7 {
      ExampleLookupsFound(i);
    } else {
      ExampleLookupMissing();
    }
  }

  lemma MissingFieldText()
    ensures "Result field '" + "missing_field" + "' was not found." == "Result field 'missing_field' was not found."
  {
  }

  lemma MissingFieldMessage()
    ensures [NotFoundMessage("missing_field")] == MissingFieldError
  {
    MissingFieldText();
  }

  lemma ExampleErrorsTail()
    ensures MapFields(Some(ResultExample), TestService.fields[3..]).errors == MissingFieldError
  {
    var fields, root := TestService.fields, Some(ResultExample);
    ExampleLookups(7);
    MissingFieldMessage();
    assert fields[7..] == [fields[7]];
    MapFieldsSingleError(root, fields[7]);
    assert MapFields(root, fields[7..]).errors == MissingFieldError;
    ExampleLookups(6);
    assert MapFields(root, fields[6..]).errors == MissingFieldError;
    ExampleLookups(5);
    assert MapFields(root, fields[5..]).errors == MissingFieldError;
    ExampleLookups(4);
    assert MapFields(root, fields[4..]).errors == MissingFieldError;
    ExampleLookups(3);
  }

  /** Mapping the example answer yields exactly the one error for `missing_field`. */
  lemma ExampleErrors()
    ensures Extract(ResultExample, TestService).errors == MissingFieldError
  {
    var fields, root := TestService.fields, Some(ResultExample);
    ExampleErrorsTail();
    assert MapFields(root, fields[2..]).errors == MissingFieldError;
    ExampleLookups(1);
    assert MapFields(root, fields[1..]).errors == MissingFieldError;
    ExampleLookups(0);
  }

  /** The example answer has the mandatory `state_id` (from `uf`), so the result is not empty. */
  lemma ExampleNotEmpty()
    ensures !Extract(ResultExample, TestService).IsEmpty()
  {
    TestOutputsDistinct();
    ExampleLookups(1);
    ExtractField(ResultExample, TestService, 1);
  }

  /** Without `uf` the mandatory `state_id` is missing and the result is empty. */
  lemma MissingMandatoryMakesEmpty()
    ensures Extract(Obj(ResultExample.members - {"uf"}), TestService).IsEmpty()
  {
    var raw := Obj(ResultExample.members - {"uf"});
    TestOutputsDistinct();
    TopLevelPaths(raw, 1);
    ExtractField(raw, TestService, 1);
  }



  /** The stubbed transport of the tests: every service answers with the example. */
  function AnswersExample(service: WebService, zip: string): Json {
    ResultExample
  }

  /** The same stub with `uf` taken out of the answer. */
  function AnswersWithoutUf(service: WebService, zip: string): Json {
    Obj(ResultExample.members - {"uf"})
  }

  function Reachable(name: string): bool {
    true
  }

  /** A new engine has no zip and the empty result. */
  method NewEngineHasNoZip(countries: map<string, Country>, initial: Country)
    returns (zip: Option<string>, empty: bool)
    requires KeyedById(countries)
    ensures zip == None && empty
  {
    var engine := new ZipCode(countries, initial, AnswersExample, Reachable);
    zip, empty := engine.zip, engine.result.IsEmpty();
  }

  /** setZip stores the cleared zip (the initial country takes eight-character zips). */
  method SetZipStoresClearedZip(countries: map<string, Country>, initial: Country)
    returns (zip: Option<string>)
    requires KeyedById(countries)
    requires initial.zipLength == 8
    ensures zip == Some("20123456")
  {
    var engine := new ZipCode(countries, initial, AnswersExample, Reachable);
    ClearsSetZipInput();
    var raw := "20.123-456";
    var _ := engine.SetZip(raw);
    zip := engine.zip;
  }

  /** find with no target asks the one test service: the zip is kept and the one error reported. */
  method FindKeepsZipAndErrors(countries: map<string, Country>, initial: Country)
    returns (r: Result<ServiceResult>, zip: Option<string>, errors: seq<string>)
    requires KeyedById(countries)
    ensures r.Ok? && !r.value.IsEmpty() && r.value.source == Some("testwebService")
    ensures zip == Some("20250030") && errors == MissingFieldError
  {
    var raw := "20250030";
    ClearsClean();
    assert ValidateZip(raw, TestCountry.zipLength) == Ok("20250030");
    StubAnswers("20250030");
    ExampleErrors();
    ExampleNotEmpty();
    var engine := new ZipCode(countries, initial, AnswersExample, Reachable);
    engine.SetCountryData(TestCountry);
    r := engine.Find(raw, AnyService);
    zip, errors := engine.zip, engine.Errors();
  }

  /** getWebServiceByName finds the one test service by its name. */
  lemma TestServiceByName()
    ensures LookupService(TestCountry.webServices, "testwebService") == Ok(TestService)
  {
    assert TestCountry.webServices[0].name == "testwebService";
  }

  /** What the stubbed transports make find return for the test country, whatever the zip. */
  lemma StubAnswers(zip: string)
    ensures Answer(TestCountry, AnswersExample, zip, AnyService) == Ok(Extract(ResultExample, TestService))
    ensures Answer(TestCountry, AnswersExample, zip, GivenService(TestService)) == Ok(Extract(ResultExample, TestService))
    ensures Answer(TestCountry, AnswersWithoutUf, zip, GivenService(TestService)) ==
      Ok(Extract(Obj(ResultExample.members - {"uf"}), TestService))
  {
  }

  /** find on the service record got by name gives a result that is not empty. */
  method FindOnGivenService(countries: map<string, Country>, initial: Country)
    returns (r: Result<ServiceResult>)
    requires KeyedById(countries)
    ensures r.Ok? && !r.value.IsEmpty()
  {
    var raw := "20250030";
    ClearsClean();
    assert ValidateZip(raw, TestCountry.zipLength) == Ok("20250030");
    TestServiceByName();
    StubAnswers("20250030");
    ExampleNotEmpty();
    var engine := new ZipCode(countries, initial, AnswersExample, Reachable);
    engine.SetCountryData(TestCountry);
    var service := engine.GetWebServiceByName("testwebService");
    r := engine.Find(raw, GivenService(service.value));
  }

  /** The same service, answering without the mandatory `uf` member, gives an empty result. */
  method FindWithoutMandatoryField(countries: map<string, Country>, initial: Country)
    returns (r: Result<ServiceResult>)
    requires KeyedById(countries)
    ensures r.Ok? && r.value.IsEmpty()
  {
    var raw := "20250030";
    ClearsClean();
    assert ValidateZip(raw, TestCountry.zipLength) == Ok("20250030");
    TestServiceByName();
    StubAnswers("20250030");
    MissingMandatoryMakesEmpty();
    var engine := new ZipCode(countries, initial, AnswersWithoutUf, Reachable);
    engine.SetCountryData(TestCountry);
    var service := engine.GetWebServiceByName("testwebService");
    r := engine.Find(raw, GivenService(service.value));
  }

  /** find by a service's name gives the same result as find on the record looked up by that name. */
  method FindByNameMatchesGivenService(countries: map<string, Country>, initial: Country, raw: string, name: string)
    returns (byName: Result<ServiceResult>, byRecord: Result<ServiceResult>)
    requires KeyedById(countries)
    requires ValidateZip(raw, initial.zipLength).Ok?
    requires exists i :: 0 <= i < |initial.webServices| && initial.webServices[i].name == name
    ensures byName.Ok? && byName == byRecord
  {
    var engine := new ZipCode(countries, initial, AnswersExample, Reachable);
    byName := engine.Find(raw, ServiceNamed(name));
    var service := engine.GetWebServiceByName(name);
    byRecord := engine.Find(raw, GivenService(service.value));
  }

  /** gatherInformationFromZip hands back the service's answer as it came. */
  method GatherReturnsAnswer(countries: map<string, Country>, initial: Country)
    returns (r: Result<Json>)
    requires KeyedById(countries)
    ensures r == Ok(ResultExample)
  {
    var engine := new ZipCode(countries, initial, AnswersExample, Reachable);
    engine.SetCountryData(TestCountry);
    var service := engine.GetWebServiceByName("testwebService");
    ClearsGatherInput();
    var raw := "20250-030";
    r := engine.GatherInformationFromZip(raw, service.value);
  }

  /** With every service reachable the check passes. */
  method AllServicesReachable(countries: map<string, Country>, initial: Country)
    returns (ok: bool)
    requires KeyedById(countries)
    ensures ok
  {
    var engine := new ZipCode(countries, initial, AnswersExample, Reachable);
    engine.SetCountryData(TestCountry);
    ok := engine.CheckZipWebServices();
  }

  /** After clearing, the service list is empty and find with no target gives the empty result. */
  method ClearedListFindsNothing(countries: map<string, Country>, initial: Country)
    returns (count: nat, r: Result<ServiceResult>)
    requires KeyedById(countries)
    ensures count == 0 && r == Ok(NoResult) && r.value.IsEmpty()
  {
    var engine := new ZipCode(countries, initial, AnswersExample, Reachable);
    engine.SetCountryData(TestCountry);
    engine.ClearWebServicesList();
    count := |engine.country.webServices|;
    ClearsClean();
    var raw := "20250030";
    r := engine.Find(raw, AnyService);
  }

  /** An unknown country id and an unknown service name both raise WebServicesNotFound. */
  method UnknownNamesRaise(countries: map<string, Country>, initial: Country)
    returns (country: Result<Country>, service: Result<WebService>)
    requires KeyedById(countries)
    requires "ZZ" !in countries
    ensures country == Err(WebServicesNotFound) && service == Err(WebServicesNotFound)
  {
    var engine := new ZipCode(countries, initial, AnswersExample, Reachable);
    country := engine.SetCountry("ZZ");
    engine.SetCountryData(TestCountry);
    service := engine.GetWebServiceByName("ZZ");
  }

  /** setCountry activates the record the configuration source has for the id. */
  method SetCountryActivates(countries: map<string, Country>, initial: Country)
    returns (id: string)
    requires KeyedById(countries)
    requires "CA" in countries
    ensures id == "CA"
  {
    var engine := new ZipCode(countries, initial, AnswersExample, Reachable);
    var _ := engine.SetCountry("CA");
    id := engine.country.id;
  }
}
