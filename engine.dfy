/**
 * The resolution engine (the ZIPcode object): the active country, the last
 * zip and the last result, the lookups on the country's service list, and
 * `find`, which validates a zip, selects one service and maps its answer.
 *
 * The HTTP layer is given to the engine: `consume` is the decoded answer a
 * service gives for a zip, `ping` whether a service is reachable. The
 * configuration source is the map `countries` from country id to record.
 */
module Engine {
  import opened Wrappers
  import opened ZipNormalizer
  import opened ResponseTree
  import opened Config
  import opened FieldMapper

  /** What `find` is told to ask: nothing in particular, a service by name, or a service record. */
  datatype Target = AnyService | ServiceNamed(name: string) | GivenService(service: WebService)

  /** The service `find` asks, or WebServicesNotFound; None when there is no service to ask. */
  function Selected(country: Country, target: Target): (r: Result<Option<WebService>>)
    ensures r.Err? <==>
      target.ServiceNamed? && forall i :: 0 <= i < |country.webServices| ==> country.webServices[i].name != target.name
    ensures r.Err? ==> r.error == WebServicesNotFound
    ensures r == Ok(None) <==> target.AnyService? && country.webServices == []
    ensures r.Ok? && r.value.Some? && target.AnyService? ==> r.value.value == country.webServices[0]
    ensures r.Ok? && target.ServiceNamed? ==>
      r.value.Some? && r.value.value.name == target.name && r.value.value in country.webServices
    ensures r.Ok? && target.ServiceNamed? ==> r.value == Some(LookupService(country.webServices, target.name).value)
    ensures target.GivenService? ==> r == Ok(Some(target.service))
  {
    match target
    case AnyService =>
      if country.webServices == [] then Ok(None) else Ok(Some(country.webServices[0]))
    case ServiceNamed(name) =>
      (match LookupService(country.webServices, name)
       case Err(e) => Err(e)
       case Ok(service) => Ok(Some(service)))
    case GivenService(service) => Ok(Some(service))
  }

  /** The result `find` returns for an already validated zip. */
  function Answer(country: Country, consume: (WebService, string) -> Json, zip: string, target: Target)
    : (r: Result<ServiceResult>)
    ensures r.Err? <==> Selected(country, target).Err?
    ensures r.Err? ==> r.error == WebServicesNotFound
    ensures Selected(country, target) == Ok(None) ==> r == Ok(NoResult)
    ensures r.Ok? && Selected(country, target).value.Some? ==>
      r.value.source == Some(Selected(country, target).value.value.name) &&
      r.value.mandatoryFields == Selected(country, target).value.value.mandatoryFields
  {
    match Selected(country, target)
    case Err(e) => Err(e)
    case Ok(None) => Ok(NoResult)
    case Ok(Some(service)) => Ok(Extract(consume(service, zip), service))
  }

  /**
   * The outcomes of a lookup: it fails only for a name no configured service
   * has; an empty service list gives the empty result; otherwise exactly one
   * service is asked, and the result carries that service's name. A name asks
   * the service getWebServiceByName returns for it: the first one so named.
   */
  lemma AnswerOutcomes(country: Country, consume: (WebService, string) -> Json, zip: string, target: Target)
    ensures Answer(country, consume, zip, target).Err? <==>
      target.ServiceNamed? && forall i :: 0 <= i < |country.webServices| ==> country.webServices[i].name != target.name
    ensures Answer(country, consume, zip, target).Err? ==> Answer(country, consume, zip, target).error == WebServicesNotFound
    ensures target.AnyService? && country.webServices == [] ==>
      Answer(country, consume, zip, target) == Ok(NoResult) && NoResult.IsEmpty()
    ensures target.AnyService? && country.webServices != [] ==>
      Answer(country, consume, zip, target) == Answer(country, consume, zip, GivenService(country.webServices[0]))
    ensures target.ServiceNamed? && Answer(country, consume, zip, target).Ok? ==>
      Answer(country, consume, zip, target).value.source == Some(target.name)
    ensures target.ServiceNamed? && Answer(country, consume, zip, target).Ok? ==>
      Answer(country, consume, zip, target) ==
        Answer(country, consume, zip, GivenService(LookupService(country.webServices, target.name).value))
    ensures target.GivenService? ==>
      Answer(country, consume, zip, target) == Ok(Extract(consume(target.service, zip), target.service))
  {
  }

  class ZipCode {
    /** The configuration source: country records by id. */
    const countries: map<string, Country>
    /** The transport: the decoded answer of a service asked about a zip. */
    const consume: (WebService, string) -> Json
    /** The transport's reachability probe, by service name. */
    const ping: string -> bool

    var country: Country
    var zip: Option<string>
    var result: ServiceResult

    /** A new engine: the initial country active, no zip yet and the empty result. */
    constructor (countries: map<string, Country>, initial: Country,
                 consume: (WebService, string) -> Json, ping: string -> bool)
      requires KeyedById(countries)
      ensures this.countries == countries && this.consume == consume && this.ping == ping
      ensures country == initial && zip == None && result == NoResult
    {
      this.countries := countries;
      this.consume := consume;
      this.ping := ping;
      country := initial;
      zip := None;
      result := NoResult;
    }

    /** getErrors(): the errors of the last result. */
    function Errors(): seq<string>
      reads this
    {
      result.errors
    }

    /** setZip: stores the validated zip; an invalid zip raises InvalidZipCode and changes nothing. */
    method SetZip(raw: string) returns (r: Result<string>)
      modifies this
      ensures r == ValidateZip(raw, country.zipLength)
      ensures zip == if r.Ok? then Some(r.value) else old(zip)
      ensures country == old(country) && result == old(result)
    {
      r := ValidateZip(raw, country.zipLength);
      if r.Ok? {
        zip := Some(r.value);
      }
    }

    /** setCountryData: makes the given record the active country. */
    method SetCountryData(data: Country)
      modifies this
      ensures country == data
      ensures zip == old(zip) && result == old(result)
    {
      country := data;
    }

    /**
     * setCountry: activates the record the configuration source has for the
     * id and forgets the last zip and result; an unknown id raises
     * WebServicesNotFound and changes nothing.
     */
    method SetCountry(id: string) returns (r: Result<Country>)
      requires KeyedById(countries)
      modifies this
      ensures r.Ok? <==> id in countries
      ensures r.Ok? ==> country.id == id
      ensures r.Ok? ==> r.value == countries[id] && country == countries[id] && zip == None && result == NoResult
      ensures r.Err? ==> r.error == WebServicesNotFound
      ensures r.Err? ==> country == old(country) && zip == old(zip) && result == old(result)
    {
      if id in countries {
        country := countries[id];
        zip := None;
        result := NoResult;
        r := Ok(country);
      } else {
        r := Err(WebServicesNotFound);
      }
    }

    /** clearWebServicesList: the active country keeps everything but its services. */
    method ClearWebServicesList()
      modifies this
      ensures country == old(country).(webServices := [])
      ensures zip == old(zip) && result == old(result)
    {
      country := country.(webServices := []);
    }

    /** getWebServiceByName: the first service with that name, scanning the list in order. */
    method GetWebServiceByName(name: string) returns (r: Result<WebService>)
      ensures r == LookupService(country.webServices, name)
    {
      var services := country.webServices;
      var i := 0;
      while i < |services|
        invariant 0 <= i <= |services|
        invariant LookupService(services[i..], name) == LookupService(services, name)
      {
        if services[i].name == name {
          return Ok(services[i]);
        }
        assert services[i..][1..] == services[i + 1..];
        i := i + 1;
      }
      r := Err(WebServicesNotFound);
    }

    /** checkZipWebServices: true exactly when every configured service answers the probe. */
    method CheckZipWebServices() returns (ok: bool)
      ensures ok <==> forall i :: 0 <= i < |country.webServices| ==> ping(country.webServices[i].name)
    {
      var services := country.webServices;
      ok := true;
      var i := 0;
      while i < |services|
        invariant 0 <= i <= |services|
        invariant ok <==> forall j :: 0 <= j < i ==> ping(services[j].name)
      {
        ok := ok && ping(services[i].name);
        i := i + 1;
      }
    }

    /** gatherInformationFromZip: the service's decoded answer for the validated zip, as it came. */
    method GatherInformationFromZip(raw: string, service: WebService) returns (r: Result<Json>)
      ensures r.Ok? <==> ValidateZip(raw, country.zipLength).Ok?
      ensures r.Err? ==> r.error == InvalidZipCode
      ensures r.Ok? ==> r.value == consume(service, ValidateZip(raw, country.zipLength).value)
    {
      var z := ValidateZip(raw, country.zipLength);
      if z.Err? {
        return Err(z.error);
      }
      r := Ok(consume(service, z.value));
    }

    /**
     * find: validates the zip (InvalidZipCode changes nothing), stores it,
     * selects the service (WebServicesNotFound keeps the last result), asks
     * it once and keeps the mapped answer as the last result.
     */
    method Find(raw: string, target: Target) returns (r: Result<ServiceResult>)
      modifies this
      ensures country == old(country)
      ensures ValidateZip(raw, country.zipLength).Err? ==>
        r == Err(InvalidZipCode) && zip == old(zip) && result == old(result)
      ensures ValidateZip(raw, country.zipLength).Ok? ==>
        zip == Some(ValidateZip(raw, country.zipLength).value) &&
        r == Answer(country, consume, ValidateZip(raw, country.zipLength).value, target)
      ensures result == if r.Ok? then r.value else old(result)
    {
      var z := ValidateZip(raw, country.zipLength);
      if z.Err? {
        return Err(z.error);
      }
      zip := Some(z.value);
      var service: WebService;
      match target {
        case AnyService =>
          if country.webServices == [] {
            result := NoResult;
            return Ok(NoResult);
          }
          service := country.webServices[0];
        case ServiceNamed(name) =>
          var found := GetWebServiceByName(name);
          if found.Err? {
            return Err(found.error);
          }
          service := found.value;
        case GivenService(s) =>
          service := s;
      }
      var response := consume(service, z.value);
      result := Extract(response, service);
      r := Ok(result);
    }
  }
}
