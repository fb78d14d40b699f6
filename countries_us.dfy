/**
 * The US country record: five-character zips, the example zip 10006, and two
 * services asked in the order Geonames, then Zippopotamus, each formatting
 * zips with the mask 99999 and sending the country id as its `country`
 * query parameter.
 */
module CountryUS {
  import opened Wrappers
  import opened Config
  import opened ZipNormalizer
  import opened ZipFormatter

  const CountryId: string := "US"

  const Geonames: WebService := WebService(
    name := "Geonames", url := "", query := "", resultType := "", zipFormat := "99999",
    queryParameters := map["country" := CountryId], iterateOn := None, fields := [], mandatoryFields := [])

  const Zippopotamus: WebService := WebService(
    name := "Zippopotamus", url := "", query := "", resultType := "", zipFormat := "99999",
    queryParameters := map["country" := CountryId], iterateOn := None, fields := [], mandatoryFields := [])

  const US: Country := Country(
    id := CountryId,
    name := "United States",
    zipLength := 5,
    zipCodeExample := "10006",
    webServices := [Geonames, Zippopotamus])

  /** Under the US record a zip is accepted exactly when it clears to five characters, and then as its cleared form. */
  lemma ValidatesFiveCharacters(s: string)
    ensures ValidateZip(s, US.zipLength).Ok? <==> |ClearZip(s)| == 5
    ensures ValidateZip(s, US.zipLength).Ok? ==> ValidateZip(s, US.zipLength).value == ClearZip(s)
  {
  }

  /** The example zip is valid and validates to itself. */
  lemma ExampleValidates()
    ensures ValidateZip(US.zipCodeExample, US.zipLength) == Ok("10006")
  {
    assert AllAlphaNum("10006");
    ClearZipFixedPoint("10006");
  }

  /** The services keep their configured order, and each is found by its name. */
  lemma ServicesInOrder()
    ensures |US.webServices| == 2
    ensures US.webServices[0].name == "Geonames" && US.webServices[1].name == "Zippopotamus"
    ensures LookupService(US.webServices, "Geonames") == Ok(Geonames)
    ensures LookupService(US.webServices, "Zippopotamus") == Ok(Zippopotamus)
  {
  }

  /** Every US mask is five placeholders, so formatting a valid US zip gives it back unchanged. */
  lemma FormatKeepsValidZip(s: string, i: nat)
    requires ValidateZip(s, US.zipLength).Ok? && i < |US.webServices|
    ensures Formatted(ValidateZip(s, US.zipLength).value, US.webServices[i].zipFormat) ==
      ValidateZip(s, US.zipLength).value
  {
    var zip := ValidateZip(s, US.zipLength).value;
    var mask := US.webServices[i].zipFormat;
    assert mask == "99999";
    AllNinesKeepsZip(zip, mask);
    assert zip[..Min(|zip|, |mask|)] == zip;
  }

  /** Every US service sends the record's own country id. */
  lemma QueryCountryIsRecordId(i: nat)
    requires i < |US.webServices|
    ensures "country" in US.webServices[i].queryParameters
    ensures US.webServices[i].queryParameters["country"] == US.id
  {
  }
}
