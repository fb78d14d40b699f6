/**
 * The configuration records the engine interprets: a web-service record
 * (where to send the query and how to read the answer) and a country record
 * (zip length, an example zip and the ordered services to ask).
 */
module Config {
  import opened Wrappers

  /** One entry of a service's `fields`: an output field and the path that feeds it, or None for `null`. */
  datatype FieldMapping = FieldMapping(output: string, path: Option<string>)

  /**
   * A web-service record. A key the record does not set is the empty string,
   * the empty map or the empty list.
   */
  datatype WebService = WebService(
    name: string,
    url: string,
    query: string,
    resultType: string,
    zipFormat: string,
    queryParameters: map<string, string>,
    iterateOn: Option<string>,
    fields: seq<FieldMapping>,
    mandatoryFields: seq<string>)

  datatype Country = Country(
    id: string,
    name: string,
    zipLength: nat,
    zipCodeExample: string,
    webServices: seq<WebService>)

  /** The output names of a `fields` list are distinct, as the keys of the configuration array are. */
  predicate DistinctOutputs(fields: seq<FieldMapping>) {
    forall i, j :: 0 <= i < j < |fields| ==> fields[i].output != fields[j].output
  }

  /** A configuration source in which every country record carries its own key as its id (`country_id`). */
  predicate KeyedById(countries: map<string, Country>) {
    forall k :: k in countries ==> countries[k].id == k
  }

  /** Every mandatory field is declared with a path (not `null`). */
  predicate MandatoryMapped(service: WebService) {
    forall m :: m in service.mandatoryFields ==>
      exists i :: 0 <= i < |service.fields| && service.fields[i].output == m && service.fields[i].path.Some?
  }

  /**
   * The first service with the given name, or WebServicesNotFound when the
   * list has none.
   */
  function LookupService(services: seq<WebService>, name: string): (r: Result<WebService>)
    ensures r.Err? <==> forall i :: 0 <= i < |services| ==> services[i].name != name
    ensures r.Err? ==> r.error == WebServicesNotFound
    ensures r.Ok? ==> r.value.name == name
    ensures r.Ok? ==> exists i :: (0 <= i < |services| && services[i] == r.value &&
                                   forall j :: 0 <= j < i ==> services[j].name != name)
  {
    if services == [] then Err(WebServicesNotFound)
    else if services[0].name == name then Ok(services[0])
    else
      var r := LookupService(services[1..], name);
      assert forall i :: 0 < i < |services| ==> services[i] == services[1..][i - 1];
      r
  }

  const ZipPlaceholder: string := "%zip_code%"

  /** Replaces every occurrence of `pattern` in `s`, scanning left to right. */
  function ReplaceAll(s: string, pattern: string, replacement: string): (r: string)
    requires |pattern| > 0
    ensures |replacement| == |pattern| ==> |r| == |s|
    ensures |replacement| >= |pattern| ==> |r| >= |s|
  {
    if |s| < |pattern| then s
    else if s[..|pattern|] == pattern then replacement + ReplaceAll(s[|pattern|..], pattern, replacement)
    else [s[0]] + ReplaceAll(s[1..], pattern, replacement)
  }

  /** The query with the zip put in place of `%zip_code%`. */
  function SubstituteZip(query: string, zip: string): string {
    ReplaceAll(query, ZipPlaceholder, zip)
  }

  /** Text without a `%` holds no placeholder, so substitution leaves it alone. */
  lemma {:induction false} SubstituteNoPercent(s: string, zip: string)
    requires '%' !in s
    ensures SubstituteZip(s, zip) == s
  {
    if |s| >= |ZipPlaceholder| {
      assert s[..|ZipPlaceholder|] != ZipPlaceholder by { assert s[0] != '%'; }
      assert '%' !in s[1..] by { assert forall c :: c in s[1..] ==> c in s; }
      SubstituteNoPercent(s[1..], zip);
    }
  }

  /** A prefix without `%` is copied through unchanged. */
  lemma {:induction false} SubstitutePercentFreePrefix(pre: string, rest: string, zip: string)
    requires '%' !in pre
    ensures SubstituteZip(pre + rest, zip) == pre + SubstituteZip(rest, zip)
  {
    if pre == [] {
      assert pre + rest == rest;
    } else {
      var s := pre + rest;
      assert s[0] == pre[0];
      assert |s| >= |ZipPlaceholder| ==> s[..|ZipPlaceholder|] != ZipPlaceholder;
      assert s[1..] == pre[1..] + rest;
      assert '%' !in pre[1..] by { assert forall c :: c in pre[1..] ==> c in pre; }
      SubstitutePercentFreePrefix(pre[1..], rest, zip);
    }
  }

  /**
   * A query holding the placeholder once, with no other `%`, becomes the text
   * before it, the zip, and the text after it.
   */
  lemma SubstituteSinglePlaceholder(pre: string, post: string, zip: string)
    requires '%' !in pre && '%' !in post
    ensures SubstituteZip(pre + ZipPlaceholder + post, zip) == pre + zip + post
  {
    SubstitutePercentFreePrefix(pre, ZipPlaceholder + post, zip);
    var s := ZipPlaceholder + post;
    assert s[..|ZipPlaceholder|] == ZipPlaceholder && s[|ZipPlaceholder|..] == post;
    SubstituteNoPercent(post, zip);
    assert pre + ZipPlaceholder + post == pre + s;
  }
}
