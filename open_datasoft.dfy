/**
 * The OpenDatasoft service record: a query with the `%zip_code%` placeholder,
 * answers wrapped in a `records` array, dotted paths, a numeric index segment
 * and outputs declared `null`. The record sets no name or zip format of its
 * own; the country record that uses it supplies those.
 */
module OpenDatasoft {
  import opened Wrappers
  import opened ResponseTree
  import opened Config
  import opened FieldMapper

  const QueryBeforeZip: string := "dataset=" + "us-zip-code-" + "latitude-and-" + "longitude" + "&q="
  const QueryAfterZip: string := "&facet=" + "state" + "&facet=" + "timezone" + "&facet=" + "dst"

  /** The record's own `fields.city` and `fields.zip`. */
  const RecordFields: seq<FieldMapping> := [
    FieldMapping("city", Some("fields.city")),
    FieldMapping("zip", Some("fields.zip"))
  ]

  /** Outputs the service does not provide: declared `null`. */
  const NullFields: seq<FieldMapping> := [
    FieldMapping("country_id", None),
    FieldMapping("country_name", None),
    FieldMapping("state_id", None)
  ]

  const PlaceFields: seq<FieldMapping> := [
    FieldMapping("state_name", Some("places.0.state")),
    FieldMapping("place", Some("fields.city")),
    FieldMapping("longitude", Some("fields.longitude")),
    FieldMapping("latitude", Some("fields.latitude"))
  ]

  const OpenDatasoft: WebService := WebService(
    name := "",
    url := "https://public.opendatasoft.com/api/records/1.0/search/?",
    query := QueryBeforeZip + ZipPlaceholder + QueryAfterZip,
    resultType := "",
    zipFormat := "",
    queryParameters := map["country" := "US"],
    iterateOn := Some("records"),
    fields := RecordFields + NullFields + PlaceFields,
    mandatoryFields := [])

  lemma OutputsDistinct()
    ensures DistinctOutputs(OpenDatasoft.fields)
  {
  }

  /** Apart from the placeholder, the query text has no `%`. */
  lemma TextBeforeZipHasNoPercent()
    ensures '%' !in QueryBeforeZip
  {
  }

  lemma TextAfterZipHasNoPercent()
    ensures '%' !in QueryAfterZip
  {
  }

  /** The query holds the placeholder once: the zip lands there and the rest of the text is kept. */
  lemma QuerySubstitution(zip: string)
    ensures SubstituteZip(OpenDatasoft.query, zip) == QueryBeforeZip + zip + QueryAfterZip
  {
    TextBeforeZipHasNoPercent();
    TextAfterZipHasNoPercent();
    SubstituteSinglePlaceholder(QueryBeforeZip, QueryAfterZip, zip);
  }

  /** `country_id`, `country_name` and `state_id` are declared `null`: never extracted and never an error. */
  lemma NullOutputsIgnored(raw: Json, i: nat)
    requires 2 <= i <= 4
    ensures OpenDatasoft.fields[i].path.None?
    ensures OpenDatasoft.fields[i].output !in Extract(raw, OpenDatasoft).fields
    ensures NotFoundMessage(OpenDatasoft.fields[i].output) !in Extract(raw, OpenDatasoft).errors
  {
    OutputsDistinct();
    ExtractField(raw, OpenDatasoft, i);
  }

  /** `city` and `place` read the same path, so both are extracted with the same value or both fail. */
  lemma SharedPathAgrees(raw: Json)
    ensures "city" in Extract(raw, OpenDatasoft).fields <==> "place" in Extract(raw, OpenDatasoft).fields
    ensures "city" in Extract(raw, OpenDatasoft).fields ==>
      Extract(raw, OpenDatasoft).fields["city"] == Extract(raw, OpenDatasoft).fields["place"]
    ensures NotFoundMessage("city") in Extract(raw, OpenDatasoft).errors <==>
      NotFoundMessage("place") in Extract(raw, OpenDatasoft).errors
  {
    OutputsDistinct();
    ExtractField(raw, OpenDatasoft, 0);
    ExtractField(raw, OpenDatasoft, 6);
  }

  /** The two paths read below, split into their segments. */
  lemma ZipPathSegments()
    ensures Split("fields.zip") == ["fields", "zip"]
  {
    assert Join(["fields", "zip"]) == "fields.zip";
    SplitJoin(["fields", "zip"]);
  }

  lemma StatePathSegments()
    ensures Split("places.0.state") == ["places", "0", "state"]
  {
    assert Join(["places", "0", "state"]) == "places.0.state";
    SplitJoin(["places", "0", "state"]);
  }

  lemma RecordsRoot(raw: Json, records: seq<Json>)
    requires raw.Obj? && "records" in raw.members && raw.members["records"] == Arr(records) && |records| > 0
    ensures RecordRoot(raw, OpenDatasoft.iterateOn) == Some(records[0])
  {
    SplitJoin(["records"]);
  }

  /**
   * Paths are read inside the first element of `records`, one dotted segment
   * at a time: `zip` is that record's `fields` then `zip`, and `state_name`
   * is element 0 of its `places`, then `state`.
   */
  lemma ReadsInsideFirstRecord(raw: Json, records: seq<Json>)
    requires raw.Obj? && "records" in raw.members && raw.members["records"] == Arr(records) && |records| > 0
    ensures "zip" in Extract(raw, OpenDatasoft).fields <==> Resolve(records[0], ["fields", "zip"]).Some?
    ensures "zip" in Extract(raw, OpenDatasoft).fields ==>
      Extract(raw, OpenDatasoft).fields["zip"] == Resolve(records[0], ["fields", "zip"]).value
    ensures "state_name" in Extract(raw, OpenDatasoft).fields <==> Resolve(records[0], ["places", "0", "state"]).Some?
    ensures "state_name" in Extract(raw, OpenDatasoft).fields ==>
      Extract(raw, OpenDatasoft).fields["state_name"] == Resolve(records[0], ["places", "0", "state"]).value
  {
    RecordsRoot(raw, records);
    OutputsDistinct();
    ZipPathSegments();
    StatePathSegments();
    ExtractField(raw, OpenDatasoft, 1);
    ExtractField(raw, OpenDatasoft, 5);
  }

  /**
   * Without a record to read, each output that has a path fails, and the
   * errors name them in declaration order.
   */
  lemma NoRecordAllFail(raw: Json)
    requires RecordRoot(raw, OpenDatasoft.iterateOn).None?
    ensures Extract(raw, OpenDatasoft).fields == map[]
    ensures Extract(raw, OpenDatasoft).errors == [
      NotFoundMessage("city"), NotFoundMessage("zip"), NotFoundMessage("state_name"),
      NotFoundMessage("place"), NotFoundMessage("longitude"), NotFoundMessage("latitude")]
  {
    NothingExtractedWithoutRecord(OpenDatasoft.fields);
    NoRecordErrors();
  }

  lemma NoRecordErrors()
    ensures MapFields(None, OpenDatasoft.fields).errors == [
      NotFoundMessage("city"), NotFoundMessage("zip"), NotFoundMessage("state_name"),
      NotFoundMessage("place"), NotFoundMessage("longitude"), NotFoundMessage("latitude")]
  {
    RecordFieldsMessages();
    NullFieldsMessages();
    PlaceFieldsMessages();
    ChunkedErrors(OpenDatasoft.fields, RecordFields, NullFields, PlaceFields);
  }

  /** Without a record, the errors of three lists of mappings in a row are the messages of each list in turn. */
  lemma ChunkedErrors(fields: seq<FieldMapping>, a: seq<FieldMapping>, b: seq<FieldMapping>, c: seq<FieldMapping>)
    requires fields == a + b + c
    ensures MapFields(None, fields).errors == PathMessages(a) + PathMessages(b) + PathMessages(c)
  {
    ErrorsWithoutRecord(fields);
    PathMessagesAppend(a + b, c);
    PathMessagesAppend(a, b);
  }

  lemma RecordFieldsMessages()
    ensures PathMessages(RecordFields) == [NotFoundMessage("city"), NotFoundMessage("zip")]
  {
  }

  lemma NullFieldsMessages()
    ensures PathMessages(NullFields) == []
  {
  }

  lemma PlaceFieldsMessages()
    ensures PathMessages(PlaceFields) ==
      [NotFoundMessage("state_name"), NotFoundMessage("place"), NotFoundMessage("longitude"), NotFoundMessage("latitude")]
  {
  }
}
