/**
 * The field mapper: reads a service's declared output fields out of a decoded
 * response, collecting one error message per declared path that cannot be
 * followed, in declaration order, and judges the result empty when a mandatory
 * field is missing.
 */
module FieldMapper {
  import opened Wrappers
  import opened ResponseTree
  import opened Config

  /** The message recorded for a declared field whose path is not found. */
  function NotFoundMessage(output: string): string {
    "Result field '" + output + "' was not found."
  }

  lemma NotFoundMessageInjective(a: string, b: string)
    requires NotFoundMessage(a) == NotFoundMessage(b)
    ensures a == b
  {
    var prefix := "Result field '";
    var m := NotFoundMessage(a);
    assert |a| == |b|;
    assert a == m[|prefix|..|prefix| + |a|];
    assert b == NotFoundMessage(b)[|prefix|..|prefix| + |b|];
  }

  /** The extracted fields and the errors of one mapping pass. */
  datatype Extraction = Extraction(fields: map<string, Json>, errors: seq<string>)

  /**
   * The record paths are resolved against: the response itself, or, with
   * `iterate_on`, the first element of the array found at that path (None when
   * there is no such element).
   */
  function RecordRoot(raw: Json, iterateOn: Option<string>): (r: Option<Json>)
    ensures iterateOn.None? ==> r == Some(raw)
    ensures iterateOn.Some? && r.Some? ==>
      var found := ResolvePath(raw, iterateOn.value);
      found.Some? && found.value.Arr? && |found.value.items| > 0 && r.value == found.value.items[0]
    ensures iterateOn.Some? && r.None? ==>
      var found := ResolvePath(raw, iterateOn.value);
      !(found.Some? && found.value.Arr? && |found.value.items| > 0)
  {
    match iterateOn
    case None => Some(raw)
    case Some(path) =>
      match ResolvePath(raw, path)
      case Some(Arr(items)) => if |items| > 0 then Some(items[0]) else None
      case _ => None
  }

  /** The value a declared path reads from the record, if it can be followed. */
  function Lookup(root: Option<Json>, path: string): Option<Json> {
    match root
    case None => None
    case Some(record) => ResolvePath(record, path)
  }

  /** A mapping that has a path and whose path is not found. */
  predicate Fails(root: Option<Json>, m: FieldMapping) {
    m.path.Some? && Lookup(root, m.path.value).None?
  }

  /** One pass over the declared fields, in declaration order. */
  function MapFields(root: Option<Json>, fields: seq<FieldMapping>): (r: Extraction)
    ensures |r.errors| <= |fields|
  {
    if fields == [] then Extraction(map[], [])
    else
      var rest := MapFields(root, fields[1..]);
      var m := fields[0];
      match m.path
      case None => rest
      case Some(path) =>
        match Lookup(root, path)
        case None => Extraction(rest.fields, [NotFoundMessage(m.output)] + rest.errors)
        case Some(v) => Extraction(rest.fields[m.output := v], rest.errors)
  }

  /**
   * Errors come out in declaration order: the errors of a list of mappings
   * are those of its first part followed by those of the rest, and each
   * mapping contributes one message exactly when its path is not found.
   */
  lemma {:induction false} MapFieldsErrorsInOrder(root: Option<Json>, a: seq<FieldMapping>, b: seq<FieldMapping>)
    ensures MapFields(root, a + b).errors == MapFields(root, a).errors + MapFields(root, b).errors
  {
    if a == [] {
      assert a + b == b;
    } else {
      assert (a + b)[0] == a[0] && (a + b)[1..] == a[1..] + b;
      MapFieldsErrorsInOrder(root, a[1..], b);
    }
  }

  lemma MapFieldsSingleError(root: Option<Json>, m: FieldMapping)
    ensures MapFields(root, [m]).errors == if Fails(root, m) then [NotFoundMessage(m.output)] else []
  {
    assert [m][1..] == [];
  }

  /**
   * What is extracted: a declared output is in the result exactly when it has
   * a path that is found, and then it holds the value found there; nothing
   * undeclared appears.
   */
  lemma {:induction false} MapFieldsExtracts(root: Option<Json>, fields: seq<FieldMapping>, i: nat)
    requires DistinctOutputs(fields) && i < |fields|
    ensures fields[i].output in MapFields(root, fields).fields <==>
      fields[i].path.Some? && Lookup(root, fields[i].path.value).Some?
    ensures fields[i].output in MapFields(root, fields).fields ==>
      MapFields(root, fields).fields[fields[i].output] == Lookup(root, fields[i].path.value).value
  {
    var rest := fields[1..];
    assert DistinctOutputs(rest) by {
      forall p, q | 0 <= p < q < |rest| ensures rest[p].output != rest[q].output {
        assert rest[p] == fields[p + 1] && rest[q] == fields[q + 1];
      }
    }
    if i == 0 {
      assert forall j :: 0 <= j < |rest| ==> rest[j] == fields[j + 1];
      UndeclaredNotExtracted(root, rest, fields[0].output);
    } else {
      MapFieldsExtracts(root, rest, i - 1);
      assert rest[i - 1] == fields[i];
      assert fields[0].output != fields[i].output;
    }
  }

  /** With no record to read, nothing is extracted. */
  lemma {:induction false} NothingExtractedWithoutRecord(fields: seq<FieldMapping>)
    ensures MapFields(None, fields).fields == map[]
  {
    if fields != [] {
      NothingExtractedWithoutRecord(fields[1..]);
    }
  }

  /** The not-found messages of the mappings that have a path, in declaration order. */
  function PathMessages(fields: seq<FieldMapping>): seq<string> {
    if fields == [] then []
    else (if fields[0].path.Some? then [NotFoundMessage(fields[0].output)] else []) + PathMessages(fields[1..])
  }

  /** With no record to read, every mapping that has a path fails, in declaration order. */
  lemma {:induction false} ErrorsWithoutRecord(fields: seq<FieldMapping>)
    ensures MapFields(None, fields).errors == PathMessages(fields)
  {
    if fields != [] {
      ErrorsWithoutRecord(fields[1..]);
    }
  }

  /** The messages of two lists of mappings in a row are those of the first, then those of the second. */
  lemma {:induction false} PathMessagesAppend(a: seq<FieldMapping>, b: seq<FieldMapping>)
    ensures PathMessages(a + b) == PathMessages(a) + PathMessages(b)
  {
    if a == [] {
      assert a + b == b;
    } else {
      assert (a + b)[0] == a[0] && (a + b)[1..] == a[1..] + b;
      PathMessagesAppend(a[1..], b);
    }
  }

  /** Nothing undeclared is extracted. */
  lemma {:induction false} UndeclaredNotExtracted(root: Option<Json>, fields: seq<FieldMapping>, k: string)
    requires forall j :: 0 <= j < |fields| ==> fields[j].output != k
    ensures k !in MapFields(root, fields).fields
  {
    if fields != [] {
      assert forall j :: 0 <= j < |fields[1..]| ==> fields[1..][j] == fields[j + 1];
      UndeclaredNotExtracted(root, fields[1..], k);
    }
  }

  /** An error names a declared output whose path is not found, and every such output has its error. */
  lemma {:induction false} MapFieldsErrorIff(root: Option<Json>, fields: seq<FieldMapping>, name: string)
    ensures NotFoundMessage(name) in MapFields(root, fields).errors <==>
      exists j :: 0 <= j < |fields| && fields[j].output == name && Fails(root, fields[j])
  {
    if fields != [] {
      var rest := fields[1..];
      MapFieldsErrorIff(root, rest, name);
      var r := MapFields(root, fields);
      if NotFoundMessage(name) in r.errors {
        if Fails(root, fields[0]) && NotFoundMessage(name) == NotFoundMessage(fields[0].output) {
          NotFoundMessageInjective(name, fields[0].output);
        } else {
          var j :| 0 <= j < |rest| && rest[j].output == name && Fails(root, rest[j]);
          assert fields[j + 1] == rest[j];
        }
      }
      if exists j :: 0 <= j < |fields| && fields[j].output == name && Fails(root, fields[j]) {
        var j :| 0 <= j < |fields| && fields[j].output == name && Fails(root, fields[j]);
        if j > 0 {
          assert rest[j - 1] == fields[j];
        }
      }
    }
  }

  /**
   * The uniform result of one lookup: extracted fields, the extraction errors,
   * the mandatory outputs of the service asked, and that service's name (None
   * when no service was asked).
   */
  datatype ServiceResult = ServiceResult(
    fields: map<string, Json>,
    errors: seq<string>,
    mandatoryFields: seq<string>,
    source: Option<string>)
  {
    /** isEmpty(): no service answered, or some mandatory field was not extracted. */
    predicate IsEmpty() {
      source.None? || exists m :: m in mandatoryFields && m !in fields
    }
  }

  /** The result before any lookup, and of a lookup with no service to ask. */
  const NoResult: ServiceResult := ServiceResult(map[], [], [], None)

  /** Maps a decoded response through a service's declarations. */
  function Extract(raw: Json, service: WebService): (r: ServiceResult)
    ensures r.source == Some(service.name) && r.mandatoryFields == service.mandatoryFields
  {
    var e := MapFields(RecordRoot(raw, service.iterateOn), service.fields);
    ServiceResult(e.fields, e.errors, service.mandatoryFields, Some(service.name))
  }

  /** Extract, field by field: a declared output holds the value its path reads in the record, if any. */
  lemma ExtractField(raw: Json, service: WebService, i: nat)
    requires DistinctOutputs(service.fields) && i < |service.fields|
    ensures service.fields[i].output in Extract(raw, service).fields <==>
      service.fields[i].path.Some? && Lookup(RecordRoot(raw, service.iterateOn), service.fields[i].path.value).Some?
    ensures service.fields[i].output in Extract(raw, service).fields ==>
      Extract(raw, service).fields[service.fields[i].output] ==
      Lookup(RecordRoot(raw, service.iterateOn), service.fields[i].path.value).value
    ensures NotFoundMessage(service.fields[i].output) in Extract(raw, service).errors <==>
      Fails(RecordRoot(raw, service.iterateOn), service.fields[i])
  {
    var root := RecordRoot(raw, service.iterateOn);
    MapFieldsExtracts(root, service.fields, i);
    MapFieldsErrorIff(root, service.fields, service.fields[i].output);
  }

  /**
   * For a service whose outputs are distinct and whose mandatory fields all
   * have paths, the result is empty exactly when a mandatory field's
   * not-found error was recorded.
   */
  lemma EmptyIffMandatoryError(raw: Json, service: WebService)
    requires DistinctOutputs(service.fields) && MandatoryMapped(service)
    ensures Extract(raw, service).IsEmpty() <==>
      exists m :: m in service.mandatoryFields && NotFoundMessage(m) in Extract(raw, service).errors
  {
    var root := RecordRoot(raw, service.iterateOn);
    var r := Extract(raw, service);
    forall m | m in service.mandatoryFields
      ensures m !in r.fields <==> NotFoundMessage(m) in r.errors
    {
      var i :| 0 <= i < |service.fields| && service.fields[i].output == m && service.fields[i].path.Some?;
      MapFieldsExtracts(root, service.fields, i);
      MapFieldsErrorIff(root, service.fields, m);
      if NotFoundMessage(m) in r.errors {
        var j :| 0 <= j < |service.fields| && service.fields[j].output == m && Fails(root, service.fields[j]);
        assert i == j;
      }
    }
  }
}
