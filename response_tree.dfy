/**
 * The decoded response of a web service: a nested tree of objects, arrays and
 * scalars, and the resolution of dot-delimited paths into it. A path that
 * cannot be followed yields None, never a failure of its own.
 */
module ResponseTree {
  import opened Wrappers

  datatype Json =
    | Obj(members: map<string, Json>)
    | Arr(items: seq<Json>)
    | Str(text: string)
    | Num(number: int)
    | Bool(truth: bool)
    | Null

  const Dot: char := '.'

  /** Splits a path at every dot: "places.0.state" has the segments "places", "0", "state". */
  function Split(path: string): (segments: seq<string>)
    ensures |segments| >= 1
    ensures forall i :: 0 <= i < |segments| ==> Dot !in segments[i]
  {
    if path == [] then [[]]
    else if path[0] == Dot then [[]] + Split(path[1..])
    else
      var rest := Split(path[1..]);
      [[path[0]] + rest[0]] + rest[1..]
  }

  /** Joins segments with dots; Split undoes it. */
  function Join(segments: seq<string>): string
    requires |segments| >= 1
  {
    if |segments| == 1 then segments[0] else segments[0] + [Dot] + Join(segments[1..])
  }

  predicate IsDigit(c: char) { '0' <= c <= '9' }

  /** A numeric segment: decimal digits, without a leading zero unless it is `0` itself. */
  predicate IsIndex(segment: string) {
    && |segment| > 0
    && (forall i :: 0 <= i < |segment| ==> IsDigit(segment[i]))
    && (|segment| == 1 || segment[0] != '0')
  }

  /** The decimal value of a digit string. */
  function IndexValue(segment: string): nat {
    if segment == [] then 0
    else
      var last := segment[|segment| - 1];
      IndexValue(segment[..|segment| - 1]) * 10 + (if IsDigit(last) then (last - '0') as nat else 0)
  }

  /** One step of descent: an object member by name, or an array element by numeric index. */
  function Child(node: Json, segment: string): (r: Option<Json>)
    ensures node.Obj? ==> (r.Some? <==> segment in node.members)
    ensures node.Arr? ==> (r.Some? <==> IsIndex(segment) && IndexValue(segment) < |node.items|)
    ensures !node.Obj? && !node.Arr? ==> r.None?
    ensures node.Obj? && r.Some? ==> r.value == node.members[segment]
    ensures node.Arr? && r.Some? ==> r.value == node.items[IndexValue(segment)]
  {
    match node
    case Obj(members) => if segment in members then Some(members[segment]) else None
    case Arr(items) =>
      if IsIndex(segment) && IndexValue(segment) < |items| then Some(items[IndexValue(segment)]) else None
    case _ => None
  }

  /** Follows the segments one at a time from `node`. */
  function Resolve(node: Json, segments: seq<string>): (r: Option<Json>)
    ensures segments == [] ==> r == Some(node)
    ensures |segments| == 1 ==> r == Child(node, segments[0])
    ensures segments != [] && Child(node, segments[0]).None? ==> r.None?
    decreases |segments|
  {
    if segments == [] then Some(node)
    else
      match Child(node, segments[0])
      case None => None
      case Some(next) => Resolve(next, segments[1..])
  }

  /** Splitting at the dots gives back the segments that were joined, so a dotted path names exactly one segment list. */
  lemma {:induction false} SplitJoin(segments: seq<string>)
    requires |segments| >= 1
    requires forall i :: 0 <= i < |segments| ==> Dot !in segments[i]
    ensures Split(Join(segments)) == segments
    decreases |segments|, |segments[0]|
  {
    var s0 := segments[0];
    if s0 == [] {
      if |segments| > 1 {
        assert Join(segments) == [Dot] + Join(segments[1..]);
        assert Join(segments)[1..] == Join(segments[1..]);
        SplitJoin(segments[1..]);
        assert segments == [[]] + segments[1..];
      }
    } else {
      var tail := [s0[1..]] + segments[1..];
      assert Dot !in s0[1..] by { assert forall c :: c in s0[1..] ==> c in s0; }
      assert forall i :: 0 <= i < |tail| ==> Dot !in tail[i] by {
        forall i | 0 < i < |tail| ensures Dot !in tail[i] { assert tail[i] == segments[i]; }
      }
      SplitJoin(tail);
      if |segments| == 1 {
        assert Join(segments)[1..] == Join(tail);
      } else {
        assert Join(segments)[1..] == Join(tail) by {
          assert Join(tail) == s0[1..] + [Dot] + Join(segments[1..]);
        }
      }
      assert Join(segments)[0] == s0[0];
      assert [s0[0]] + tail[0] == s0;
      assert tail[1..] == segments[1..];
      assert segments == [s0] + segments[1..];
    }
  }

  /** Resolves a dotted path. */
  function ResolvePath(root: Json, path: string): (r: Option<Json>)
    ensures r.Some? ==> Child(root, Split(path)[0]).Some?
  {
    Resolve(root, Split(path))
  }

  /** A path without dots reads one member of the top-level object. */
  lemma ResolveSingleSegment(root: Json, key: string)
    requires Dot !in key
    ensures ResolvePath(root, key) == Child(root, key)
  {
    SplitJoin([key]);
    assert Split(key) == [key];
    assert [key][1..] == [];
    match Child(root, key)
    case None =>
    case Some(next) => assert Resolve(next, []) == Some(next);
  }

  /** Resolution is segment by segment: following a longer path is following its prefix, then the rest. */
  lemma {:induction false} ResolveAppend(node: Json, p: seq<string>, q: seq<string>)
    ensures Resolve(node, p + q) ==
      match Resolve(node, p)
      case None => None
      case Some(mid) => Resolve(mid, q)
    decreases |p|
  {
    if p != [] {
      assert (p + q)[0] == p[0] && (p + q)[1..] == p[1..] + q;
      match Child(node, p[0])
      case None =>
      case Some(next) => ResolveAppend(next, p[1..], q);
    } else {
      assert p + q == q;
    }
  }

  /** Once a segment is missing, every longer path through it is missing too. */
  lemma MissingPrefixMissing(node: Json, p: seq<string>, q: seq<string>)
    requires Resolve(node, p).None?
    ensures Resolve(node, p + q).None?
  {
    ResolveAppend(node, p, q);
  }
}
