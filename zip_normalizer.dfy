/**
 * Zip normalisation: `clearZip` keeps the letters and digits of a user-supplied
 * zip, in order, and `validateZip` accepts the cleared zip exactly when its
 * length is the active country's `zip_length`.
 */
module ZipNormalizer {
  import opened Wrappers

  /** The characters a cleared zip may contain: ASCII letters and digits. */
  predicate IsAlphaNum(c: char) {
    ('0' <= c <= '9') || ('a' <= c <= 'z') || ('A' <= c <= 'Z')
  }

  predicate AllAlphaNum(s: string) {
    forall i :: 0 <= i < |s| ==> IsAlphaNum(s[i])
  }

  /** clearZip: drops every character that is not a letter or a digit. */
  function ClearZip(s: string): (r: string)
    ensures |r| <= |s|
  {
    if s == [] then []
    else if IsAlphaNum(s[0]) then [s[0]] + ClearZip(s[1..])
    else ClearZip(s[1..])
  }

  /** The cleared zip holds only letters and digits. */
  lemma {:induction false} ClearZipAlphaNum(s: string)
    ensures AllAlphaNum(ClearZip(s))
  {
    if s != [] {
      ClearZipAlphaNum(s[1..]);
    }
  }

  /** validateZip: the cleared zip, or InvalidZipCode when its length is not `zipLength`. */
  function ValidateZip(s: string, zipLength: nat): (r: Result<string>)
    ensures r.Ok? <==> |ClearZip(s)| == zipLength
    ensures r.Ok? ==> r.value == ClearZip(s)
    ensures r.Ok? ==> AllAlphaNum(r.value) && |r.value| == zipLength
    ensures r.Err? ==> r.error == InvalidZipCode
  {
    ClearZipAlphaNum(s);
    var z := ClearZip(s);
    if |z| == zipLength then Ok(z) else Err(InvalidZipCode)
  }

  /** Clearing works character by character: it distributes over concatenation, so order is kept. */
  lemma {:induction false} ClearZipAppend(a: string, b: string)
    ensures ClearZip(a + b) == ClearZip(a) + ClearZip(b)
  {
    if a == [] {
      assert a + b == b;
    } else {
      assert (a + b)[1..] == a[1..] + b;
      ClearZipAppend(a[1..], b);
    }
  }

  /** A string is left unchanged by clearing exactly when it holds only letters and digits. */
  lemma {:induction false} ClearZipFixedPoint(s: string)
    ensures ClearZip(s) == s <==> AllAlphaNum(s)
  {
    if s != [] {
      ClearZipFixedPoint(s[1..]);
      if !IsAlphaNum(s[0]) {
        assert |ClearZip(s)| < |s| by {
          ClearZipAlphaNum(s[1..]);
          assert ClearZip(s) == ClearZip(s[1..]);
        }
      } else {
        assert AllAlphaNum(s) <==> AllAlphaNum(s[1..]) by {
          if AllAlphaNum(s[1..]) {
            forall i | 0 <= i < |s| ensures IsAlphaNum(s[i]) {
              if i > 0 { assert s[i] == s[1..][i - 1]; }
            }
          }
          if AllAlphaNum(s) {
            forall i | 0 <= i < |s| - 1 ensures IsAlphaNum(s[1..][i]) {
              assert s[1..][i] == s[i + 1];
            }
          }
        }
      }
    }
  }

  lemma ClearZipIdempotent(s: string)
    ensures ClearZip(ClearZip(s)) == ClearZip(s)
  {
    ClearZipFixedPoint(ClearZip(s));
  }

  /** Only non-alphanumeric characters are removed: every letter and digit survives, as often as it occurs. */
  lemma {:induction false} ClearZipKeepsAlphaNum(s: string, c: char)
    ensures multiset(ClearZip(s))[c] == if IsAlphaNum(c) then multiset(s)[c] else 0
  {
    if s != [] {
      ClearZipKeepsAlphaNum(s[1..], c);
      assert s == [s[0]] + s[1..];
      assert multiset(s) == multiset([s[0]]) + multiset(s[1..]);
    }
  }

  /** validateZip accepts its own output unchanged (idempotence on clean input). */
  lemma ValidateZipIdempotent(s: string, zipLength: nat)
    requires ValidateZip(s, zipLength).Ok?
    ensures ValidateZip(ValidateZip(s, zipLength).value, zipLength) == ValidateZip(s, zipLength)
  {
    ClearZipIdempotent(s);
  }
}
