/**
 * formatZip: a mask is a tiny program. Each `9` in it takes the next character
 * of the zip (letters as well as digits); every other mask character is
 * copied literally. Output stops at the first `9` that finds the zip used up,
 * and zip characters beyond the mask's placeholders are dropped.
 */
module ZipFormatter {
  import opened ZipNormalizer

  const Placeholder: char := '9'

  /** Number of placeholders in a mask. */
  function Nines(mask: string): nat {
    if mask == [] then 0
    else (if mask[0] == Placeholder then 1 else 0) + Nines(mask[1..])
  }

  function Min(a: nat, b: nat): nat { if a <= b then a else b }

  /** The formatted zip, written as the mask interpreter's meaning. */
  function Formatted(zip: string, mask: string): (r: string)
    ensures |r| <= |mask|
  {
    if mask == [] then []
    else if mask[0] == Placeholder then
      if zip == [] then [] else [zip[0]] + Formatted(zip[1..], mask[1..])
    else [mask[0]] + Formatted(zip, mask[1..])
  }

  /** formatZip, as a walk over the mask with a read position in the zip. */
  method FormatZip(zip: string, mask: string) returns (out: string)
    ensures out == Formatted(zip, mask)
  {
    out := [];
    var i, j := 0, 0;
    while j < |mask|
      invariant 0 <= i <= |zip| && 0 <= j <= |mask|
      invariant out + Formatted(zip[i..], mask[j..]) == Formatted(zip, mask)
    {
      if mask[j] == Placeholder {
        if i == |zip| {
          return;
        }
        assert Formatted(zip[i..], mask[j..]) == [zip[i]] + Formatted(zip[i + 1..], mask[j + 1..]) by {
          assert zip[i..][1..] == zip[i + 1..];
          assert mask[j..][1..] == mask[j + 1..];
        }
        out := out + [zip[i]];
        i := i + 1;
      } else {
        assert mask[j..][1..] == mask[j + 1..];
        out := out + [mask[j]];
      }
      j := j + 1;
    }
  }

  /** Literal mask characters that are not letters or digits (separators such as `-`, `.`, ` `, `\`). */
  predicate SeparatorsOnly(mask: string) {
    forall k :: 0 <= k < |mask| && mask[k] != Placeholder ==> !IsAlphaNum(mask[k])
  }

  /**
   * Round trip with clearZip: when the mask's literals are separators, clearing
   * the formatted zip gives back the part of the zip the placeholders consumed.
   */
  lemma {:induction false} ClearFormattedRoundTrip(zip: string, mask: string)
    requires AllAlphaNum(zip) && SeparatorsOnly(mask)
    ensures ClearZip(Formatted(zip, mask)) == zip[..Min(|zip|, Nines(mask))]
  {
    if mask == [] {
    } else if mask[0] == Placeholder {
      if zip != [] {
        assert SeparatorsOnly(mask[1..]) by {
          forall k | 0 <= k < |mask[1..]| && mask[1..][k] != Placeholder
            ensures !IsAlphaNum(mask[1..][k]) { assert mask[1..][k] == mask[k + 1]; }
        }
        assert AllAlphaNum(zip[1..]) by {
          forall k | 0 <= k < |zip[1..]| ensures IsAlphaNum(zip[1..][k]) { assert zip[1..][k] == zip[k + 1]; }
        }
        ClearFormattedRoundTrip(zip[1..], mask[1..]);
        ClearZipAppend([zip[0]], Formatted(zip[1..], mask[1..]));
        assert IsAlphaNum(zip[0]);
        assert ClearZip([zip[0]]) == [zip[0]];
        assert zip[..Min(|zip|, Nines(mask))] == [zip[0]] + zip[1..][..Min(|zip| - 1, Nines(mask[1..]))];
      }
    } else {
      assert SeparatorsOnly(mask[1..]) by {
        forall k | 0 <= k < |mask[1..]| && mask[1..][k] != Placeholder
          ensures !IsAlphaNum(mask[1..][k]) { assert mask[1..][k] == mask[k + 1]; }
      }
      ClearFormattedRoundTrip(zip, mask[1..]);
      ClearZipAppend([mask[0]], Formatted(zip, mask[1..]));
      assert ClearZip([mask[0]]) == [];
    }
  }

  /**
   * A displayed zip for the mask: one character per mask position, the mask's
   * literal where it has one and a letter or digit where it has a placeholder.
   */
  predicate DisplayOf(x: string, mask: string) {
    && |x| == |mask|
    && forall k :: 0 <= k < |mask| ==> if mask[k] == Placeholder then IsAlphaNum(x[k]) else x[k] == mask[k]
  }

  /**
   * The other round trip: with separator literals, formatting the cleared form
   * of a displayed zip gives the displayed zip back.
   */
  lemma {:induction false} FormatClearRoundTrip(x: string, mask: string)
    requires SeparatorsOnly(mask) && DisplayOf(x, mask)
    ensures Formatted(ClearZip(x), mask) == x
  {
    if mask != [] {
      assert SeparatorsOnly(mask[1..]) by {
        forall k | 0 <= k < |mask[1..]| && mask[1..][k] != Placeholder
          ensures !IsAlphaNum(mask[1..][k]) { assert mask[1..][k] == mask[k + 1]; }
      }
      assert DisplayOf(x[1..], mask[1..]) by {
        forall k | 0 <= k < |mask[1..]|
          ensures if mask[1..][k] == Placeholder then IsAlphaNum(x[1..][k]) else x[1..][k] == mask[1..][k]
        {
          assert mask[1..][k] == mask[k + 1] && x[1..][k] == x[k + 1];
        }
      }
      FormatClearRoundTrip(x[1..], mask[1..]);
      if mask[0] == Placeholder {
        assert ClearZip(x) == [x[0]] + ClearZip(x[1..]);
      } else {
        assert !IsAlphaNum(x[0]);
        assert ClearZip(x) == ClearZip(x[1..]);
      }
      assert x == [x[0]] + x[1..];
    }
  }

  /**
   * With enough zip characters the output has the mask's shape: one character
   * per mask position, with the literals copied where the mask has them.
   */
  lemma {:induction false} FormattedShape(zip: string, mask: string)
    requires Nines(mask) <= |zip|
    ensures |Formatted(zip, mask)| == |mask|
    ensures forall k :: 0 <= k < |mask| && mask[k] != Placeholder ==> Formatted(zip, mask)[k] == mask[k]
  {
    if mask != [] {
      var r := Formatted(zip, mask);
      if mask[0] == Placeholder {
        FormattedShape(zip[1..], mask[1..]);
        assert forall k :: 0 < k < |mask| ==> r[k] == Formatted(zip[1..], mask[1..])[k - 1] && mask[k] == mask[1..][k - 1];
      } else {
        FormattedShape(zip, mask[1..]);
        assert forall k :: 0 < k < |mask| ==> r[k] == Formatted(zip, mask[1..])[k - 1] && mask[k] == mask[1..][k - 1];
      }
    }
  }

  /**
   * The mask is read left to right: formatting with two masks in a row is
   * formatting with the first, then formatting what is left of the zip with
   * the second.
   */
  lemma {:induction false} FormattedAppend(zip: string, m1: string, m2: string)
    requires Nines(m1) <= |zip|
    ensures Formatted(zip, m1 + m2) == Formatted(zip, m1) + Formatted(zip[Nines(m1)..], m2)
  {
    if m1 == [] {
      assert m1 + m2 == m2;
    } else {
      assert (m1 + m2)[0] == m1[0] && (m1 + m2)[1..] == m1[1..] + m2;
      if m1[0] == Placeholder {
        FormattedAppend(zip[1..], m1[1..], m2);
        assert zip[1..][Nines(m1[1..])..] == zip[Nines(m1)..];
      } else {
        FormattedAppend(zip, m1[1..], m2);
      }
    }
  }

  /** A mask made only of placeholders formats a zip as its first |mask| characters. */
  lemma {:induction false} AllNinesKeepsZip(zip: string, mask: string)
    requires forall k :: 0 <= k < |mask| ==> mask[k] == Placeholder
    ensures Formatted(zip, mask) == zip[..Min(|zip|, |mask|)]
  {
    if mask != [] && zip != [] {
      AllNinesKeepsZip(zip[1..], mask[1..]);
      assert zip[..Min(|zip|, |mask|)] == [zip[0]] + zip[1..][..Min(|zip| - 1, |mask| - 1)];
    }
  }
}
