/**
 The two string primitives the preference scorer relies on: ASCII lower-casing
 (Python's `str.lower()` restricted to ASCII) and unanchored substring
 containment (Python's `needle in hay` on strings).
 */
module Text {

  /** An upper-case ASCII letter, the only characters `Lower` changes. */
  predicate IsUpper(c: char) {
    'A' <= c <= 'Z'
  }

  predicate HasNoUpper(s: string) {
    forall i :: 0 <= i < |s| ==> !IsUpper(s[i])
  }

  /** Lower-cases one character: an upper-case ASCII letter becomes the
      lower-case letter at the same position of the alphabet, anything else is
      left alone. */
  function LowerChar(c: char): (r: char)
    ensures !IsUpper(r)
    ensures IsUpper(c) ==> 'a' <= r <= 'z' && r as int - 'a' as int == c as int - 'A' as int
    ensures !IsUpper(c) ==> r == c
  {
    if IsUpper(c) then (c as int - 'A' as int + 'a' as int) as char else c
  }

  /** `s.lower()`, character by character from the left. */
  function Lower(s: string): (r: string)
    ensures |r| == |s|
    ensures forall i :: 0 <= i < |s| ==> r[i] == LowerChar(s[i])
    ensures HasNoUpper(r)
    ensures r == s <==> HasNoUpper(s)
  {
    if s == [] then [] else [LowerChar(s[0])] + Lower(s[1..])
  }

  /** Lower-casing twice is lower-casing once. */
  lemma LowerIdempotent(s: string)
    ensures Lower(Lower(s)) == Lower(s)
  {
  }

  /** Lower-casing works character by character, so it distributes over
      concatenation. */
  lemma LowerConcat(a: string, b: string)
    ensures Lower(a + b) == Lower(a) + Lower(b)
  {
  }

  predicate IsPrefix(p: string, s: string) {
    |p| <= |s| && s[..|p|] == p
  }

  /** Python's `needle in hay`: the needle starts at the front of the haystack
      or somewhere in its tail. The empty needle is in every haystack. */
  predicate Contains(needle: string, hay: string)
    ensures Contains(needle, hay) ==> |needle| <= |hay|
    ensures needle == [] ==> Contains(needle, hay)
    decreases |hay|
  {
    IsPrefix(needle, hay) || (|hay| > 0 && Contains(needle, hay[1..]))
  }

  /** Reference definition of an occurrence: the slice of `hay` that starts
      at `i` and is as long as `needle` equals `needle`. */
  ghost predicate OccursAt(needle: string, hay: string, i: int) {
    0 <= i && i + |needle| <= |hay| && hay[i..i + |needle|] == needle
  }

  /** `Contains` holds exactly when the needle occurs at some position. */
  lemma {:induction false} ContainsIffOccurs(needle: string, hay: string)
    ensures Contains(needle, hay) <==> exists i :: OccursAt(needle, hay, i)
    decreases |hay|
  {
    if IsPrefix(needle, hay) {
      assert OccursAt(needle, hay, 0);
    }
    if |hay| > 0 {
      var tail := hay[1..];
      ContainsIffOccurs(needle, tail);
      if Contains(needle, tail) {
        var i :| OccursAt(needle, tail, i);
        assert tail[i..i + |needle|] == hay[i + 1..i + 1 + |needle|];
        assert OccursAt(needle, hay, i + 1);
      }
      if exists i :: OccursAt(needle, hay, i) {
        var i :| OccursAt(needle, hay, i);
        if i == 0 {
          assert IsPrefix(needle, hay);
        } else {
          assert tail[i - 1..i - 1 + |needle|] == hay[i..i + |needle|];
          assert OccursAt(needle, tail, i - 1);
        }
      }
    } else {
      if exists i :: OccursAt(needle, hay, i) {
        var i :| OccursAt(needle, hay, i);
        assert IsPrefix(needle, hay);
      }
    }
  }

  /** The empty string is in every string, as `"" in s` is in Python. */
  lemma EmptyNeedleContained(hay: string)
    ensures Contains("", hay)
  {
  }

  /** A haystack without upper-case letters only contains needles without
      upper-case letters. */
  lemma ContainedInNoUpper(needle: string, hay: string)
    requires HasNoUpper(hay)
    requires Contains(needle, hay)
    ensures HasNoUpper(needle)
  {
    ContainsIffOccurs(needle, hay);
    var i :| OccursAt(needle, hay, i);
    forall k | 0 <= k < |needle|
      ensures !IsUpper(needle[k])
    {
      assert needle[k] == hay[i..i + |needle|][k] == hay[i + k];
    }
  }

  /** A needle with an upper-case letter is never in a lower-cased haystack. */
  lemma UpperNeedleNotInLower(needle: string, hay: string)
    requires !HasNoUpper(needle)
    ensures !Contains(needle, Lower(hay))
  {
    if Contains(needle, Lower(hay)) {
      ContainedInNoUpper(needle, Lower(hay));
    }
  }

  /** Whatever a lower-cased string contains has no upper-case letter. */
  lemma LowerOnlyContainsNoUpper(needle: string, hay: string)
    ensures Contains(needle, Lower(hay)) ==> HasNoUpper(needle)
  {
    if Contains(needle, Lower(hay)) {
      ContainedInNoUpper(needle, Lower(hay));
    }
  }

  /** The search loop behind `needle in hay`: try every start position from
      the left and report whether one of them matches. */
  method Find(needle: string, hay: string) returns (found: bool)
    ensures found <==> Contains(needle, hay)
  {
    ContainsIffOccurs(needle, hay);
    if |needle| > |hay| {
      return false;
    }
    var i := 0;
    while i <= |hay| - |needle|
      invariant 0 <= i <= |hay| - |needle| + 1
      invariant forall j :: 0 <= j < i ==> !OccursAt(needle, hay, j)
    {
      if hay[i..i + |needle|] == needle {
        assert OccursAt(needle, hay, i);
        return true;
      }
      i := i + 1;
    }
    return false;
  }
}
