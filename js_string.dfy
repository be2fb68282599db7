/** The two JavaScript string operations the navigation logic relies on:
    `String.prototype.toLowerCase`, restricted to ASCII letters, and
    `String.prototype.includes`. */
module JsString {

  predicate IsUpper(c: char) {
    'A' <= c <= 'Z'
  }

  /** Lower-cases one character: ASCII capitals map to their small letter,
      everything else is left alone. */
  function LowerChar(c: char): (r: char)
    ensures !IsUpper(r)
    ensures !IsUpper(c) ==> r == c
    ensures IsUpper(c) ==> r as int - c as int == 'a' as int - 'A' as int
  {
    if IsUpper(c) then (c as int + ('a' as int - 'A' as int)) as char else c
  }

  /** `s.toLowerCase()` over the ASCII map: a character-by-character map. */
  function Lower(s: string): (r: string)
    ensures |r| == |s|
    ensures forall i :: 0 <= i < |s| ==> r[i] == LowerChar(s[i])
  {
    if s == [] then [] else [LowerChar(s[0])] + Lower(s[1..])
  }

  predicate IsLowerCase(s: string) {
    forall i :: 0 <= i < |s| ==> !IsUpper(s[i])
  }

  /** Lower-casing leaves a string with no capital letter, and it leaves a
      string that has none unchanged. */
  lemma {:induction false} LowerFixesLowerCase(s: string)
    ensures IsLowerCase(Lower(s))
    ensures IsLowerCase(s) ==> Lower(s) == s
  {
    if s != [] {
      LowerFixesLowerCase(s[1..]);
      assert IsLowerCase(s) ==> IsLowerCase(s[1..]);
    }
  }

  /** Lower-casing twice is lower-casing once. */
  lemma LowerIdempotent(s: string)
    ensures Lower(Lower(s)) == Lower(s)
  {
    LowerFixesLowerCase(s);
    LowerFixesLowerCase(Lower(s));
  }

  predicate StartsWith(s: string, prefix: string) {
    |prefix| <= |s| && s[..|prefix|] == prefix
  }

  predicate EndsWith(s: string, suffix: string) {
    |suffix| <= |s| && s[|s| - |suffix|..] == suffix
  }

  /** Associativity of concatenation and its unit, as lemmas a proof calls
      on the exact terms whose regrouping it needs, instead of leaving the
      solver to find the regrouping among many concatenations. */
  lemma AppendAssoc(a: string, b: string, c: string)
    ensures a + (b + c) == (a + b) + c
  {
  }

  lemma AppendEmpty(a: string)
    ensures a + "" == a && "" + a == a
  {
  }

  lemma StartsWithConcat(a: string, b: string)
    ensures StartsWith(a + b, a)
  {
    assert (a + b)[..|a|] == a;
  }

  /** Appending to a string keeps its prefixes. */
  lemma StartsWithAppend(s: string, t: string, prefix: string)
    requires StartsWith(s, prefix)
    ensures StartsWith(s + t, prefix)
  {
    assert (s + t)[..|prefix|] == s[..|prefix|];
  }

  /** A prefix of a prefix is a prefix. */
  lemma StartsWithShorter(s: string, prefix: string, more: string)
    requires StartsWith(s, prefix + more)
    ensures StartsWith(s, prefix)
  {
    assert s[..|prefix|] == (prefix + more)[..|prefix|];
  }

  lemma EndsWithConcat(a: string, b: string)
    ensures EndsWith(a + b, b)
  {
    assert (a + b)[|a|..] == b;
  }

  /** `s.includes(needle)`: tries every start position from left to right. */
  predicate Includes(s: string, needle: string)
    ensures needle == [] ==> Includes(s, needle)
    decreases |s|
  {
    StartsWith(s, needle) || (s != [] && Includes(s[1..], needle))
  }

  lemma StartsWithIncludes(s: string, prefix: string)
    requires StartsWith(s, prefix)
    ensures Includes(s, prefix)
  {
  }

  lemma IncludesSelf(s: string)
    ensures Includes(s, s)
  {
    assert StartsWith(s, s);
  }

  /** `needle` sits in `s` starting at index `i`. */
  ghost predicate OccursAt(s: string, needle: string, i: int) {
    0 <= i && i + |needle| <= |s| && s[i..i + |needle|] == needle
  }

  /** Every needle the scan finds occurs at some index. */
  lemma {:induction false} IncludesOccurs(s: string, needle: string)
    requires Includes(s, needle)
    ensures exists i :: OccursAt(s, needle, i)
    decreases |s|
  {
    if StartsWith(s, needle) {
      assert OccursAt(s, needle, 0);
    } else {
      IncludesOccurs(s[1..], needle);
      var j :| OccursAt(s[1..], needle, j);
      assert s[j + 1..j + 1 + |needle|] == s[1..][j..j + |needle|];
      assert OccursAt(s, needle, j + 1);
    }
  }

  /** The scan finds every needle that occurs at some index. */
  lemma {:induction false} OccursIncluded(s: string, needle: string, i: int)
    requires OccursAt(s, needle, i)
    ensures Includes(s, needle)
    decreases i
  {
    if i > 0 {
      assert s[1..][i - 1..i - 1 + |needle|] == s[i..i + |needle|];
      OccursIncluded(s[1..], needle, i - 1);
    }
  }

  /** The scan finds the needle exactly when it occurs at some index. */
  lemma IncludesIffOccurs(s: string, needle: string)
    ensures Includes(s, needle) <==> exists i :: OccursAt(s, needle, i)
  {
    if Includes(s, needle) {
      IncludesOccurs(s, needle);
    }
    forall i | OccursAt(s, needle, i) ensures Includes(s, needle) {
      OccursIncluded(s, needle, i);
    }
  }

  /** A string includes whatever sits between a prefix and a suffix of it. */
  lemma IncludesMiddle(a: string, b: string, c: string)
    ensures Includes(a + b + c, b)
  {
    var s := a + b + c;
    assert s[|a|..|a| + |b|] == b;
    assert OccursAt(s, b, |a|);
    IncludesIffOccurs(s, b);
  }

  /** Appending to a string, on either side, keeps what it includes. */
  lemma IncludesExtend(s: string, needle: string, before: string, after: string)
    requires Includes(s, needle)
    ensures Includes(before + s, needle) && Includes(s + after, needle)
  {
    IncludesOccurs(s, needle);
    var i :| OccursAt(s, needle, i);
    assert (before + s)[|before| + i..|before| + i + |needle|] == s[i..i + |needle|];
    OccursIncluded(before + s, needle, |before| + i);
    assert (s + after)[i..i + |needle|] == s[i..i + |needle|];
    OccursIncluded(s + after, needle, i);
  }

  /** `includes` is transitive: a string that includes `mid` includes all
      that `mid` includes. */
  lemma IncludesTransitive(s: string, mid: string, needle: string)
    requires Includes(s, mid) && Includes(mid, needle)
    ensures Includes(s, needle)
  {
    IncludesIffOccurs(s, mid);
    IncludesIffOccurs(mid, needle);
    var i :| OccursAt(s, mid, i);
    var j :| OccursAt(mid, needle, j);
    forall k | 0 <= k < |needle|
      ensures s[i + j..i + j + |needle|][k] == needle[k]
    {
      assert needle[k] == mid[j + k] == s[i + j + k];
    }
    assert OccursAt(s, needle, i + j);
    OccursIncluded(s, needle, i + j);
  }

  /** Every character of an included needle is a character of the string;
      so a needle holding a character the string lacks is not included. */
  lemma IncludesKeepsChars(s: string, needle: string, c: char)
    ensures Includes(s, needle) && c in needle ==> c in s
  {
    if Includes(s, needle) && c in needle {
      IncludesOccurs(s, needle);
      var i :| OccursAt(s, needle, i);
      var k :| 0 <= k < |needle| && needle[k] == c;
      assert s[i + k] == s[i..i + |needle|][k];
    }
  }
}
