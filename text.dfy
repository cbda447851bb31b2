/**
 * String primitives the keyword router relies on: the lower-casing that
 * `String.prototype.toLowerCase` performs on the characters the router's
 * queries and keywords use, and the substring test of
 * `String.prototype.includes`.
 */
module Text {

  /** Upper-case letters the model lowers: ASCII, Latin-1 and Cyrillic. */
  predicate IsUpper(c: char)
  {
    ('A' <= c <= 'Z')
    || ('\U{00C0}' <= c <= '\U{00DE}' && c != '\U{00D7}')
    || ('\U{0400}' <= c <= '\U{042F}')
  }

  /**
   * Lower-case mapping of one character: ASCII and Latin-1 capitals move by
   * 0x20, the Cyrillic capitals А..Я by 0x20 and Ѐ..Џ by 0x50; every other
   * character is left as it is.
   */
  function LowerChar(c: char): (r: char)
    ensures !IsUpper(r)
    ensures !IsUpper(c) ==> r == c
  {
    if 'A' <= c <= 'Z' then (c as int + 0x20) as char
    else if '\U{00C0}' <= c <= '\U{00DE}' && c != '\U{00D7}' then (c as int + 0x20) as char
    else if '\U{0410}' <= c <= '\U{042F}' then (c as int + 0x20) as char
    else if '\U{0400}' <= c <= '\U{040F}' then (c as int + 0x50) as char
    else c
  }

  /** `s.toLowerCase()`, character by character. */
  function Lower(s: string): (r: string)
    ensures |r| == |s|
    ensures forall i :: 0 <= i < |s| ==> r[i] == LowerChar(s[i])
  {
    if s == [] then [] else [LowerChar(s[0])] + Lower(s[1..])
  }

  /** Lower-casing is fixed by what it does to each character. */
  lemma LowerIs(s: string, t: string)
    requires |s| == |t|
    requires forall i :: 0 <= i < |s| ==> LowerChar(s[i]) == t[i]
    ensures Lower(s) == t
  {
  }

  /** A string with no capital letter in it. */
  predicate IsLowerCase(s: string)
  {
    forall i :: 0 <= i < |s| ==> !IsUpper(s[i])
  }

  /** Lower-casing leaves a string without capitals unchanged. */
  lemma LowerOfLowerCase(s: string)
    requires IsLowerCase(s)
    ensures Lower(s) == s
  {
  }

  /** Lower-casing twice is lower-casing once. */
  lemma LowerIdempotent(s: string)
    ensures Lower(Lower(s)) == Lower(s)
  {
  }

  /** Lower-casing distributes over concatenation. */
  lemma LowerAppend(a: string, b: string)
    ensures Lower(a + b) == Lower(a) + Lower(b)
  {
  }

  /** `w` occurs in `s` starting at index `i`. */
  ghost predicate OccursAt(s: string, w: string, i: nat)
  {
    i + |w| <= |s| && s[i..i + |w|] == w
  }

  /** `s.includes(w)`: try every start position from the left. */
  function Includes(s: string, w: string): bool
    decreases |s|
  {
    if |s| < |w| then false
    else s[..|w|] == w || Includes(s[1..], w)
  }

  /** `Includes` holds exactly when the word occurs at some position. */
  lemma {:induction false} IncludesIff(s: string, w: string)
    ensures Includes(s, w) <==> exists i: nat :: OccursAt(s, w, i)
    decreases |s|
  {
    if |s| < |w| {
      assert forall i: nat :: !OccursAt(s, w, i);
    } else if s[..|w|] == w {
      assert OccursAt(s, w, 0);
    } else {
      IncludesIff(s[1..], w);
      if Includes(s[1..], w) {
        var i: nat :| OccursAt(s[1..], w, i);
        assert s[1..][i..i + |w|] == s[i + 1..i + 1 + |w|];
        assert OccursAt(s, w, i + 1);
      }
      if exists i: nat :: OccursAt(s, w, i) {
        var i: nat :| OccursAt(s, w, i);
        assert i != 0;
        assert s[1..][i - 1..i - 1 + |w|] == s[i..i + |w|];
        assert OccursAt(s[1..], w, i - 1);
      }
    }
  }

  /** A word is found wherever it is placed, whatever surrounds it. */
  lemma {:induction false} IncludesInside(pre: string, w: string, post: string)
    ensures Includes(pre + w + post, w)
  {
    var s := pre + w + post;
    assert s[|pre|..|pre| + |w|] == w;
    assert OccursAt(s, w, |pre|);
    IncludesIff(s, w);
  }

  /** A word with a character that the string lacks is not found in it. */
  lemma {:induction false} NotIncludesMissingChar(s: string, w: string, j: nat)
    requires j < |w| && w[j] !in s
    ensures !Includes(s, w)
    decreases |s|
  {
    if |s| >= |w| {
      assert s[..|w|][j] == s[j] && s[j] in s;
      assert forall c :: c in s[1..] ==> c in s;
      NotIncludesMissingChar(s[1..], w, j);
    }
  }

  /**
   * A word of two or more letters is not found when its first letter is
   * never followed by its second.
   */
  lemma {:induction false} NotIncludesNoPair(s: string, w: string)
    requires |w| >= 2
    requires forall i :: 0 <= i < |s| - 1 && s[i] == w[0] ==> s[i + 1] != w[1]
    ensures !Includes(s, w)
    decreases |s|
  {
    if |s| >= |w| {
      assert s[..|w|][0] == s[0] && s[..|w|][1] == s[1];
      assert forall i :: 0 <= i < |s[1..]| - 1 && s[1..][i] == w[0] ==> s[1..][i + 1] != w[1] by {
        forall i | 0 <= i < |s[1..]| - 1 && s[1..][i] == w[0] ensures s[1..][i + 1] != w[1] {
          assert s[1..][i] == s[i + 1] && s[1..][i + 1] == s[i + 2];
        }
      }
      NotIncludesNoPair(s[1..], w);
    }
  }
}
