/**
 * The mini-markdown formatter of `typeWriterEffect` (script.js:284-286):
 * the answer text goes through a global regular-expression replacement
 * turning "**" + text + "**" into "<strong>" + text + "</strong>" (the text
 * being matched lazily by `(.*?)`), and then through a second one turning
 * every line feed into "<br>".
 *
 * The first pattern is a global regular expression scanned from the left:
 * at each position it tries "**", then the shortest run of characters that
 * are not line terminators (`.` does not match them), then "**"; on success
 * the whole match is replaced and scanning resumes after it, otherwise one
 * character is copied and scanning resumes at the next position.
 */
module Formatter {

  datatype Option<T> = None | Some(value: T)

  /** The characters `.` does not match in a JavaScript regular expression. */
  predicate IsLineTerminator(c: char)
  {
    c == '\n' || c == '\r' || c == '\U{2028}' || c == '\U{2029}'
  }

  /** `t` has "**" starting at index `k`. */
  predicate StarsAt(t: string, k: int)
  {
    0 <= k && k + 2 <= |t| && t[k] == '*' && t[k + 1] == '*'
  }

  /** No line terminator among the first `k` characters of `t`. */
  predicate NoTerminatorBefore(t: string, k: int)
  {
    forall j :: 0 <= j < k && j < |t| ==> !IsLineTerminator(t[j])
  }

  /**
   * The lazy part `(.*?)\*\*` of the pattern, tried on the text `t` that
   * follows an opening "**": the length of the captured group, if any.
   * The closing "**" is the first one in `t`, and it must come before any
   * line terminator.
   */
  function Close(t: string): (r: Option<nat>)
    ensures r.Some? ==> StarsAt(t, r.value) && NoTerminatorBefore(t, r.value)
    decreases |t|
  {
    if |t| < 2 then None
    else if t[0] == '*' && t[1] == '*' then Some(0)
    else if IsLineTerminator(t[0]) then None
    else
      match Close(t[1..])
      case None => None
      case Some(k) => Some(k + 1)
  }

  /**
   * `Close` is exact: when it succeeds no earlier "**" exists (the match is
   * the shortest), and when it fails every "**" in `t` has a line
   * terminator before it.
   */
  lemma {:induction false} CloseExact(t: string)
    ensures Close(t).Some? ==> forall j :: 0 <= j < Close(t).value ==> !StarsAt(t, j)
    ensures Close(t).None? ==> forall k :: StarsAt(t, k) ==> !NoTerminatorBefore(t, k)
    decreases |t|
  {
    if |t| >= 2 && !(t[0] == '*' && t[1] == '*') && !IsLineTerminator(t[0]) {
      var u := t[1..];
      CloseExact(u);
      forall j | 1 <= j ensures StarsAt(t, j) == StarsAt(u, j - 1) {
        if StarsAt(t, j) {
          assert u[j - 1] == t[j] && u[j] == t[j + 1];
        }
        if StarsAt(u, j - 1) {
          assert u[j - 1] == t[j] && u[j] == t[j + 1];
        }
      }
      forall k | 1 <= k ensures NoTerminatorBefore(t, k) == NoTerminatorBefore(u, k - 1) {
        if NoTerminatorBefore(u, k - 1) {
          forall j | 0 <= j < k && j < |t| ensures !IsLineTerminator(t[j]) {
            if j > 0 {
              assert t[j] == u[j - 1];
            }
          }
        }
        if NoTerminatorBefore(t, k) {
          forall j | 0 <= j < k - 1 && j < |u| ensures !IsLineTerminator(u[j]) {
            assert u[j] == t[j + 1];
          }
        }
      }
    }
  }

  /** The replacement text `<strong>$1</strong>` for a captured group `x`. */
  function Strong(x: string): string
  {
    "<strong>" + x + "</strong>"
  }

  /** The first replacement: each bold span to a `strong` element. */
  function Bold(s: string): (r: string)
    decreases |s|
  {
    if |s| >= 2 && s[0] == '*' && s[1] == '*' && Close(s[2..]).Some? then
      var k := Close(s[2..]).value;
      Strong(s[2..2 + k]) + Bold(s[4 + k..])
    else if s == [] then []
    else [s[0]] + Bold(s[1..])
  }

  /** The number of occurrences of `c` in `s`. */
  function Count(s: string, c: char): nat
  {
    if s == [] then 0 else (if s[0] == c then 1 else 0) + Count(s[1..], c)
  }

  /** The second replacement: each line feed to "<br>". */
  function Br(s: string): (r: string)
    ensures '\n' !in r
    ensures |r| == |s| + 3 * Count(s, '\n')
    ensures '\n' !in s ==> r == s
  {
    if s == [] then []
    else (if s[0] == '\n' then "<br>" else [s[0]]) + Br(s[1..])
  }

  /** The whole chain: the HTML put into the answer card. */
  function Format(s: string): (r: string)
    ensures '\n' !in r
  {
    Br(Bold(s))
  }

  /**
   * Undoing the second replacement: every "<br>" back to a line feed. It is
   * an inverse of `Br` on text that has no '<' of its own.
   */
  function UnBr(s: string): (r: string)
    decreases |s|
  {
    if s == [] then []
    else if |s| >= 4 && s[..4] == "<br>" then "\n" + UnBr(s[4..])
    else [s[0]] + UnBr(s[1..])
  }

  /** `Br` loses nothing: on text without '<', `UnBr` recovers the input. */
  lemma {:induction false} UnBrBr(s: string)
    requires '<' !in s
    ensures UnBr(Br(s)) == s
  {
    if s != [] {
      assert '<' !in s[1..] by {
        assert forall c :: c in s[1..] ==> c in s;
      }
      UnBrBr(s[1..]);
      var rest := Br(s[1..]);
      assert Br(s) == (if s[0] == '\n' then "<br>" else [s[0]]) + rest;
      if s[0] == '\n' {
        UnBrLineFeed(rest);
      } else {
        assert s[0] in s;
        UnBrOther(s[0], rest);
      }
      assert s == [s[0]] + s[1..];
    }
  }

  /** `UnBr` turns a leading "<br>" back into a line feed. */
  lemma UnBrLineFeed(rest: string)
    ensures UnBr("<br>" + rest) == "\n" + UnBr(rest)
  {
    var t := "<br>" + rest;
    assert t[..4] == "<br>" && t[4..] == rest;
  }

  /** `UnBr` copies a leading character other than '<'. */
  lemma UnBrOther(c: char, rest: string)
    requires c != '<'
    ensures UnBr([c] + rest) == [c] + UnBr(rest)
  {
    var t := [c] + rest;
    assert t[0] == c && t[1..] == rest;
    assert |t| >= 4 ==> t[..4] != "<br>" by {
      if |t| >= 4 {
        assert t[..4][0] == c;
      }
    }
  }

  /** Text with no "**" anywhere. */
  predicate NoDoubleStar(s: string)
  {
    forall i :: 0 <= i < |s| - 1 ==> !(s[i] == '*' && s[i + 1] == '*')
  }

  /** Without "**" the first replacement finds nothing to replace. */
  lemma {:induction false} BoldNoDoubleStar(s: string)
    requires NoDoubleStar(s)
    ensures Bold(s) == s
  {
    if s != [] {
      assert |s| >= 2 ==> !(s[0] == '*' && s[1] == '*');
      assert NoDoubleStar(s[1..]) by {
        forall i | 0 <= i < |s[1..]| - 1 ensures !(s[1..][i] == '*' && s[1..][i + 1] == '*') {
          assert s[1..][i] == s[i + 1] && s[1..][i + 1] == s[i + 2];
        }
      }
      BoldNoDoubleStar(s[1..]);
    }
  }

  /** The first replacement adds no line feed and removes none. */
  lemma {:induction false} BoldKeepsLineFeeds(s: string)
    ensures Count(Bold(s), '\n') == Count(s, '\n')
    decreases |s|
  {
    if |s| >= 2 && s[0] == '*' && s[1] == '*' && Close(s[2..]).Some? {
      var k := Close(s[2..]).value;
      BoldKeepsLineFeeds(s[4 + k..]);
      SpanCounts(s, k);
    } else if s != [] {
      BoldKeepsLineFeeds(s[1..]);
      assert Bold(s) == [s[0]] + Bold(s[1..]);
      CountAppend([s[0]], Bold(s[1..]));
      CountAppend([s[0]], s[1..]);
      assert s == [s[0]] + s[1..];
    }
  }

  /** A replaced bold span holds no line feed, before or after replacement. */
  lemma SpanCounts(s: string, k: nat)
    requires |s| >= 2 && s[0] == '*' && s[1] == '*' && Close(s[2..]) == Some(k)
    ensures Count(Bold(s), '\n') == Count(Bold(s[4 + k..]), '\n')
    ensures Count(s, '\n') == Count(s[4 + k..], '\n')
  {
    var inner, rest := s[2..2 + k], s[4 + k..];
    BoldAtSpan(s, k);
    SpanOnOneLine(s, k);
    SpanSplit(s, k);
    NoLineFeedCount(inner);
    StrongCount(inner);
    CountAppend(Strong(inner), Bold(rest));
    WrappedCount(s[..2], inner, s[..2], rest);
  }

  /** Where a match starts, the first replacement emits the replacement text and goes on after the match. */
  lemma BoldAtSpan(s: string, k: nat)
    requires |s| >= 2 && s[0] == '*' && s[1] == '*' && Close(s[2..]) == Some(k)
    ensures Bold(s) == Strong(s[2..2 + k]) + Bold(s[4 + k..])
  {
  }

  /** The captured group holds no line feed. */
  lemma SpanOnOneLine(s: string, k: nat)
    requires |s| >= 2 && s[0] == '*' && s[1] == '*' && Close(s[2..]) == Some(k)
    ensures '\n' !in s[2..2 + k]
  {
    var inner := s[2..2 + k];
    forall j | 0 <= j < |inner| ensures inner[j] != '\n' {
      assert inner[j] == s[2..][j];
    }
  }

  /** A match is "**", the captured group, "**". */
  lemma SpanSplit(s: string, k: nat)
    requires |s| >= 2 && s[0] == '*' && s[1] == '*' && Close(s[2..]) == Some(k)
    ensures s[..2] == "**"
    ensures s == s[..2] + s[2..2 + k] + s[..2] + s[4 + k..]
  {
    assert s[2..][k] == s[2 + k] && s[2..][k + 1] == s[3 + k];
    assert s[2 + k..4 + k] == s[..2];
  }

  /** The replacement text has the line feeds of the captured group. */
  lemma StrongCount(x: string)
    ensures Count(Strong(x), '\n') == Count(x, '\n')
  {
    WrappedCount("<strong>", x, "</strong>", "");
    assert Strong(x) + "" == Strong(x);
  }

  /** Line feeds of text between two markers without any, followed by more text. */
  lemma WrappedCount(open: string, inner: string, close: string, rest: string)
    requires '\n' !in open && '\n' !in close
    ensures Count(open + inner + close + rest, '\n') == Count(inner, '\n') + Count(rest, '\n')
  {
    NoLineFeedCount(open);
    NoLineFeedCount(close);
    CountAppend(open, inner);
    CountAppend(open + inner, close);
    CountAppend(open + inner + close, rest);
  }

  /** Counting distributes over concatenation. */
  lemma {:induction false} CountAppend(a: string, b: string)
    ensures Count(a + b, '\n') == Count(a, '\n') + Count(b, '\n')
  {
    if a != [] {
      assert (a + b)[1..] == a[1..] + b;
      CountAppend(a[1..], b);
    } else {
      assert a + b == b;
    }
  }

  /** Text without a line feed counts none. */
  lemma {:induction false} NoLineFeedCount(s: string)
    requires '\n' !in s
    ensures Count(s, '\n') == 0
  {
    if s != [] {
      assert '\n' !in s[1..] by {
        assert forall c :: c in s[1..] ==> c in s;
      }
      NoLineFeedCount(s[1..]);
    }
  }

  /**
   * A bold span "**x**", with x on one line and holding no '*', after text
   * without any '*', becomes "<strong>x</strong>"; formatting goes on
   * independently after it.
   */
  lemma BoldSpan(pre: string, x: string, post: string)
    requires '*' !in pre
    requires '*' !in x && forall j :: 0 <= j < |x| ==> !IsLineTerminator(x[j])
    ensures Bold(pre + "**" + x + "**" + post) == pre + Strong(x) + Bold(post)
  {
    assert pre + "**" + x + "**" + post == pre + ("**" + x + "**" + post);
    BoldPlainPrefix(pre, "**" + x + "**" + post);
    BoldSpanFirst(x, post);
  }

  /** Text without '*' passes through the first replacement unchanged, whatever follows it. */
  lemma {:induction false} BoldPlainPrefix(pre: string, rest: string)
    requires '*' !in pre
    ensures Bold(pre + rest) == pre + Bold(rest)
  {
    if pre != [] {
      var s := pre + rest;
      assert pre[0] != '*' by {
        assert pre[0] in pre;
      }
      assert '*' !in pre[1..] by {
        assert forall c :: c in pre[1..] ==> c in pre;
      }
      assert s[0] == pre[0] && s[1..] == pre[1..] + rest;
      BoldCopies(s);
      BoldPlainPrefix(pre[1..], rest);
      assert pre == [pre[0]] + pre[1..];
    } else {
      assert pre + rest == rest;
    }
  }

  /** A bold span at the very start of the text. */
  lemma BoldSpanFirst(x: string, post: string)
    requires '*' !in x && forall j :: 0 <= j < |x| ==> !IsLineTerminator(x[j])
    ensures Bold("**" + x + "**" + post) == Strong(x) + Bold(post)
  {
    var s := "**" + x + "**" + post;
    assert s[2..] == x + "**" + post;
    CloseAfter(x, post);
    BoldAtSpan(s, |x|);
    assert s[2..2 + |x|] == x;
    assert s[4 + |x|..] == post;
  }

  /** Where no "**" starts, the first replacement copies one character. */
  lemma BoldCopies(s: string)
    requires s != [] && s[0] != '*'
    ensures Bold(s) == [s[0]] + Bold(s[1..])
  {
  }

  /** After an opening "**", a star-free one-line `x` is captured whole. */
  lemma {:induction false} CloseAfter(x: string, post: string)
    requires '*' !in x && forall j :: 0 <= j < |x| ==> !IsLineTerminator(x[j])
    ensures Close(x + "**" + post) == Some(|x|)
  {
    var t := x + "**" + post;
    if x == [] {
      assert t[0] == '*' && t[1] == '*';
    } else {
      assert x[0] != '*' by {
        assert x[0] in x;
      }
      assert '*' !in x[1..] by {
        assert forall c :: c in x[1..] ==> c in x;
      }
      assert forall j :: 0 <= j < |x[1..]| ==> !IsLineTerminator(x[1..][j]) by {
        forall j | 0 <= j < |x[1..]| ensures !IsLineTerminator(x[1..][j]) {
          assert x[1..][j] == x[j + 1];
        }
      }
      assert t[0] == x[0] && t[1..] == x[1..] + "**" + post;
      CloseAfter(x[1..], post);
    }
  }

  /** Text with no '*' and no line feed is shown exactly as it is. */
  lemma FormatPlain(s: string)
    requires '*' !in s && '\n' !in s
    ensures Format(s) == s
  {
    BoldNoDoubleStar(s);
  }

  /**
   * Without "**" the output is the input with every line feed widened to
   * the four characters "<br>".
   */
  lemma FormatLength(s: string)
    requires NoDoubleStar(s)
    ensures |Format(s)| == |s| + 3 * Count(s, '\n')
  {
    BoldNoDoubleStar(s);
  }

  /**
   * The output of the whole chain is as long as the bold-replaced text plus
   * three characters for each line feed of the input.
   */
  lemma FormatLineFeeds(s: string)
    ensures |Format(s)| == |Bold(s)| + 3 * Count(s, '\n')
  {
    BoldKeepsLineFeeds(s);
  }
}
