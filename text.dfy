/** The string operations of JavaScript the editors and the statistics view
    rely on: `String.prototype.split` with a one-character separator,
    `Array.prototype.join`, and `String.prototype.trim`. Strings are
    sequences of characters. */
module Text {

  /** The characters `trim` removes: ECMAScript WhiteSpace and
      LineTerminator code points. */
  predicate IsSpace(c: char) {
    || c == ' ' || c == '\t' || c == '\n' || c == '\r'
    || c == '\U{B}' || c == '\U{C}' || c == '\U{A0}' || c == '\U{FEFF}'
    || c == '\U{1680}' || ('\U{2000}' <= c <= '\U{200A}')
    || c == '\U{2028}' || c == '\U{2029}' || c == '\U{202F}'
    || c == '\U{205F}' || c == '\U{3000}'
  }

  /** `s.split(sep)`: the pieces between occurrences of `sep`. The empty
      string splits into one empty piece, and a separator at either end
      yields an empty piece there. */
  function Split(s: string, sep: char): (parts: seq<string>)
    ensures |parts| >= 1
    ensures forall k :: 0 <= k < |parts| ==> sep !in parts[k]
  {
    if |s| == 0 then [""]
    else
      var rest := Split(s[1..], sep);
      if s[0] == sep then [""] + rest
      else [[s[0]] + rest[0]] + rest[1..]
  }

  /** `parts.join(sep)`. */
  function Join(parts: seq<string>, sep: string): string
  {
    if |parts| == 0 then ""
    else if |parts| == 1 then parts[0]
    else parts[0] + sep + Join(parts[1..], sep)
  }

  /** `s` with every occurrence of `from` replaced by `to`: the reference
      definition for a split followed by a join with another separator. */
  function ReplaceChar(s: string, from: char, to: char): (r: string)
    ensures |r| == |s|
    ensures forall k :: 0 <= k < |s| ==> r[k] == if s[k] == from then to else s[k]
  {
    if |s| == 0 then "" else [if s[0] == from then to else s[0]] + ReplaceChar(s[1..], from, to)
  }

  /** `s.trimStart()`: drops the leading white space, nothing else. */
  function TrimStart(s: string): (r: string)
    ensures |r| <= |s| && r == s[|s| - |r|..]
    ensures forall k :: 0 <= k < |s| - |r| ==> IsSpace(s[k])
    ensures r == "" || !IsSpace(r[0])
  {
    if |s| > 0 && IsSpace(s[0]) then TrimStart(s[1..]) else s
  }

  /** `s.trimEnd()`: drops the trailing white space, nothing else. */
  function TrimEnd(s: string): (r: string)
    ensures |r| <= |s| && r == s[..|r|]
    ensures forall k :: |r| <= k < |s| ==> IsSpace(s[k])
    ensures r == "" || !IsSpace(r[|r| - 1])
  {
    if |s| > 0 && IsSpace(s[|s| - 1]) then TrimEnd(s[..|s| - 1]) else s
  }

  /** `s.trim()`. */
  function Trim(s: string): string
  {
    TrimEnd(TrimStart(s))
  }

  /** A string that `trim` leaves as it is. */
  predicate IsTrimmed(s: string) {
    s == "" || (!IsSpace(s[0]) && !IsSpace(s[|s| - 1]))
  }

  /** The result of `trim` cannot be trimmed further, and a trimmed string
      is a fixed point of `trim`. */
  lemma TrimmedIsFixed(s: string)
    ensures IsTrimmed(Trim(s))
    ensures IsTrimmed(s) ==> Trim(s) == s
  {
    var t := TrimStart(s);
    if t != "" {
      var r := TrimEnd(t);
      if r != "" {
        assert r[0] == t[0];
      }
    }
  }

  /** One leading blank, as `join(', ')` puts before every item but the
      first, is removed again by `trim`. */
  lemma TrimAfterBlank(s: string)
    requires IsTrimmed(s)
    ensures Trim(" " + s) == s
  {
    assert (" " + s)[1..] == s;
    assert TrimStart(" " + s) == TrimStart(s);
    TrimmedIsFixed(s);
  }

  /** A string without the separator is one piece. */
  lemma {:induction false} SplitWithoutSeparator(s: string, sep: char)
    requires sep !in s
    ensures Split(s, sep) == [s]
  {
    if |s| > 0 {
      SplitWithoutSeparator(s[1..], sep);
      assert [s[0]] + s[1..] == s;
    }
  }

  /** Splitting at the first separator: the text before it is the first
      piece and the rest is split on its own. */
  lemma {:induction false} SplitAtFirst(a: string, sep: char, b: string)
    requires sep !in a
    ensures Split(a + [sep] + b, sep) == [a] + Split(b, sep)
  {
    var s := a + [sep] + b;
    if |a| == 0 {
      assert s[1..] == b;
    } else {
      assert s[1..] == a[1..] + [sep] + b;
      SplitAtFirst(a[1..], sep, b);
      assert [a[0]] + a[1..] == a;
    }
  }

  /** Splitting on `from` and joining with `to` replaces every `from`
      by `to`. */
  lemma {:induction false} JoinSplitReplaces(s: string, from: char, to: char)
    ensures Join(Split(s, from), [to]) == ReplaceChar(s, from, to)
  {
    if |s| > 0 {
      var rest := Split(s[1..], from);
      JoinSplitReplaces(s[1..], from, to);
      if s[0] == from {
        assert Split(s, from) == [""] + rest;
        assert ([""] + rest)[1..] == rest;
      } else {
        var parts := Split(s, from);
        assert parts == [[s[0]] + rest[0]] + rest[1..];
        if |rest| == 1 {
          assert Join(rest, [to]) == rest[0];
        } else {
          assert parts[1..] == rest[1..];
          assert Join(rest, [to]) == rest[0] + [to] + Join(rest[1..], [to]);
        }
      }
    }
  }

  /** Splitting and joining again with the same separator gives back the
      text. */
  lemma JoinSplit(s: string, sep: char)
    ensures Join(Split(s, sep), [sep]) == s
  {
    JoinSplitReplaces(s, sep, sep);
    assert ReplaceChar(s, sep, sep) == s;
  }

  /** Joining a non-empty list whose items do not contain the separator and
      splitting again gives back the list. */
  lemma {:induction false} SplitJoin(xs: seq<string>, sep: char)
    requires |xs| >= 1
    requires forall k :: 0 <= k < |xs| ==> sep !in xs[k]
    ensures Split(Join(xs, [sep]), sep) == xs
  {
    if |xs| == 1 {
      SplitWithoutSeparator(xs[0], sep);
    } else {
      SplitJoin(xs[1..], sep);
      SplitAtFirst(xs[0], sep, Join(xs[1..], [sep]));
      assert [xs[0]] + xs[1..] == xs;
    }
  }

  /** Splitting a list joined with `sep` followed by a padding string:
      every piece after the first carries the padding in front. */
  lemma {:induction false} SplitJoinPadded(q: string, xs: seq<string>, sep: char, pad: string)
    requires |xs| >= 1
    requires sep !in q && sep !in pad
    requires forall k :: 0 <= k < |xs| ==> sep !in xs[k]
    ensures |Split(q + Join(xs, [sep] + pad), sep)| == |xs|
    ensures Split(q + Join(xs, [sep] + pad), sep)[0] == q + xs[0]
    ensures forall k :: 1 <= k < |xs| ==> Split(q + Join(xs, [sep] + pad), sep)[k] == pad + xs[k]
    decreases |xs|
  {
    if |xs| == 1 {
      assert sep !in q + xs[0];
      SplitWithoutSeparator(q + xs[0], sep);
    } else {
      var tail := Join(xs[1..], [sep] + pad);
      var parts := Split(q + Join(xs, [sep] + pad), sep);
      var later := Split(pad + tail, sep);
      assert parts == [q + xs[0]] + later by {
        assert q + Join(xs, [sep] + pad) == (q + xs[0]) + [sep] + (pad + tail);
        assert sep !in q + xs[0];
        SplitAtFirst(q + xs[0], sep, pad + tail);
      }
      assert |later| == |xs| - 1 && forall k :: 1 <= k < |xs| ==> later[k - 1] == pad + xs[k] by {
        assert forall k :: 0 <= k < |xs[1..]| ==> sep !in xs[1..][k];
        SplitJoinPadded(pad, xs[1..], sep, pad);
      }
    }
  }
}
