/** The text fields the project and experience editors use for their list
    properties: a comma list shown with `join(', ')` and read back with
    `split(',').map(s => s.trim())`, and a line list shown with
    `join('\n')` and read back with `split('\n')`. */
module EditorText {
  import opened Text

  /** `xs.join(', ')`: what the comma-list input shows. */
  function ShowCommaList(xs: seq<string>): string
  {
    Join(xs, ", ")
  }

  /** The trimmed pieces of a list of strings. */
  function TrimAll(parts: seq<string>): (r: seq<string>)
    ensures |r| == |parts|
    ensures forall k :: 0 <= k < |r| ==> r[k] == Trim(parts[k])
  {
    if |parts| == 0 then [] else [Trim(parts[0])] + TrimAll(parts[1..])
  }

  /** Trimmed pieces of comma-free text are trimmed and comma-free. */
  lemma TrimAllClean(parts: seq<string>)
    requires forall k :: 0 <= k < |parts| ==> ',' !in parts[k]
    ensures forall k :: 0 <= k < |parts| ==> ',' !in TrimAll(parts)[k] && IsTrimmed(TrimAll(parts)[k])
  {
    var r := TrimAll(parts);
    forall k | 0 <= k < |parts| ensures ',' !in r[k] && IsTrimmed(r[k]) {
      TrimmedIsFixed(parts[k]);
      TrimDropsNothingInside(parts[k], ',');
    }
  }

  /** `text.split(',').map(s => s.trim())`: what a comma-list edit stores.
      There is always at least one item, no item holds a comma, and no item
      begins or ends with white space. */
  function ParseCommaList(text: string): (r: seq<string>)
    ensures |r| >= 1
    ensures forall k :: 0 <= k < |r| ==> ',' !in r[k] && IsTrimmed(r[k])
  {
    TrimAllClean(Split(text, ','));
    TrimAll(Split(text, ','))
  }

  /** `trim` only removes characters, so a character absent before is
      absent after. */
  lemma TrimDropsNothingInside(s: string, c: char)
    ensures c !in s ==> c !in Trim(s)
  {
    var t := TrimStart(s);
    var r := TrimEnd(t);
    if c in r {
      var k :| 0 <= k < |r| && r[k] == c;
      assert r[k] == t[k];
      assert t[k] == s[|s| - |t| + k];
    }
  }

  /** `xs.join('\n')`: what a line-list text area shows. */
  function ShowLines(xs: seq<string>): string
  {
    Join(xs, "\n")
  }

  /** `text.split('\n')`: what a line-list edit stores; never empty and
      no item holds a line break. */
  function ParseLines(text: string): (r: seq<string>)
    ensures |r| >= 1
    ensures forall k :: 0 <= k < |r| ==> '\n' !in r[k]
  {
    Split(text, '\n')
  }

  /** A list that is not empty and whose items hold no comma and no
      surrounding white space is read back exactly from what the input
      shows. */
  lemma CommaListRoundTrip(xs: seq<string>)
    requires |xs| >= 1
    requires forall k :: 0 <= k < |xs| ==> ',' !in xs[k] && IsTrimmed(xs[k])
    ensures ParseCommaList(ShowCommaList(xs)) == xs
  {
    assert [','] + " " == ", ";
    assert ShowCommaList(xs) == "" + Join(xs, [','] + " ");
    SplitJoinPadded("", xs, ',', " ");
    var parts := Split(ShowCommaList(xs), ',');
    var r := ParseCommaList(ShowCommaList(xs));
    assert |r| == |xs|;
    forall k | 0 <= k < |xs| ensures r[k] == xs[k] {
      if k == 0 {
        assert parts[0] == xs[0];
        TrimmedIsFixed(xs[0]);
      } else {
        assert parts[k] == " " + xs[k];
        TrimAfterBlank(xs[k]);
      }
    }
  }

  /** Editing a comma list and showing it again does not change what the
      next edit reads: the parsed list is a fixed point. */
  lemma CommaListStable(text: string)
    ensures ParseCommaList(ShowCommaList(ParseCommaList(text))) == ParseCommaList(text)
  {
    CommaListRoundTrip(ParseCommaList(text));
  }

  /** A line list that is not empty and whose items hold no line break is
      read back exactly. */
  lemma LinesRoundTrip(xs: seq<string>)
    requires |xs| >= 1
    requires forall k :: 0 <= k < |xs| ==> '\n' !in xs[k]
    ensures ParseLines(ShowLines(xs)) == xs
  {
    SplitJoin(xs, '\n');
  }

  /** The text area shows exactly the text last typed into it. */
  lemma LinesShowTyped(text: string)
    ensures ShowLines(ParseLines(text)) == text
  {
    JoinSplit(text, '\n');
  }

  /** An empty list is shown as the empty string, and an edit that leaves
      the field empty stores one empty item, not an empty list. */
  lemma EmptyListReparses()
    ensures ShowCommaList([]) == "" && ParseCommaList(ShowCommaList([])) == [""]
    ensures ShowLines([]) == "" && ParseLines(ShowLines([])) == [""]
  {
    assert Trim("") == "";
  }
}
