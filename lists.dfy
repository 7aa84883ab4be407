/** The list edits every editor performs on its array field. */
module Lists {

  /** `s.filter((_, i) => i !== idx)`: the element at position `idx` is
      dropped, every other element keeps its relative order, and an index
      outside the list drops nothing. */
  function RemoveIndex<T>(s: seq<T>, idx: int): (r: seq<T>)
    ensures 0 <= idx < |s| ==> r == s[..idx] + s[idx + 1..]
    ensures !(0 <= idx < |s|) ==> r == s
  {
    if |s| == 0 then []
    else (if idx == 0 then [] else [s[0]]) + RemoveIndex(s[1..], idx - 1)
  }

  /** Removing the element just appended gives back the list: "Add"
      followed by the new row's delete button changes nothing. */
  lemma {:induction false} RemoveAppended<T>(s: seq<T>, x: T)
    ensures RemoveIndex(s + [x], |s|) == s
  {
    assert (s + [x])[..|s|] == s;
  }

  /** `const next = [...s]; next[idx] = x;`: a copy of the list with one
      position overwritten. The copy is an array, as the spread copy is. */
  method CopyWith<T>(s: seq<T>, idx: nat, x: T) returns (next: seq<T>)
    requires idx < |s|
    ensures |next| == |s|
    ensures next[idx] == x
    ensures forall j :: 0 <= j < |s| && j != idx ==> next[j] == s[j]
  {
    var copy := new T[|s|](i requires 0 <= i < |s| => s[i]);
    copy[idx] := x;
    next := copy[..];
  }
}
