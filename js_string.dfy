// The two JavaScript string built-ins the survey core relies on:
// String.prototype.trim (the step gate and the search guard) and
// `s.split(sep)[0]` (the name taken from a search result).

module JsString {

  /** The characters String.prototype.trim removes: the ECMAScript
      WhiteSpace code points (TAB, VT, FF, SP, NBSP, ZWNBSP and the Zs
      category) and the LineTerminator code points (LF, CR, LS, PS). */
  predicate IsWhitespace(c: char) {
    c == '\t' || c == '\U{000B}' || c == '\U{000C}' || c == ' ' ||
    c == '\U{00A0}' || c == '\U{FEFF}' ||
    c == '\U{1680}' || ('\U{2000}' <= c <= '\U{200A}') ||
    c == '\U{202F}' || c == '\U{205F}' || c == '\U{3000}' ||
    c == '\n' || c == '\r' || c == '\U{2028}' || c == '\U{2029}'
  }

  /** A string is blank when every character in it is whitespace
      (the empty string included). */
  ghost predicate IsBlank(s: string) {
    forall i :: 0 <= i < |s| ==> IsWhitespace(s[i])
  }

  /** Leading whitespace removed: the result is the longest suffix of `s`
      that does not start with whitespace. */
  function TrimStart(s: string): (r: string)
    ensures |r| <= |s| && r == s[|s| - |r|..]
    ensures forall i :: 0 <= i < |s| - |r| ==> IsWhitespace(s[i])
    ensures r == [] || !IsWhitespace(r[0])
  {
    if s != [] && IsWhitespace(s[0]) then TrimStart(s[1..]) else s
  }

  /** Trailing whitespace removed: the result is the longest prefix of `s`
      that does not end with whitespace. */
  function TrimEnd(s: string): (r: string)
    ensures |r| <= |s| && r == s[..|r|]
    ensures forall i :: |r| <= i < |s| ==> IsWhitespace(s[i])
    ensures r == [] || !IsWhitespace(r[|r| - 1])
  {
    if s != [] && IsWhitespace(s[|s| - 1]) then TrimEnd(s[..|s| - 1]) else s
  }

  /** String.prototype.trim: whitespace cut from both ends, so a non-empty
      result neither starts nor ends with whitespace. */
  function Trim(s: string): (r: string)
    ensures |r| <= |s|
    ensures r == [] || (!IsWhitespace(r[0]) && !IsWhitespace(r[|r| - 1]))
  {
    var t := TrimStart(s);
    var r := TrimEnd(t);
    assert r == [] || r[0] == t[0];
    r
  }

  /** `s.trim() === ''` holds exactly for the blank strings. */
  lemma TrimEmptyIffBlank(s: string)
    ensures Trim(s) == "" <==> IsBlank(s)
  {
    var t := TrimStart(s);
    if Trim(s) == "" {
      // TrimEnd cut all of t, so t cannot start with a non-whitespace
      // character: TrimStart left nothing.
      if t != [] {
        assert false;
      }
    } else {
      var r := Trim(s);
      assert r == t[..|r|];
      if t == [] {
        assert false;
      }
      assert !IsWhitespace(t[0]) && t[0] == s[|s| - |t|];
    }
  }

  /** What TrimEnd cuts from a suffix `s[i..]` is whitespace of `s`. */
  lemma TrimEndOfSuffix(s: string, i: int)
    requires 0 <= i <= |s|
    ensures forall k :: i + |TrimEnd(s[i..])| <= k < |s| ==> IsWhitespace(s[k])
  {
    var t := s[i..];
    forall k | i + |TrimEnd(t)| <= k < |s| ensures IsWhitespace(s[k]) {
      assert s[k] == t[k - i];
    }
  }

  /** A prefix of a suffix of `s` is a slice of `s`. */
  lemma PrefixOfSuffix(s: string, t: string, r: string)
    requires |t| <= |s| && t == s[|s| - |t|..]
    requires |r| <= |t| && r == t[..|r|]
    ensures r == s[|s| - |t|..|s| - |t| + |r|]
  {
  }

  /** The trimmed string is a contiguous piece of `s`, and only whitespace
      was cut away. */
  lemma TrimIsInnerSlice(s: string)
    ensures exists i, j :: (0 <= i <= j <= |s| && Trim(s) == s[i..j] &&
                            (forall k :: 0 <= k < i ==> IsWhitespace(s[k])) &&
                            (forall k :: j <= k < |s| ==> IsWhitespace(s[k])))
  {
    var t := TrimStart(s);
    var r := TrimEnd(t);
    var i, j := |s| - |t|, |s| - |t| + |r|;
    PrefixOfSuffix(s, t, r);
    TrimEndOfSuffix(s, i);
    assert 0 <= i <= j <= |s| && Trim(s) == s[i..j] &&
           (forall k :: 0 <= k < i ==> IsWhitespace(s[k])) &&
           (forall k :: j <= k < |s| ==> IsWhitespace(s[k]));
  }

  /** `sep` occurs in `s` starting at index `i`. */
  predicate OccursAt(s: string, sep: string, i: int) {
    0 <= i && i + |sep| <= |s| && s[i..i + |sep|] == sep
  }

  /** `s.split(sep)[0]` for a non-empty separator: the text before the
      first occurrence of `sep`, or all of `s` when `sep` does not occur. */
  function SplitHead(s: string, sep: string): (r: string)
    requires sep != []
    ensures |r| <= |s| && r == s[..|r|]
    ensures forall i :: 0 <= i < |r| ==> !OccursAt(s, sep, i)
    ensures |r| == |s| || OccursAt(s, sep, |r|)
    decreases |s|
  {
    if |s| < |sep| then s
    else if s[..|sep|] == sep then ""
    else
      var rest := SplitHead(s[1..], sep);
      assert forall i :: 1 <= i <= |s| - |sep| ==> (OccursAt(s, sep, i) <==> OccursAt(s[1..], sep, i - 1));
      [s[0]] + rest
  }

  /** When no occurrence of `sep` in `head + sep` starts inside `head`,
      splitting `head + sep + tail` at `sep` gives back `head`. */
  lemma {:induction false} SplitHeadOfJoin(head: string, sep: string, tail: string)
    requires sep != []
    requires forall i :: 0 <= i < |head| ==> !OccursAt(head + sep, sep, i)
    ensures SplitHead(head + sep + tail, sep) == head
  {
    var s := head + sep + tail;
    var r := SplitHead(s, sep);
    assert OccursAt(s, sep, |head|) by {
      assert s[|head|..|head| + |sep|] == sep;
    }
    if |r| < |head| {
      assert s[|r|..|r| + |sep|] == (head + sep)[|r|..|r| + |sep|];
      assert OccursAt(head + sep, sep, |r|);
      assert false;
    }
    assert r == s[..|head|] == head;
  }
}
