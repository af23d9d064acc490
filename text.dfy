/** The string operations the editors rely on: JavaScript's
    `String.prototype.trim` (used by every "blank input is ignored" guard),
    the ASCII part of `toLowerCase`, and `Array.prototype.join`. */
module Text {

  /** The code points `trim` strips: ECMAScript's WhiteSpace (tab, vertical
      tab, form feed, space, no-break space, zero-width no-break space and
      the Unicode space separators) and LineTerminator (line feed, carriage
      return, line and paragraph separators). */
  predicate IsJsWhitespace(c: char) {
    || c == '\t' || c == '\n' || c == '\U{000B}' || c == '\U{000C}' || c == '\r'
    || c == ' ' || c == '\U{00A0}' || c == '\U{1680}'
    || ('\U{2000}' <= c <= '\U{200A}')
    || c == '\U{2028}' || c == '\U{2029}' || c == '\U{202F}' || c == '\U{205F}'
    || c == '\U{3000}' || c == '\U{FEFF}'
  }

  /** Nothing but whitespace: what `trim` reduces to the empty string. */
  predicate IsBlank(s: string) {
    forall k :: 0 <= k < |s| ==> IsJsWhitespace(s[k])
  }

  /** The end of the run of whitespace that starts at `i`. */
  function BlankRunEnd(s: string, i: nat): (n: nat)
    requires i <= |s|
    ensures i <= n <= |s|
    ensures forall k :: i <= k < n ==> IsJsWhitespace(s[k])
    ensures n < |s| ==> !IsJsWhitespace(s[n])
    decreases |s| - i
  {
    if i < |s| && IsJsWhitespace(s[i]) then BlankRunEnd(s, i + 1) else i
  }

  /** The start of the run of whitespace that ends at `j`. */
  function BlankRunStart(s: string, j: nat): (n: nat)
    requires j <= |s|
    ensures n <= j
    ensures forall k :: n <= k < j ==> IsJsWhitespace(s[k])
    ensures 0 < n ==> !IsJsWhitespace(s[n - 1])
  {
    if 0 < j && IsJsWhitespace(s[j - 1]) then BlankRunStart(s, j - 1) else j
  }

  /** `s.trimStart()`: the suffix of `s` left after its leading whitespace. */
  function TrimStart(s: string): (r: string)
    ensures |r| <= |s| && r == s[|s| - |r|..]
    ensures IsBlank(s[..|s| - |r|])
    ensures r != [] ==> !IsJsWhitespace(r[0])
  {
    s[BlankRunEnd(s, 0)..]
  }

  /** `s.trimEnd()`: the prefix of `s` left after its trailing whitespace. */
  function TrimEnd(s: string): (r: string)
    ensures |r| <= |s| && r == s[..|r|]
    ensures IsBlank(s[|r|..])
    ensures r != [] ==> !IsJsWhitespace(r[|r| - 1])
  {
    s[..BlankRunStart(s, |s|)]
  }

  /** `s.trim()` */
  function Trim(s: string): string {
    TrimEnd(TrimStart(s))
  }

  /** `!s.trim()`: trimming leaves nothing exactly when every character is
      whitespace, so a single other character anywhere makes the guard
      fail. */
  lemma {:induction false} TrimEmptyIffBlank(s: string)
    ensures Trim(s) == [] <==> IsBlank(s)
  {
    var t := TrimStart(s);
    var n := |s| - |t|;
    assert s == s[..n] + t;
    if Trim(s) == [] {
      assert IsBlank(t[0..]);
      assert t == [];
      assert s == s[..n];
    } else {
      var r := Trim(s);
      assert !IsJsWhitespace(r[0]);
      assert r[0] == t[0] == s[n];
    }
  }

  /** The ASCII upper-case letters lowered, everything else kept. Lowering
      outside ASCII is not modelled: no character outside ASCII lowers to a
      single ASCII letter of "low", "medium" or "high", so comparisons
      against those words come out as with the full `toLowerCase`. */
  function LowerAscii(c: char): (d: char)
    ensures 'A' <= c <= 'Z' ==> d as int == c as int + 32
    ensures !('A' <= c <= 'Z') ==> d == c
  {
    if 'A' <= c <= 'Z' then (c as int + 32) as char else c
  }

  /** `s.toLowerCase()` on the ASCII letters. */
  function Lower(s: string): (r: string)
    ensures |r| == |s|
    ensures forall k :: 0 <= k < |s| ==> r[k] == LowerAscii(s[k])
  {
    seq(|s|, k requires 0 <= k < |s| => LowerAscii(s[k]))
  }

  /** Lowering leaves no upper-case ASCII letter behind, so lowering twice
      is lowering once. */
  lemma LowerIdempotent(s: string)
    ensures forall k :: 0 <= k < |s| ==> !('A' <= Lower(s)[k] <= 'Z')
    ensures Lower(Lower(s)) == Lower(s)
  {
    var t := Lower(s);
    assert forall k :: 0 <= k < |t| ==> LowerAscii(t[k]) == t[k];
  }

  /** `a` and `b` spell the same word up to the case of ASCII letters. */
  predicate SameIgnoringCase(a: string, b: string) {
    |a| == |b| && forall k :: 0 <= k < |a| ==> LowerAscii(a[k]) == LowerAscii(b[k])
  }

  /** Comparing the lowered string with a word written in lower case is
      comparing the two ignoring case. */
  lemma LowerMatches(a: string, w: string)
    requires forall k :: 0 <= k < |w| ==> LowerAscii(w[k]) == w[k]
    ensures Lower(a) == w <==> SameIgnoringCase(a, w)
  {
    if SameIgnoringCase(a, w) {
      assert forall k :: 0 <= k < |a| ==> Lower(a)[k] == w[k];
    }
  }

  /** `parts.join(sep)` */
  function Join(parts: seq<string>, sep: string): string
    decreases |parts|
  {
    if |parts| == 0 then ""
    else if |parts| == 1 then parts[0]
    else parts[0] + sep + Join(parts[1..], sep)
  }

  /** Where part `i` begins in `Join(parts, sep)`: after every earlier part,
      each followed by one separator. */
  function Offset(parts: seq<string>, sep: string, i: nat): nat
    requires i <= |parts|
  {
    if i == 0 then 0 else Offset(parts, sep, i - 1) + |parts[i - 1]| + |sep|
  }

  /** Shifting the start of the list by one part shifts every offset by
      that part and one separator. */
  lemma {:induction false} OffsetTail(parts: seq<string>, sep: string, i: nat)
    requires 1 <= i <= |parts|
    ensures Offset(parts, sep, i) == |parts[0]| + |sep| + Offset(parts[1..], sep, i - 1)
  {
    if i > 1 {
      OffsetTail(parts, sep, i - 1);
    }
  }

  /** A slice that lies within the second half of a concatenation is a
      slice of that half. */
  lemma SliceOfSecond<T>(a: seq<T>, b: seq<T>, lo: nat, hi: nat)
    requires lo <= hi <= |b|
    ensures (a + b)[|a| + lo..|a| + hi] == b[lo..hi]
  {
    assert forall k :: 0 <= k < hi - lo ==> (a + b)[|a| + lo..|a| + hi][k] == b[lo..hi][k];
  }

  /** `Join` lays the parts out in order: part `i` is found at its offset,
      and, unless it is the last part, one separator follows it, so every
      part appears once and none is reordered. */
  lemma {:induction false} JoinPlacesParts(parts: seq<string>, sep: string, i: nat)
    requires i < |parts|
    ensures Offset(parts, sep, i) + |parts[i]| <= |Join(parts, sep)|
    ensures Join(parts, sep)[Offset(parts, sep, i)..Offset(parts, sep, i) + |parts[i]|] == parts[i]
    ensures i + 1 < |parts| ==>
      Offset(parts, sep, i + 1) <= |Join(parts, sep)| &&
      Join(parts, sep)[Offset(parts, sep, i) + |parts[i]|..Offset(parts, sep, i + 1)] == sep
    ensures i + 1 == |parts| ==> Offset(parts, sep, i) + |parts[i]| == |Join(parts, sep)|
    decreases |parts|, 2
  {
    if i + 1 == |parts| {
      JoinLength(parts, sep);
    }
    if |parts| == 1 {
    } else if i == 0 {
      JoinHead(parts, sep);
    } else {
      JoinLater(parts, sep, i);
    }
  }

  /** The first of several parts starts the join and a separator follows. */
  lemma JoinHead(parts: seq<string>, sep: string)
    requires 1 < |parts|
    ensures |parts[0]| + |sep| <= |Join(parts, sep)|
    ensures Join(parts, sep)[..|parts[0]|] == parts[0]
    ensures Join(parts, sep)[|parts[0]|..|parts[0]| + |sep|] == sep
  {
    var tail := Join(parts[1..], sep);
    assert Join(parts, sep) == parts[0] + (sep + tail);
    SliceOfSecond(parts[0], sep + tail, 0, |sep|);
  }

  /** A later part sits where it sits in the join of the tail, shifted by
      the first part and one separator. */
  lemma {:induction false} JoinLater(parts: seq<string>, sep: string, i: nat)
    requires 0 < i < |parts|
    ensures Offset(parts, sep, i) + |parts[i]| <= |Join(parts, sep)|
    ensures Join(parts, sep)[Offset(parts, sep, i)..Offset(parts, sep, i) + |parts[i]|] == parts[i]
    ensures i + 1 < |parts| ==>
      Offset(parts, sep, i + 1) <= |Join(parts, sep)| &&
      Join(parts, sep)[Offset(parts, sep, i) + |parts[i]|..Offset(parts, sep, i + 1)] == sep
    decreases |parts|, 1
  {
    var tail := parts[1..];
    assert tail[i - 1] == parts[i];
    JoinPlacesParts(tail, sep, i - 1);
    JoinSplit(parts, sep);
    OffsetTail(parts, sep, i);
    ShiftedSlice(parts[0] + sep, Join(tail, sep), Offset(tail, sep, i - 1), parts[i]);
    if i + 1 < |parts| {
      JoinLaterSeparator(parts, sep, i);
    }
  }

  /** The separator after a later part, shifted the same way. */
  lemma {:induction false} JoinLaterSeparator(parts: seq<string>, sep: string, i: nat)
    requires 0 < i && i + 1 < |parts|
    ensures Offset(parts, sep, i + 1) <= |Join(parts, sep)|
    ensures Join(parts, sep)[Offset(parts, sep, i) + |parts[i]|..Offset(parts, sep, i + 1)] == sep
    decreases |parts|, 0
  {
    var tail := parts[1..];
    assert tail[i - 1] == parts[i];
    JoinPlacesParts(tail, sep, i - 1);
    JoinSplit(parts, sep);
    OffsetTail(parts, sep, i);
    OffsetTail(parts, sep, i + 1);
    ShiftedSlice(parts[0] + sep, Join(tail, sep), Offset(tail, sep, i - 1) + |parts[i]|, sep);
  }

  /** The join holds the parts and one separator between each two of them
      and nothing else: it is empty for no parts, and otherwise ends where
      the separator after the last part would begin. */
  lemma {:induction false} JoinLength(parts: seq<string>, sep: string)
    ensures |Join(parts, sep)| == if parts == [] then 0 else Offset(parts, sep, |parts|) - |sep|
    decreases |parts|
  {
    if 1 < |parts| {
      JoinLength(parts[1..], sep);
      OffsetTail(parts, sep, |parts|);
    }
  }

  /** Several parts join as the first, a separator, and the join of the rest. */
  lemma JoinSplit(parts: seq<string>, sep: string)
    requires 1 < |parts|
    ensures Join(parts, sep) == (parts[0] + sep) + Join(parts[1..], sep)
  {
  }

  /** A piece found in the second half of a concatenation is found in the
      whole, shifted by the first half. */
  lemma ShiftedSlice<T>(a: seq<T>, b: seq<T>, lo: nat, x: seq<T>)
    requires lo + |x| <= |b| && b[lo..lo + |x|] == x
    ensures |a| + lo + |x| <= |a + b| && (a + b)[|a| + lo..|a| + lo + |x|] == x
  {
    SliceOfSecond(a, b, lo, lo + |x|);
  }
}
