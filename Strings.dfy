/**
 * Character-level string helpers used by both the browser code and the
 * Python services: trimming, splitting on a separator, substring search,
 * ASCII case mapping and decimal rendering of naturals.
 */
module Strings {

  /** The characters JavaScript's `trim()` and `\s` treat as white space:
      the WhiteSpace and LineTerminator productions of ECMAScript, that is
      tab, line tabulation, form feed, space, no-break space, the byte order
      mark, the Unicode space separators, line feed, carriage return and the
      line and paragraph separators. */
  predicate IsSpace(c: char) {
    || '\t' <= c <= '\r'
    || c == ' ' || c == '\U{A0}' || c == '\U{1680}'
    || '\U{2000}' <= c <= '\U{200A}'
    || c == '\U{2028}' || c == '\U{2029}' || c == '\U{202F}' || c == '\U{205F}'
    || c == '\U{3000}' || c == '\U{FEFF}'
  }

  /** The characters Python's `str.isspace()` accepts and `str.strip()`
      removes: those of bidirectional class WS, B or S or of category Zs.
      Beside JavaScript's set this adds the four information separators
      U+001C to U+001F and next line U+0085, and leaves out the byte order
      mark. */
  predicate IsPySpace(c: char) {
    || '\t' <= c <= '\r'
    || '\U{1C}' <= c <= '\U{1F}'
    || c == ' ' || c == '\U{85}' || c == '\U{A0}' || c == '\U{1680}'
    || '\U{2000}' <= c <= '\U{200A}'
    || c == '\U{2028}' || c == '\U{2029}' || c == '\U{202F}' || c == '\U{205F}'
    || c == '\U{3000}'
  }

  /** Where the two sets part: every other character is white space to both
      languages or to neither. */
  lemma SpaceSetsDiffer(c: char)
    ensures IsPySpace(c) && !IsSpace(c) <==> '\U{1C}' <= c <= '\U{1F}' || c == '\U{85}'
    ensures IsSpace(c) && !IsPySpace(c) <==> c == '\U{FEFF}'
  {
  }

  /** Removes every leading character satisfying `drop`. */
  function DropLeading(s: string, drop: char -> bool): (r: string)
    ensures |r| <= |s| && r == s[|s| - |r|..]
    ensures r != [] ==> !drop(r[0])
    ensures forall i :: 0 <= i < |s| - |r| ==> drop(s[i])
  {
    if s != [] && drop(s[0]) then DropLeading(s[1..], drop) else s
  }

  /** Removes every trailing character satisfying `drop`. */
  function DropTrailing(s: string, drop: char -> bool): (r: string)
    ensures |r| <= |s| && r == s[..|r|]
    ensures r != [] ==> !drop(r[|r| - 1])
    ensures forall i :: |r| <= i < |s| ==> drop(s[i])
  {
    if s != [] && drop(s[|s| - 1]) then DropTrailing(s[..|s| - 1], drop) else s
  }

  /** Removes leading and trailing characters satisfying `drop`. */
  function Strip(s: string, drop: char -> bool): string {
    DropTrailing(DropLeading(s, drop), drop)
  }

  /** JavaScript `String.prototype.trim`. */
  function Trim(s: string): string {
    Strip(s, IsSpace)
  }

  /** Python `str.strip()` with no argument. */
  function PyTrim(s: string): string {
    Strip(s, IsPySpace)
  }

  /** `r` is a contiguous piece of `s` with only droppable characters cut
      off on either side. */
  predicate CutFrom(s: string, r: string, drop: char -> bool) {
    exists i, j :: 0 <= i <= j <= |s| && r == s[i..j]
                   && (forall k :: 0 <= k < i ==> drop(s[k]))
                   && (forall k :: j <= k < |s| ==> drop(s[k]))
  }

  /** A slice with only droppable characters on either side is cut from
      its string. */
  lemma CutAt(s: string, drop: char -> bool, i: int, j: int)
    requires 0 <= i <= j <= |s|
    requires forall k :: 0 <= k < i ==> drop(s[k])
    requires forall k :: j <= k < |s| ==> drop(s[k])
    ensures CutFrom(s, s[i..j], drop)
  {
  }

  /** Where `Strip` cuts: the bounds of the piece it keeps. */
  lemma StripBounds(s: string, drop: char -> bool) returns (i: int, j: int)
    ensures 0 <= i <= j <= |s| && Strip(s, drop) == s[i..j]
    ensures forall k :: 0 <= k < i ==> drop(s[k])
    ensures forall k :: j <= k < |s| ==> drop(s[k])
  {
    var l := DropLeading(s, drop);
    var r := DropTrailing(l, drop);
    i := |s| - |l|;
    j := i + |r|;
    forall k | j <= k < |s| ensures drop(s[k]) {
      assert s[k] == l[k - i];
    }
    assert l == s[i..];
    assert r == l[..|r|];
  }

  /** The piece `Strip` keeps neither begins nor ends with a droppable
      character. */
  lemma StripEnds(s: string, drop: char -> bool)
    ensures var r := Strip(s, drop); r != [] ==> !drop(r[0]) && !drop(r[|r| - 1])
  {
    var l := DropLeading(s, drop);
    var r := DropTrailing(l, drop);
    if r != [] {
      assert r[0] == l[0];
    }
  }

  /** `Strip` leaves a contiguous piece of its input that neither begins nor
      ends with a dropped character, and everything cut off was droppable. */
  lemma StripShape(s: string, drop: char -> bool)
    ensures CutFrom(s, Strip(s, drop), drop)
    ensures var r := Strip(s, drop); r != [] ==> !drop(r[0]) && !drop(r[|r| - 1])
  {
    var i, j := StripBounds(s, drop);
    CutAt(s, drop, i, j);
    StripEnds(s, drop);
  }

  /** Stripping twice is the same as stripping once. */
  lemma StripIdempotent(s: string, drop: char -> bool)
    ensures Strip(Strip(s, drop), drop) == Strip(s, drop)
  {
    var l := DropLeading(s, drop);
    var r := DropTrailing(l, drop);
    if r != [] {
      assert r[0] == l[0];
      assert DropLeading(r, drop) == r;
    }
  }

  /** A string made only of droppable characters strips to the empty string. */
  lemma StripAllDropped(s: string, drop: char -> bool)
    requires forall k :: 0 <= k < |s| ==> drop(s[k])
    ensures Strip(s, drop) == ""
  {
  }

  /** A string that neither begins nor ends with a droppable character is
      left unchanged. */
  lemma StripUnchanged(s: string, drop: char -> bool)
    requires s != [] ==> !drop(s[0]) && !drop(s[|s| - 1])
    ensures Strip(s, drop) == s
  {
  }

  /** Cutting droppable characters off the ends keeps every other one. */
  lemma CutKeeps(s: string, r: string, drop: char -> bool, c: char)
    requires CutFrom(s, r, drop) && !drop(c)
    ensures c in r <==> c in s
  {
    var i, j :| 0 <= i <= j <= |s| && r == s[i..j]
      && (forall k :: 0 <= k < i ==> drop(s[k]))
      && (forall k :: j <= k < |s| ==> drop(s[k]));
    if c in s {
      var k :| 0 <= k < |s| && s[k] == c;
      assert r[k - i] == c;
    }
  }

  /** Trimming keeps every non-space character. */
  lemma TrimKeeps(s: string, c: char)
    requires !IsSpace(c)
    ensures c in Trim(s) <==> c in s
  {
    StripShape(s, IsSpace);
    CutKeeps(s, Trim(s), IsSpace, c);
  }

  /** Nothing but white space: what `!value.trim()` tests. */
  predicate Blank(s: string) {
    forall k :: 0 <= k < |s| ==> IsSpace(s[k])
  }

  /** Nothing but white space to Python: what `not value.strip()` tests. */
  predicate PyBlank(s: string) {
    forall k :: 0 <= k < |s| ==> IsPySpace(s[k])
  }

  /** Stripping leaves nothing exactly when every character is dropped. */
  lemma StripEmpty(s: string, drop: char -> bool)
    ensures Strip(s, drop) == "" <==> forall k :: 0 <= k < |s| ==> drop(s[k])
  {
    if forall k :: 0 <= k < |s| ==> drop(s[k]) {
      StripAllDropped(s, drop);
    }
    if Strip(s, drop) == "" {
      StripShape(s, drop);
      var i, j :| 0 <= i <= j <= |s| && "" == s[i..j]
        && (forall k :: 0 <= k < i ==> drop(s[k]))
        && (forall k :: j <= k < |s| ==> drop(s[k]));
      assert i == j;
    }
  }

  /** `Blank` is exactly "trims to the empty string". */
  lemma BlankIsEmptyTrim(s: string)
    ensures Blank(s) <==> Trim(s) == ""
  {
    StripEmpty(s, IsSpace);
  }

  /** `PyBlank` is exactly "strips to the empty string". */
  lemma PyBlankIsEmptyTrim(s: string)
    ensures PyBlank(s) <==> PyTrim(s) == ""
  {
    StripEmpty(s, IsPySpace);
  }

  /** `t` occurs in `s` as a contiguous substring. */
  predicate Contains(s: string, t: string) {
    exists i | 0 <= i <= |s| :: OccursAt(s, t, i)
  }

  /** `t` cannot occur in `s` when no start position carries `t`'s first character. */
  lemma NoOccurrence(s: string, t: string)
    requires t != []
    requires forall i :: 0 <= i && i + |t| <= |s| ==> s[i] != t[0]
    ensures !Contains(s, t)
  {
    forall i | 0 <= i <= |s| ensures !OccursAt(s, t, i) {
      if i + |t| <= |s| {
        assert s[i..i + |t|][0] == s[i];
      }
    }
  }

  /** Every string contains itself. */
  lemma ContainsSelf(s: string)
    ensures Contains(s, s)
  {
    assert OccursAt(s, s, 0);
  }

  /** A string cannot contain a longer one. */
  lemma LongerNotContained(s: string, t: string)
    requires |t| > |s|
    ensures !Contains(s, t)
  {
  }

  /** `s.startsWith(p)`. */
  predicate StartsWith(s: string, p: string) {
    |p| <= |s| && s[..|p|] == p
  }

  /** `t` occurs in `s` starting at index `i`. */
  predicate OccursAt(s: string, t: string, i: int) {
    0 <= i && i + |t| <= |s| && s[i..i + |t|] == t
  }

  /** Index of the first occurrence of `c` in `s`. */
  function IndexOf(s: string, c: char): (i: nat)
    requires c in s
    ensures i < |s| && s[i] == c && c !in s[..i]
  {
    if s[0] == c then 0 else 1 + IndexOf(s[1..], c)
  }

  /** Concatenation of `parts` with `sep` between consecutive parts. */
  function Join(parts: seq<string>, sep: char): string
    requires |parts| >= 1
  {
    if |parts| == 1 then parts[0] else parts[0] + [sep] + Join(parts[1..], sep)
  }

  /** JavaScript `s.split(c)` / Python `s.split(c)` for a one-character
      separator: the maximal separator-free pieces, empty pieces included. */
  function Split(s: string, sep: char): (parts: seq<string>)
    ensures |parts| >= 1
    ensures forall k :: 0 <= k < |parts| ==> sep !in parts[k]
    ensures Join(parts, sep) == s
    decreases |s|
  {
    if sep in s then
      var i := IndexOf(s, sep);
      assert s == s[..i] + [sep] + s[i + 1..];
      [s[..i]] + Split(s[i + 1..], sep)
    else
      [s]
  }

  /** The first `c` in `a + [c] + b` is the one after `a` when `a` has none. */
  lemma {:induction false} IndexOfAfter(a: string, c: char, b: string)
    requires c !in a
    ensures c in a + [c] + b && IndexOf(a + [c] + b, c) == |a|
    decreases |a|
  {
    var s := a + [c] + b;
    assert s[|a|] == c;
    if a != [] {
      assert s[1..] == a[1..] + [c] + b;
      IndexOfAfter(a[1..], c, b);
    }
  }

  /** Splitting undoes joining when no piece holds the separator. */
  lemma {:induction false} SplitJoin(parts: seq<string>, sep: char)
    requires |parts| >= 1
    requires forall k :: 0 <= k < |parts| ==> sep !in parts[k]
    ensures Split(Join(parts, sep), sep) == parts
    decreases |parts|
  {
    if |parts| > 1 {
      var rest := Join(parts[1..], sep);
      var s := Join(parts, sep);
      assert s == parts[0] + [sep] + rest;
      IndexOfAfter(parts[0], sep, rest);
      assert s[..|parts[0]|] == parts[0];
      assert s[|parts[0]| + 1..] == rest;
      assert sep in s;
      assert Split(s, sep) == [s[..|parts[0]|]] + Split(s[|parts[0]| + 1..], sep);
      SplitJoin(parts[1..], sep);
      assert parts == [parts[0]] + parts[1..];
    } else {
      assert Join(parts, sep) == parts[0];
      assert sep !in parts[0];
    }
  }

  /** Joining two non-empty lists is joining each and putting the separator between. */
  lemma {:induction false} JoinAppend(a: seq<string>, b: seq<string>, sep: char)
    requires |a| >= 1 && |b| >= 1
    ensures Join(a + b, sep) == Join(a, sep) + [sep] + Join(b, sep)
    decreases |a|
  {
    if |a| == 1 {
      assert (a + b)[1..] == b;
    } else {
      assert (a + b)[1..] == a[1..] + b;
      JoinAppend(a[1..], b, sep);
    }
  }

  /** Two separator-free pieces joined by the separator split back apart. */
  lemma SplitTwo(a: string, b: string, sep: char)
    requires sep !in a && sep !in b
    ensures Split(a + [sep] + b, sep) == [a, b]
  {
    assert Join([a, b], sep) == a + [sep] + b;
    SplitJoin([a, b], sep);
  }

  /** `s.split(sep)[-1]`. */
  function LastPiece(s: string, sep: char): string {
    var p := Split(s, sep);
    p[|p| - 1]
  }

  /** The last piece of a split is the text after the last separator, or
      the whole string when there is no separator. */
  lemma SplitLast(s: string, sep: char)
    ensures var last := LastPiece(s, sep);
      && |last| <= |s| && last == s[|s| - |last|..] && sep !in last
      && (sep in s <==> |last| < |s|)
      && (|last| < |s| ==> s[|s| - |last| - 1] == sep)
  {
    var p := Split(s, sep);
    var n := |p|;
    var last := p[n - 1];
    if n > 1 {
      var init := p[..n - 1];
      assert p == init + [last];
      JoinAppend(init, [last], sep);
      var head := Join(init, sep);
      assert s == head + [sep] + last;
      assert s[|s| - |last| - 1] == sep;
      assert s[|s| - |last|..] == last;
    }
  }

  /** The pieces that are not empty, in order (JavaScript `.filter(x => x)`). */
  function NonEmpty(parts: seq<string>): (r: seq<string>)
    ensures forall k :: 0 <= k < |r| ==> r[k] != "" && r[k] in parts
    ensures |r| <= |parts|
  {
    if parts == [] then []
    else if parts[0] == "" then NonEmpty(parts[1..])
    else [parts[0]] + NonEmpty(parts[1..])
  }

  function LowerChar(c: char): char {
    if 'A' <= c <= 'Z' then (c as int + 32) as char else c
  }

  function UpperChar(c: char): char {
    if 'a' <= c <= 'z' then (c as int - 32) as char else c
  }

  /** ASCII `toLowerCase()` / `lower()`. */
  function Lower(s: string): (r: string)
    ensures |r| == |s| && forall k :: 0 <= k < |s| ==> r[k] == LowerChar(s[k])
  {
    seq(|s|, k requires 0 <= k < |s| => LowerChar(s[k]))
  }

  /** ASCII `upper()`. */
  function Upper(s: string): (r: string)
    ensures |r| == |s| && forall k :: 0 <= k < |s| ==> r[k] == UpperChar(s[k])
  {
    seq(|s|, k requires 0 <= k < |s| => UpperChar(s[k]))
  }

  /** No character is an upper-case ASCII letter. */
  predicate NoUpper(s: string) {
    forall k :: 0 <= k < |s| ==> !('A' <= s[k] <= 'Z')
  }

  lemma LowerHasNoUpper(s: string)
    ensures NoUpper(Lower(s))
  {
  }

  lemma NoUpperIsLower(s: string)
    requires NoUpper(s)
    ensures Lower(s) == s
  {
  }

  lemma LowerConcat(a: string, b: string)
    ensures Lower(a + b) == Lower(a) + Lower(b)
  {
    assert forall k :: 0 <= k < |a + b| ==> Lower(a + b)[k] == (Lower(a) + Lower(b))[k];
  }

  /** Lower-casing maps no other character to '/'. */
  lemma LowerKeepsSlashes(s: string)
    ensures '/' in Lower(s) <==> '/' in s
  {
    if '/' in Lower(s) {
      var k :| 0 <= k < |s| && Lower(s)[k] == '/';
    }
    if '/' in s {
      var k :| 0 <= k < |s| && s[k] == '/';
      assert Lower(s)[k] == '/';
    }
  }

  predicate IsDigit(c: char) { '0' <= c <= '9' }

  predicate IsAsciiAlnum(c: char) {
    IsDigit(c) || 'a' <= c <= 'z' || 'A' <= c <= 'Z'
  }

  /** Decimal rendering of a natural number, as `${n}` does. */
  function NatToString(n: nat): (r: string)
    ensures r != [] && forall k :: 0 <= k < |r| ==> IsDigit(r[k])
  {
    if n < 10 then [(n + 48) as char]
    else NatToString(n / 10) + [(n % 10 + 48) as char]
  }

  /** Decimal rendering of an integer, with a leading '-' when negative. */
  function IntToString(n: int): string {
    if n < 0 then "-" + NatToString(-n) else NatToString(n)
  }
}
