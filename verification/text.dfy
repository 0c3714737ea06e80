/** String helpers that the application takes from the JavaScript runtime:
    `trim`, the `\s` class, `toLowerCase`, `includes`, `split(" ")` /
    `join(" ")`, UTF-16 `length`, the `x || d` default for optional strings
    and decimal rendering of integers in template literals. */
module Text {
  import opened Wrappers

  /** ECMAScript WhiteSpace and LineTerminator code points: exactly the
      characters the regular-expression class `\s` matches and
      `String.prototype.trim` removes. */
  predicate IsSpace(c: char) {
    || c == '\t' || c == '\n' || c == '\U{000B}' || c == '\U{000C}' || c == '\r'
    || c == ' ' || c == '\U{00A0}' || c == '\U{1680}'
    || ('\U{2000}' <= c <= '\U{200A}')
    || c == '\U{2028}' || c == '\U{2029}' || c == '\U{202F}' || c == '\U{205F}'
    || c == '\U{3000}' || c == '\U{FEFF}'
  }

  predicate AllSpace(s: string) {
    forall i :: 0 <= i < |s| ==> IsSpace(s[i])
  }

  /** The end of the run of white space that starts at `i`: the greedy `\s*`. */
  function SkipSpaces(s: string, i: nat): (j: nat)
    requires i <= |s|
    ensures i <= j <= |s|
    ensures forall k :: i <= k < j ==> IsSpace(s[k])
    ensures j < |s| ==> !IsSpace(s[j])
    decreases |s| - i
  {
    if i < |s| && IsSpace(s[i]) then SkipSpaces(s, i + 1) else i
  }

  /** The start of the run of white space that ends at `j`, not going below `lo`. */
  function SkipSpacesBack(s: string, lo: nat, j: nat): (b: nat)
    requires lo <= j <= |s|
    ensures lo <= b <= j
    ensures forall k :: b <= k < j ==> IsSpace(s[k])
    ensures b > lo ==> !IsSpace(s[b - 1])
    decreases j
  {
    if j > lo && IsSpace(s[j - 1]) then SkipSpacesBack(s, lo, j - 1) else j
  }

  /** Starting the scan anywhere inside a white-space run ends it at the same place. */
  lemma {:induction false} SkipSpacesFrom(s: string, i: nat, w: nat)
    requires i <= w <= |s|
    requires forall k :: i <= k < w ==> IsSpace(s[k])
    ensures SkipSpaces(s, i) == SkipSpaces(s, w)
    decreases w - i
  {
    if i < w {
      SkipSpacesFrom(s, i + 1, w);
    }
  }

  /** Scanning a suffix is scanning the whole string, shifted. */
  lemma {:induction false} SkipSpacesShift(s: string, w: nat, i: nat)
    requires w <= |s| && i <= |s| - w
    ensures SkipSpaces(s[w..], i) + w == SkipSpaces(s, i + w)
    decreases |s| - w - i
  {
    if i < |s| - w && IsSpace(s[w..][i]) {
      SkipSpacesShift(s, w, i + 1);
    }
  }

  lemma {:induction false} SkipSpacesBackShift(s: string, w: nat, lo: nat, j: nat)
    requires w <= |s| && lo <= j <= |s| - w
    ensures SkipSpacesBack(s[w..], lo, j) + w == SkipSpacesBack(s, lo + w, j + w)
    decreases j
  {
    if j > lo && IsSpace(s[w..][j - 1]) {
      SkipSpacesBackShift(s, w, lo, j - 1);
    }
  }

  /** `String.prototype.trim`: the result is a slice of `s` that neither
      starts nor ends with white space, and only white space lies around it. */
  function Trim(s: string): (r: string)
    ensures exists a, b :: 0 <= a <= b <= |s| && r == s[a..b] && AllSpace(s[..a]) && AllSpace(s[b..])
    ensures r == [] || (!IsSpace(r[0]) && !IsSpace(r[|r| - 1]))
    ensures r == [] <==> AllSpace(s)
  {
    var a := SkipSpaces(s, 0);
    var b := SkipSpacesBack(s, a, |s|);
    TrimBounds(s);
    s[a..b]
  }

  /** Where the two scans that `Trim` uses stop. */
  lemma TrimBounds(s: string)
    ensures var a := SkipSpaces(s, 0); var b := SkipSpacesBack(s, a, |s|);
      && AllSpace(s[..a]) && AllSpace(s[b..])
      && (a < b ==> !IsSpace(s[a]) && !IsSpace(s[b - 1]))
      && (a == b <==> AllSpace(s))
  {
    var a := SkipSpaces(s, 0);
    var b := SkipSpacesBack(s, a, |s|);
    SpaceRun(s, 0, a);
    SpaceRun(s, b, |s|);
    if a == b {
      assert s[..a] == s;
    }
  }

  /** A stretch of white space, seen as its own string. */
  lemma SpaceRun(s: string, i: nat, j: nat)
    requires i <= j <= |s| && forall k :: i <= k < j ==> IsSpace(s[k])
    ensures AllSpace(s[i..j])
  {
    assert forall k :: 0 <= k < j - i ==> s[i..j][k] == s[i + k];
  }

  /** Trimming is idempotent. */
  lemma TrimIdempotent(s: string)
    ensures Trim(Trim(s)) == Trim(s)
  {
    var r := Trim(s);
    if r != [] {
      TrimKeepsSpaceFreeEnds(r);
    }
  }

  /** A string that neither starts nor ends with white space is its own trim. */
  lemma TrimKeepsSpaceFreeEnds(s: string)
    requires s != [] && !IsSpace(s[0]) && !IsSpace(s[|s| - 1])
    ensures Trim(s) == s
  {
    assert SkipSpaces(s, 0) == 0;
    assert SkipSpacesBack(s, 0, |s|) == |s|;
  }

  /** Dropping leading white space before trimming changes nothing. */
  lemma TrimAfterLeadingSpace(s: string, w: nat)
    requires w <= |s| && forall k :: 0 <= k < w ==> IsSpace(s[k])
    ensures Trim(s[w..]) == Trim(s)
  {
    var t := s[w..];
    var a' := SkipSpaces(t, 0);
    var b' := SkipSpacesBack(t, a', |t|);
    var a := SkipSpaces(s, 0);
    var b := SkipSpacesBack(s, a, |s|);
    SkipSpacesShift(s, w, 0);
    SkipSpacesFrom(s, 0, w);
    assert a == a' + w;
    SkipSpacesBackShift(s, w, a', |t|);
    assert b == b' + w;
    SliceOfSuffix(s, w, a', b');
    calc {
      Trim(t);
      t[a'..b'];
      s[w + a'..w + b'];
      s[a..b];
      Trim(s);
    }
  }

  /** The same, for a slice `s[i..j]` whose first `g - i` characters are
      white space. */
  lemma TrimSkipsLeadingSpace(s: string, i: nat, g: nat, j: nat)
    requires i <= g <= j <= |s|
    requires forall k :: i <= k < g ==> IsSpace(s[k])
    ensures Trim(s[g..j]) == Trim(s[i..j])
  {
    var body := s[i..j];
    var w := g - i;
    assert s[g..j] == body[w..];
    assert forall k :: 0 <= k < w ==> body[k] == s[i + k];
    TrimAfterLeadingSpace(body, w);
  }

  lemma SliceOfSuffix(s: string, w: nat, i: nat, j: nat)
    requires w <= |s| && i <= j <= |s| - w
    ensures s[w..][i..j] == s[w + i..w + j]
  {
  }

  /** `haystack.startsWith(prefix)`. */
  predicate StartsWith(haystack: string, prefix: string) {
    |prefix| <= |haystack| && haystack[..|prefix|] == prefix
  }

  /** `haystack.includes(needle)`. */
  predicate Contains(haystack: string, needle: string) {
    exists i | 0 <= i <= |haystack| - |needle| :: StartsWith(haystack[i..], needle)
  }

  /** A string containing `needle` contains every prefix of `needle`. */
  lemma ContainsPrefix(haystack: string, needle: string, k: nat)
    requires k <= |needle| && Contains(haystack, needle)
    ensures Contains(haystack, needle[..k])
  {
    var i :| 0 <= i <= |haystack| - |needle| && StartsWith(haystack[i..], needle);
    assert haystack[i..][..k] == needle[..k] by {
      assert haystack[i..][..k] == haystack[i..][..|needle|][..k];
    }
    assert StartsWith(haystack[i..], needle[..k]);
  }

  /** A string contains whatever is spliced into its middle. */
  lemma ContainsMiddle(a: string, b: string, c: string)
    ensures Contains(a + b + c, b)
  {
    var s := a + b + c;
    assert s[|a|..][..|b|] == b;
  }

  /** `toLowerCase` restricted to the ASCII letters (see README). */
  function LowerChar(c: char): (r: char)
    ensures 'A' <= c <= 'Z' ==> r as int == c as int + 32
    ensures !('A' <= c <= 'Z') ==> r == c
  {
    if 'A' <= c <= 'Z' then (c as int + 32) as char else c
  }

  function ToLower(s: string): (r: string)
    ensures |r| == |s|
    ensures forall i :: 0 <= i < |s| ==> r[i] == LowerChar(s[i])
  {
    seq(|s|, i requires 0 <= i < |s| => LowerChar(s[i]))
  }

  /** Lower-casing leaves no upper-case ASCII letter and is idempotent. */
  lemma ToLowerIdempotent(s: string)
    ensures forall i :: 0 <= i < |s| ==> !('A' <= ToLower(s)[i] <= 'Z')
    ensures ToLower(ToLower(s)) == ToLower(s)
  {
  }

  /** The value of `s.length` in JavaScript: UTF-16 code units, two for a
      character outside the Basic Multilingual Plane. */
  function Utf16Length(s: string): (n: nat)
    ensures |s| <= n <= 2 * |s|
    ensures (forall i :: 0 <= i < |s| ==> s[i] as int <= 0xFFFF) ==> n == |s|
  {
    if s == [] then 0
    else (if s[0] as int > 0xFFFF then 2 else 1) + Utf16Length(s[1..])
  }

  predicate IsDigit(c: char) {
    '0' <= c <= '9'
  }

  predicate AllDigits(s: string) {
    forall i :: 0 <= i < |s| ==> IsDigit(s[i])
  }

  /** JavaScript `x || d` for a value that is a string or missing: the empty
      string and a missing value are both falsy. */
  predicate Truthy(x: Option<string>) {
    x.Some? && x.value != ""
  }

  function OrDefault(x: Option<string>, d: string): (r: string)
    ensures Truthy(x) ==> r == x.value
    ensures !Truthy(x) ==> r == d
  {
    if Truthy(x) then x.value else d
  }

  /** What a template literal `${x}` renders for a string-or-missing value. */
  function Interpolate(x: Option<string>): string {
    x.GetOr("undefined")
  }

  /** `s.split(sep)` for a one-character separator: empty pieces are kept, so
      there is always one more piece than there are separators. */
  function Split(s: string, sep: char): (parts: seq<string>)
    ensures |parts| >= 1
    ensures forall k :: 0 <= k < |parts| ==> sep !in parts[k]
  {
    if s == [] then [""]
    else if s[0] == sep then [""] + Split(s[1..], sep)
    else
      var rest := Split(s[1..], sep);
      [[s[0]] + rest[0]] + rest[1..]
  }

  /** `parts.join(sep)`. */
  function Join(parts: seq<string>, sep: char): string {
    if parts == [] then ""
    else if |parts| == 1 then parts[0]
    else parts[0] + [sep] + Join(parts[1..], sep)
  }

  /** Joining the pieces of a split gives the original string back. */
  lemma {:induction false} JoinSplit(s: string, sep: char)
    ensures Join(Split(s, sep), sep) == s
  {
    if s == [] {
    } else if s[0] == sep {
      JoinSplit(s[1..], sep);
      assert s == [sep] + s[1..];
    } else {
      var rest := Split(s[1..], sep);
      JoinSplit(s[1..], sep);
      if |rest| == 1 {
        assert s == [s[0]] + rest[0];
      } else {
        assert Join(rest, sep) == rest[0] + [sep] + Join(rest[1..], sep);
        assert s == [s[0]] + s[1..];
      }
    }
  }

  /** Joining the first `k` pieces gives a prefix of joining them all. */
  lemma {:induction false} JoinPrefix(parts: seq<string>, k: nat, sep: char)
    requires k <= |parts|
    ensures StartsWith(Join(parts, sep), Join(parts[..k], sep))
    decreases k
  {
    var whole := Join(parts, sep);
    if k == 0 {
      assert Join(parts[..k], sep) == "";
    } else if k == |parts| {
      assert parts[..k] == parts;
    } else if k == 1 {
      assert Join(parts[..k], sep) == parts[0];
      assert whole == parts[0] + ([sep] + Join(parts[1..], sep));
    } else {
      var tail := parts[1..];
      JoinPrefix(tail, k - 1, sep);
      assert parts[..k][1..] == tail[..k - 1];
      var head := parts[0] + [sep];
      var part := Join(tail[..k - 1], sep);
      assert Join(parts[..k], sep) == head + part;
      assert whole == head + Join(tail, sep);
      assert whole[..|head| + |part|] == head + Join(tail, sep)[..|part|];
    }
  }

  /** Splitting a join of separator-free pieces gives the pieces back. */
  lemma {:induction false} SplitJoin(parts: seq<string>, sep: char)
    requires |parts| >= 1
    requires forall k :: 0 <= k < |parts| ==> sep !in parts[k]
    ensures Split(Join(parts, sep), sep) == parts
    decreases |parts|, |parts[0]|
  {
    var p := parts[0];
    if |parts| == 1 {
      SplitPiece(p, sep, []);
    } else {
      SplitJoin(parts[1..], sep);
      SplitPiece(p, sep, parts[1..]);
    }
  }

  /** Splitting a separator-free piece followed by a separator and more text. */
  lemma {:induction false} SplitPiece(p: string, sep: char, tail: seq<string>)
    requires sep !in p
    requires tail == [] || Split(Join(tail, sep), sep) == tail
    ensures tail == [] ==> Split(p, sep) == [p]
    ensures tail != [] ==> Split(p + [sep] + Join(tail, sep), sep) == [p] + tail
    decreases |p|
  {
    if p == [] {
      if tail != [] {
        assert ([] + [sep] + Join(tail, sep))[1..] == Join(tail, sep);
      }
    } else {
      SplitPiece(p[1..], sep, tail);
      if tail == [] {
        assert [p[0]] + p[1..] == p;
      } else {
        var s := p + [sep] + Join(tail, sep);
        assert s[1..] == p[1..] + [sep] + Join(tail, sep);
        assert s[0] == p[0];
        assert [p[0]] + p[1..] == p;
      }
    }
  }

  /** Decimal rendering of a natural number, most significant digit first. */
  function NatToString(n: nat): (s: string)
    ensures |s| >= 1 && AllDigits(s)
    ensures s[0] == '0' ==> n == 0
  {
    if n < 10 then [DigitChar(n)]
    else NatToString(n / 10) + [DigitChar(n % 10)]
  }

  function DigitChar(d: nat): (c: char)
    requires d < 10
    ensures IsDigit(c)
  {
    ('0' as int + d) as char
  }

  /** The value of a string of decimal digits. */
  function DigitsValue(s: string): nat
    requires AllDigits(s)
  {
    if s == [] then 0
    else 10 * DigitsValue(s[..|s| - 1]) + (s[|s| - 1] as int - '0' as int)
  }

  /** Reading back a rendered natural number gives the number. */
  lemma {:induction false} NatToStringRoundTrip(n: nat)
    ensures DigitsValue(NatToString(n)) == n
  {
    if n >= 10 {
      NatToStringRoundTrip(n / 10);
      var s := NatToString(n);
      assert s[..|s| - 1] == NatToString(n / 10);
    }
  }

  /** How a template literal renders an integer-valued number. */
  function IntToString(n: int): (s: string)
    ensures n >= 0 ==> s == NatToString(n)
    ensures n < 0 ==> s == "-" + NatToString(-n)
  {
    if n >= 0 then NatToString(n) else "-" + NatToString(-n)
  }
}
