/** String helpers with the meaning the TypeScript runtime gives them:
    `toLowerCase`, `trim`, `includes`, `join`, number formatting, and the
    leftmost-match capture that the source's small regular expressions
    (`/max-age=(\d+)/`, `/ver=([\d.]+)/`, `/author\/([^\/\"]+)/`,
    `/wp-content\/themes\/([^\/\"]+)/`) perform. */
module Text {
  import opened Wrappers

  /** ASCII case folding: 'A'..'Z' map to 'a'..'z', every other character is kept. */
  function LowerChar(c: char): char {
    if 'A' <= c <= 'Z' then (c as int + 32) as char else c
  }

  function ToLower(s: string): (r: string)
    ensures |r| == |s|
    ensures forall i :: 0 <= i < |s| ==> r[i] == LowerChar(s[i])
  {
    seq(|s|, i requires 0 <= i < |s| => LowerChar(s[i]))
  }

  lemma ToLowerIdempotent(s: string)
    ensures ToLower(ToLower(s)) == ToLower(s)
  {
  }

  /** `s.length` in JavaScript: the number of UTF-16 code units. A character
      outside the Basic Multilingual Plane takes a surrogate pair. */
  function Utf16Length(s: string): (n: nat)
    ensures |s| <= n <= 2 * |s|
  {
    if s == [] then 0
    else Utf16Length(s[..|s| - 1]) + (if s[|s| - 1] as int > 0xFFFF then 2 else 1)
  }

  /** A string of Basic Multilingual Plane characters has one code unit per
      character, and one of characters beyond it has two. */
  lemma {:induction false} Utf16LengthBounds(s: string)
    ensures (forall i :: 0 <= i < |s| ==> s[i] as int <= 0xFFFF) ==> Utf16Length(s) == |s|
    ensures (forall i :: 0 <= i < |s| ==> s[i] as int > 0xFFFF) ==> Utf16Length(s) == 2 * |s|
  {
    if s != [] {
      Utf16LengthBounds(s[..|s| - 1]);
    }
  }

  /** The characters `String.prototype.trim` removes: the ECMAScript
      WhiteSpace and LineTerminator code points. */
  predicate IsJsWhitespace(c: char) {
    var n := c as int;
    n == 0x09 || n == 0x0A || n == 0x0B || n == 0x0C || n == 0x0D || n == 0x20
    || n == 0xA0 || n == 0x1680 || (0x2000 <= n <= 0x200A) || n == 0x2028 || n == 0x2029
    || n == 0x202F || n == 0x205F || n == 0x3000 || n == 0xFEFF
  }

  function TrimStart(s: string): (r: string)
    ensures |r| <= |s| && r == s[|s| - |r|..]
    ensures r == [] || !IsJsWhitespace(r[0])
    ensures forall i :: 0 <= i < |s| - |r| ==> IsJsWhitespace(s[i])
  {
    if s != [] && IsJsWhitespace(s[0]) then TrimStart(s[1..]) else s
  }

  function TrimEnd(s: string): (r: string)
    ensures |r| <= |s| && r == s[..|r|]
    ensures r == [] || !IsJsWhitespace(r[|r| - 1])
    ensures forall i :: |r| <= i < |s| ==> IsJsWhitespace(s[i])
  {
    if s != [] && IsJsWhitespace(s[|s| - 1]) then TrimEnd(s[..|s| - 1]) else s
  }

  function Trim(s: string): string {
    TrimEnd(TrimStart(s))
  }

  /** `p` occurs in `s` starting at index `i`. */
  predicate OccursAt(s: string, p: string, i: int) {
    0 <= i && i + |p| <= |s| && s[i..i + |p|] == p
  }

  /** `s.includes(p)`. */
  predicate Contains(s: string, p: string) {
    exists i :: 0 <= i <= |s| && OccursAt(s, p, i)
  }

  lemma ContainsLeft(a: string, b: string, p: string)
    requires Contains(a, p)
    ensures Contains(a + b, p)
  {
    var i :| 0 <= i <= |a| && OccursAt(a, p, i);
    assert (a + b)[i..i + |p|] == a[i..i + |p|];
    assert OccursAt(a + b, p, i);
  }

  lemma ContainsRight(a: string, b: string, p: string)
    requires Contains(b, p)
    ensures Contains(a + b, p)
  {
    var i :| 0 <= i <= |b| && OccursAt(b, p, i);
    assert (a + b)[|a| + i..|a| + i + |p|] == b[i..i + |p|];
    assert OccursAt(a + b, p, |a| + i);
  }

  /** A non-empty pattern that does not contain the character `c` and occurs
      in `a + [c] + b` lies wholly inside `a` or wholly inside `b`. */
  lemma SplitOccurrence(a: string, c: char, b: string, p: string)
    requires p != [] && c !in p
    requires Contains(a + [c] + b, p)
    ensures Contains(a, p) || Contains(b, p)
  {
    var s := a + [c] + b;
    var i :| 0 <= i <= |s| && OccursAt(s, p, i);
    assert s[|a|] == c;
    assert forall k :: i <= k < i + |p| ==> s[k] == p[k - i];
    if i + |p| <= |a| {
      assert s[i..i + |p|] == a[i..i + |p|];
      assert OccursAt(a, p, i);
    } else if i > |a| {
      var j := i - |a| - 1;
      assert s[i..i + |p|] == b[j..j + |p|];
      assert OccursAt(b, p, j);
    } else {
      assert false;
    }
  }

  /** `parts.join(sep)`. */
  function Join(parts: seq<string>, sep: string): string {
    if |parts| == 0 then ""
    else if |parts| == 1 then parts[0]
    else parts[0] + sep + Join(parts[1..], sep)
  }

  predicate IsDigit(c: char) {
    '0' <= c <= '9'
  }

  /** Decimal value of a run of ASCII digits, as `parseInt` reads it. */
  function DecimalValue(ds: string): (v: nat)
    requires forall i :: 0 <= i < |ds| ==> IsDigit(ds[i])
  {
    if ds == [] then 0
    else
      assert IsDigit(ds[|ds| - 1]);
      DecimalValue(ds[..|ds| - 1]) * 10 + (ds[|ds| - 1] as int - '0' as int)
  }

  /** Decimal text of a natural number, as a template literal prints it. */
  function NatToString(n: nat): (s: string)
    ensures s != [] && forall i :: 0 <= i < |s| ==> IsDigit(s[i])
    ensures DecimalValue(s) == n
  {
    if n < 10 then [('0' as int + n) as char]
    else
      var rest := NatToString(n / 10);
      var last := ('0' as int + n % 10) as char;
      assert (rest + [last])[..|rest|] == rest;
      rest + [last]
  }

  /** The longest prefix of `s` whose characters all satisfy `accept`. */
  function Run(s: string, accept: char -> bool): (r: string)
    ensures r <= s
    ensures forall i :: 0 <= i < |r| ==> accept(r[i])
    ensures |r| == |s| || !accept(s[|r|])
  {
    if s != [] && accept(s[0]) then [s[0]] + Run(s[1..], accept) else []
  }

  /** Position `i` starts the regular expression `key([accept]+)`: the key,
      then at least one accepted character. */
  predicate MatchesAt(s: string, key: string, accept: char -> bool, i: int) {
    OccursAt(s, key, i) && i + |key| < |s| && accept(s[i + |key|])
  }

  /** The capture group of the leftmost match of `key([accept]+)` in `s`
      at or after position `from`, as `s.match(...)?.[1]` returns it. */
  function CaptureFrom(s: string, key: string, accept: char -> bool, from: nat): (r: Option<string>)
    decreases |s| - from
    ensures r.None? <==> forall i :: from <= i < |s| ==> !MatchesAt(s, key, accept, i)
    ensures r.Some? ==> exists i :: (from <= i < |s| && MatchesAt(s, key, accept, i)
      && (forall j :: from <= j < i ==> !MatchesAt(s, key, accept, j))
      && r.value == Run(s[i + |key|..], accept))
  {
    if from >= |s| then None
    else if MatchesAt(s, key, accept, from) then Some(Run(s[from + |key|..], accept))
    else CaptureFrom(s, key, accept, from + 1)
  }

  /** `s.match(/key([accept]+)/)?.[1]`: the capture of the leftmost match. */
  function Capture(s: string, key: string, accept: char -> bool): (r: Option<string>)
    ensures r.Some? ==> r.value != [] && forall i :: 0 <= i < |r.value| ==> accept(r.value[i])
    ensures r.None? <==> forall i :: 0 <= i < |s| ==> !MatchesAt(s, key, accept, i)
    ensures r.Some? ==> exists i :: (0 <= i < |s| && MatchesAt(s, key, accept, i)
      && (forall j :: 0 <= j < i ==> !MatchesAt(s, key, accept, j))
      && r.value == Run(s[i + |key|..], accept))
  {
    CaptureFrom(s, key, accept, 0)
  }
}
