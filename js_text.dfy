/** Models of the JavaScript string built-ins the application relies on:
    `trim`, `toLowerCase`, `includes`, `startsWith`/`endsWith`, `split`/`join`
    on a one-character separator, `String(n)` for a non-negative integer,
    `Number.parseInt(s, 10)` and `encodeURIComponent`. Strings are sequences of
    Unicode scalar values; whitespace and case are the ASCII subsets. */
module JsText {
  import opened Wrappers

  // ---------------------------------------------------------------------------
  // Whitespace and trim

  /** The whitespace characters `trim` and `\s` remove (ASCII subset). */
  predicate IsSpace(c: char) {
    c == ' ' || c == '\t' || c == '\n' || c == '\r' || c as int == 11 || c as int == 12
  }

  /** `s.trimStart()`: the suffix of `s` left after dropping leading whitespace. */
  function TrimStart(s: string): string
  {
    if |s| > 0 && IsSpace(s[0]) then TrimStart(s[1..]) else s
  }

  /** The result is a suffix whose first character is not whitespace, and
      everything dropped is whitespace. */
  lemma {:induction false} TrimStartSpec(s: string)
    ensures var r := TrimStart(s);
            |r| <= |s| && r == s[|s| - |r|..]
            && (forall k :: 0 <= k < |s| - |r| ==> IsSpace(s[k]))
            && (r == [] || !IsSpace(r[0]))
  {
    if |s| > 0 && IsSpace(s[0]) {
      TrimStartSpec(s[1..]);
    }
  }

  /** `s.trimEnd()`: the prefix of `s` left after dropping trailing whitespace. */
  function TrimEnd(s: string): string
  {
    if |s| > 0 && IsSpace(s[|s| - 1]) then TrimEnd(s[..|s| - 1]) else s
  }

  /** The result is a prefix whose last character is not whitespace, and
      everything dropped is whitespace. */
  lemma {:induction false} TrimEndSpec(s: string)
    ensures var r := TrimEnd(s);
            |r| <= |s| && r == s[..|r|]
            && (forall k :: |r| <= k < |s| ==> IsSpace(s[k]))
            && (r == [] || !IsSpace(r[|r| - 1]))
  {
    if |s| > 0 && IsSpace(s[|s| - 1]) {
      TrimEndSpec(s[..|s| - 1]);
    }
  }

  /** `s.trim()`. */
  function Trim(s: string): string {
    TrimEnd(TrimStart(s))
  }

  /** How many leading characters `trim` removes. */
  function TrimOffset(s: string): nat {
    TrimStartSpec(s);
    |s| - |TrimStart(s)|
  }

  /** The trimmed string is a slice of the input whose two ends are not
      whitespace, and everything cut off on either side is whitespace. */
  lemma {:induction false} TrimIsSlice(s: string)
    ensures TrimOffset(s) + |Trim(s)| <= |s|
    ensures Trim(s) == s[TrimOffset(s)..TrimOffset(s) + |Trim(s)|]
    ensures forall k :: 0 <= k < TrimOffset(s) ==> IsSpace(s[k])
    ensures forall k :: TrimOffset(s) + |Trim(s)| <= k < |s| ==> IsSpace(s[k])
    ensures Trim(s) == [] || (!IsSpace(Trim(s)[0]) && !IsSpace(Trim(s)[|Trim(s)| - 1]))
  {
    var t := TrimStart(s);
    var r := TrimEnd(t);
    TrimStartSpec(s);
    TrimEndSpec(t);
    SliceOfSuffix(s, t, r);
    if r != [] {
      assert r[0] == t[0];
    }
  }

  /** A prefix `r` of a suffix `t` of `s` is a slice of `s`, and what the
      prefix leaves of the suffix is the tail of `s`. */
  lemma {:induction false} SliceOfSuffix(s: string, t: string, r: string)
    requires |t| <= |s| && t == s[|s| - |t|..]
    requires |r| <= |t| && r == t[..|r|]
    requires forall k :: |r| <= k < |t| ==> IsSpace(t[k])
    ensures r == s[|s| - |t|..|s| - |t| + |r|]
    ensures forall k :: |s| - |t| + |r| <= k < |s| ==> IsSpace(s[k])
  {
    var i := |s| - |t|;
    forall k | i + |r| <= k < |s| ensures IsSpace(s[k]) {
      assert s[k] == t[k - i];
    }
  }

  /** A string trims to "" exactly when it is all whitespace. */
  lemma {:induction false} TrimEmptyIff(s: string)
    ensures Trim(s) == "" <==> forall k :: 0 <= k < |s| ==> IsSpace(s[k])
  {
    var t := TrimStart(s);
    TrimStartSpec(s);
    TrimEndSpec(t);
    if Trim(s) == "" {
      if t != [] {
        assert false;
      }
    } else {
      var r := Trim(s);
      assert !IsSpace(r[0]);
      assert r[0] == t[0] == s[|s| - |t|];
    }
  }

  /** A string with no whitespace at either end is its own trim. */
  lemma {:induction false} TrimNoOp(s: string)
    requires s == [] || (!IsSpace(s[0]) && !IsSpace(s[|s| - 1]))
    ensures Trim(s) == s
  {
  }

  /** Trimming twice is trimming once. */
  lemma {:induction false} TrimIdempotent(s: string)
    ensures Trim(Trim(s)) == Trim(s)
  {
    TrimIsSlice(s);
    TrimNoOp(Trim(s));
  }

  // ---------------------------------------------------------------------------
  // Case

  /** `toLowerCase` on one character (ASCII letters only). */
  function LowerChar(c: char): char {
    if 'A' <= c <= 'Z' then (c as int + 32) as char else c
  }

  /** `s.toLowerCase()`. */
  function ToLower(s: string): (r: string)
    ensures |r| == |s|
  {
    seq(|s|, i requires 0 <= i < |s| => LowerChar(s[i]))
  }

  // ---------------------------------------------------------------------------
  // Searching

  /** `a || b` on optional strings: the left value unless it is missing or "". */
  function OrElse(a: Option<string>, b: string): (r: string)
    ensures a.Some? && a.value != "" ==> r == a.value
    ensures (a.None? || a.value == "") ==> r == b
  {
    if a.Some? && a.value != "" then a.value else b
  }

  /** `s.startsWith(p)`. */
  predicate StartsWith(s: string, p: string) {
    |p| <= |s| && s[..|p|] == p
  }

  /** `s.endsWith(p)`. */
  predicate EndsWith(s: string, p: string) {
    |p| <= |s| && s[|s| - |p|..] == p
  }

  /** `s` has `sub` starting at position `i`. */
  predicate OccursAt(s: string, sub: string, i: int) {
    0 <= i && i + |sub| <= |s| && s[i..i + |sub|] == sub
  }

  /** `s.includes(sub)`, as the left-to-right search: `sub` occurs at some
      position of `s`. */
  function Includes(s: string, sub: string): (r: bool)
    ensures r <==> exists i :: OccursAt(s, sub, i)
    decreases |s|
  {
    if StartsWith(s, sub) then
      assert OccursAt(s, sub, 0);
      true
    else if |s| <= |sub| then
      assert forall i :: OccursAt(s, sub, i) ==> i == 0;
      false
    else
      IncludesStep(s, sub);
      Includes(s[1..], sub)
  }

  /** Past a position where `sub` does not start, the occurrences in `s`
      are those in its tail, one position later. */
  lemma {:induction false} IncludesStep(s: string, sub: string)
    requires |s| > 0 && !StartsWith(s, sub)
    ensures (exists i :: OccursAt(s, sub, i)) <==> (exists i :: OccursAt(s[1..], sub, i))
  {
    if exists i :: OccursAt(s, sub, i) {
      var i :| OccursAt(s, sub, i);
      assert i != 0;
      assert s[1..][i - 1..i - 1 + |sub|] == s[i..i + |sub|];
      assert OccursAt(s[1..], sub, i - 1);
    }
    if exists i :: OccursAt(s[1..], sub, i) {
      var i :| OccursAt(s[1..], sub, i);
      assert s[i + 1..i + 1 + |sub|] == s[1..][i..i + |sub|];
      assert OccursAt(s, sub, i + 1);
    }
  }

  // ---------------------------------------------------------------------------
  // split on a one-character separator, join on any separator

  /** `s.split(c)`: the pieces between occurrences of `c`; never empty. */
  function Split(s: string, c: char): (parts: seq<string>)
    ensures |parts| >= 1
    ensures forall i :: 0 <= i < |parts| ==> c !in parts[i]
    decreases |s|
  {
    if s == [] then [""]
    else if s[0] == c then [""] + Split(s[1..], c)
    else
      var p := Split(s[1..], c);
      [[s[0]] + p[0]] + p[1..]
  }

  /** `parts.join(sep)`; joining no parts gives "". */
  function Join(parts: seq<string>, sep: string): string
    decreases |parts|
  {
    if |parts| == 0 then ""
    else if |parts| == 1 then parts[0]
    else parts[0] + sep + Join(parts[1..], sep)
  }

  /** Joining the pieces of a split restores the string. */
  lemma {:induction false} JoinSplit(s: string, c: char)
    ensures Join(Split(s, c), [c]) == s
    decreases |s|
  {
    if s == [] {
    } else if s[0] == c {
      JoinSplit(s[1..], c);
      assert s == [c] + s[1..];
    } else {
      var p := Split(s[1..], c);
      JoinSplit(s[1..], c);
      if |p| == 1 {
        assert s == [s[0]] + s[1..];
      } else {
        assert p == [p[0]] + p[1..];
        assert Join(p, [c]) == p[0] + [c] + Join(p[1..], [c]);
        assert [[s[0]] + p[0]] + p[1..] == [[s[0]] + p[0]] + p[1..];
        assert s == [s[0]] + s[1..];
      }
    }
  }

  /** A string splits into one piece exactly when it has no separator, and
      that piece is the string itself. */
  lemma {:induction false} SplitSingle(s: string, c: char)
    ensures |Split(s, c)| == 1 <==> c !in s
    ensures c !in s ==> Split(s, c) == [s]
    decreases |s|
  {
    if s != [] {
      SplitSingle(s[1..], c);
      assert s == [s[0]] + s[1..];
      if s[0] != c && |Split(s[1..], c)| > 1 {
        assert c in s[1..];
      }
    }
  }

  /** Joining splits off the final piece. */
  lemma {:induction false} JoinSnoc(parts: seq<string>, c: char)
    requires |parts| >= 2
    ensures Join(parts, [c]) == Join(parts[..|parts| - 1], [c]) + [c] + parts[|parts| - 1]
    decreases |parts|
  {
    if |parts| > 2 {
      JoinSnoc(parts[1..], c);
      assert parts[1..][..|parts| - 2] == parts[..|parts| - 1][1..];
    } else {
      assert parts[..1] == [parts[0]];
    }
  }

  /** A separator-free piece followed by the separator splits off first. */
  lemma {:induction false} SplitPrefix(a: string, c: char, rest: string)
    requires c !in a
    ensures Split(a + [c] + rest, c) == [a] + Split(rest, c)
    decreases |a|
  {
    var s := a + [c] + rest;
    if a == [] {
      assert s[1..] == rest;
    } else {
      assert s[0] == a[0];
      assert s[1..] == a[1..] + [c] + rest;
      SplitPrefix(a[1..], c, rest);
      assert [a[0]] + a[1..] == a;
    }
  }

  /** Splitting the join of separator-free pieces gives the pieces back. */
  lemma {:induction false} SplitJoin(parts: seq<string>, c: char)
    requires |parts| >= 1
    requires forall i :: 0 <= i < |parts| ==> c !in parts[i]
    ensures Split(Join(parts, [c]), c) == parts
    decreases |parts|
  {
    if |parts| == 1 {
      SplitSingle(parts[0], c);
    } else {
      SplitJoin(parts[1..], c);
      SplitPrefix(parts[0], c, Join(parts[1..], [c]));
      assert parts == [parts[0]] + parts[1..];
    }
  }

  /** The last piece of `s.split(c)` (JavaScript's `.pop()` on the result). */
  function LastPiece(s: string, c: char): string {
    var parts := Split(s, c);
    parts[|parts| - 1]
  }

  /** `s.split(c)` without its last piece, joined back with `c`. */
  function AllButLastPiece(s: string, c: char): string {
    var parts := Split(s, c);
    Join(parts[..|parts| - 1], [c])
  }

  /** With a separator present, `s` is everything before the last separator,
      the separator, and the separator-free last piece; without one, the last
      piece is all of `s` and the rest is "". */
  lemma {:induction false} LastPieceSplits(s: string, c: char)
    ensures c !in LastPiece(s, c)
    ensures c in s ==> s == AllButLastPiece(s, c) + [c] + LastPiece(s, c)
    ensures c !in s ==> LastPiece(s, c) == s && AllButLastPiece(s, c) == ""
  {
    SplitSingle(s, c);
    JoinSplit(s, c);
    if c in s {
      JoinSnoc(Split(s, c), c);
    }
  }

  // ---------------------------------------------------------------------------
  // Decimal numbers

  predicate IsDigit(c: char) {
    '0' <= c <= '9'
  }

  function DigitChar(d: nat): (c: char)
    requires d < 10
    ensures IsDigit(c)
  {
    ('0' as int + d) as char
  }

  function DigitValue(c: char): nat
    requires IsDigit(c)
  {
    c as int - '0' as int
  }

  /** `String(n)` for a non-negative integer: its decimal digits. */
  function NatToString(n: nat): (r: string)
    ensures |r| >= 1
    ensures forall i :: 0 <= i < |r| ==> IsDigit(r[i])
  {
    if n < 10 then [DigitChar(n)] else NatToString(n / 10) + [DigitChar(n % 10)]
  }

  /** The value of a string of decimal digits. */
  function DigitsValue(d: string): nat
    requires forall i :: 0 <= i < |d| ==> IsDigit(d[i])
  {
    if d == [] then 0 else DigitsValue(d[..|d| - 1]) * 10 + DigitValue(d[|d| - 1])
  }

  /** The longest prefix of `s` made of digits. */
  function DigitPrefix(s: string): (r: string)
    ensures |r| <= |s| && r == s[..|r|]
    ensures forall i :: 0 <= i < |r| ==> IsDigit(r[i])
    ensures |r| < |s| ==> !IsDigit(s[|r|])
  {
    if s != [] && IsDigit(s[0]) then [s[0]] + DigitPrefix(s[1..]) else ""
  }

  /** `Number.parseInt(s, 10)`: leading whitespace, an optional sign, then the
      longest run of digits; `None` stands for `NaN` (no digits). */
  function ParseInt(s: string): Option<int> {
    var t := TrimStart(s);
    var negative := |t| > 0 && t[0] == '-';
    var body := if |t| > 0 && (t[0] == '-' || t[0] == '+') then t[1..] else t;
    var digits := DigitPrefix(body);
    var magnitude: int := if digits == [] then 0 else DigitsValue(digits);
    if digits == [] then None
    else if negative then Some(-magnitude)
    else Some(magnitude)
  }

  lemma {:induction false} DigitsValueOfNatToString(n: nat)
    ensures DigitsValue(NatToString(n)) == n
  {
    if n >= 10 {
      DigitsValueOfNatToString(n / 10);
      var r := NatToString(n);
      assert r[..|r| - 1] == NatToString(n / 10);
    }
  }

  /** `Number.parseInt(String(n), 10) == n`: printing and parsing a
      non-negative integer round-trips. */
  lemma {:induction false} ParseIntNatToString(n: nat)
    ensures ParseInt(NatToString(n)) == Some(n)
  {
    var s := NatToString(n);
    assert IsDigit(s[0]);
    assert TrimStart(s) == s;
    assert s[0] != '-' && s[0] != '+';
    DigitPrefixAllDigits(s);
    DigitsValueOfNatToString(n);
  }

  /** `String(i)` for any integer. */
  function IntToString(i: int): (r: string)
    ensures |r| >= 1
  {
    if i < 0 then "-" + NatToString(-i) else NatToString(i)
  }

  /** `Number.parseInt(String(i), 10) == i`. */
  lemma {:induction false} ParseIntIntToString(i: int)
    ensures ParseInt(IntToString(i)) == Some(i)
  {
    if i >= 0 {
      ParseIntNatToString(i);
    } else {
      var d := NatToString(-i);
      var s := "-" + d;
      assert !IsSpace(s[0]);
      assert TrimStart(s) == s;
      assert s[1..] == d;
      DigitPrefixAllDigits(d);
      DigitsValueOfNatToString(-i);
    }
  }

  lemma {:induction false} DigitPrefixAllDigits(s: string)
    requires forall i :: 0 <= i < |s| ==> IsDigit(s[i])
    ensures DigitPrefix(s) == s
  {
    if s != [] {
      DigitPrefixAllDigits(s[1..]);
    }
  }

  // ---------------------------------------------------------------------------
  // encodeURIComponent

  /** The characters `encodeURIComponent` leaves as they are. */
  predicate Unreserved(c: char) {
    ('A' <= c <= 'Z') || ('a' <= c <= 'z') || ('0' <= c <= '9')
    || c == '-' || c == '_' || c == '.' || c == '!' || c == '~' || c == '*'
    || c == '\'' || c == '(' || c == ')'
  }

  /** The UTF-8 bytes of a Unicode scalar value. */
  function Utf8(cp: nat): (bytes: seq<nat>)
    requires cp < 0x11_0000
    ensures 1 <= |bytes| <= 4
    ensures forall i :: 0 <= i < |bytes| ==> bytes[i] < 256
  {
    if cp < 0x80 then [cp]
    else if cp < 0x800 then [0xC0 + cp / 64, 0x80 + cp % 64]
    else if cp < 0x1_0000 then [0xE0 + cp / 4096, 0x80 + (cp / 64) % 64, 0x80 + cp % 64]
    else [0xF0 + cp / 262144, 0x80 + (cp / 4096) % 64, 0x80 + (cp / 64) % 64, 0x80 + cp % 64]
  }

  predicate IsUpperHex(c: char) {
    ('0' <= c <= '9') || ('A' <= c <= 'F')
  }

  function HexDigit(d: nat): (c: char)
    requires d < 16
    ensures IsUpperHex(c)
  {
    if d < 10 then ('0' as int + d) as char else ('A' as int + d - 10) as char
  }

  /** `%XX` for each byte, upper-case hexadecimal. */
  function PercentBytes(bytes: seq<nat>): (r: string)
    requires forall i :: 0 <= i < |bytes| ==> bytes[i] < 256
    ensures |r| == 3 * |bytes|
    ensures forall i :: 0 <= i < |r| ==> r[i] == '%' || IsUpperHex(r[i])
  {
    if bytes == [] then ""
    else ['%', HexDigit(bytes[0] / 16), HexDigit(bytes[0] % 16)] + PercentBytes(bytes[1..])
  }

  /** What `encodeURIComponent` makes of one character. */
  function EncodeChar(c: char): string {
    if Unreserved(c) then [c] else PercentBytes(Utf8(c as int))
  }

  /** A character that can appear in the output of `encodeURIComponent`. */
  predicate UriComponentChar(c: char) {
    Unreserved(c) || c == '%' || IsUpperHex(c)
  }

  /** `encodeURIComponent(s)`: every character is either kept or replaced by
      the percent-encoding of its UTF-8 bytes. */
  function EncodeUriComponent(s: string): (r: string)
    ensures forall i :: 0 <= i < |r| ==> UriComponentChar(r[i])
  {
    if s == [] then ""
    else
      var head := EncodeChar(s[0]);
      assert forall i :: 0 <= i < |head| ==> UriComponentChar(head[i]);
      head + EncodeUriComponent(s[1..])
  }

  /** The encoding of a string is the encodings of its parts, concatenated. */
  lemma {:induction false} EncodeUriComponentAppend(a: string, b: string)
    ensures EncodeUriComponent(a + b) == EncodeUriComponent(a) + EncodeUriComponent(b)
    decreases |a|
  {
    if a == [] {
      assert a + b == b;
    } else {
      assert (a + b)[0] == a[0];
      assert (a + b)[1..] == a[1..] + b;
      EncodeUriComponentAppend(a[1..], b);
    }
  }

  /** A string made only of unreserved characters is encoded as itself. */
  lemma {:induction false} EncodeUriComponentUnreserved(s: string)
    requires forall i :: 0 <= i < |s| ==> Unreserved(s[i])
    ensures EncodeUriComponent(s) == s
    decreases |s|
  {
    if s != [] {
      EncodeUriComponentUnreserved(s[1..]);
    }
  }

  /** A space is encoded as `%20`, and a word of unreserved characters
      after it is kept. */
  lemma {:induction false} EncodeUriComponentSpaceWord(x: string, w: string)
    requires forall i :: 0 <= i < |w| ==> Unreserved(w[i])
    ensures EncodeUriComponent(x + " " + w) == EncodeUriComponent(x) + "%20" + w
  {
    EncodeSpace();
    EncodeUriComponentAppend(x + " ", w);
    EncodeUriComponentAppend(x, " ");
    EncodeUriComponentUnreserved(w);
  }

  /** A lone space is encoded as `%20`. */
  lemma EncodeSpace()
    ensures EncodeUriComponent(" ") == "%20"
  {
    assert EncodeChar(' ') == PercentBytes([32]);
  }

  /** The output of `encodeURIComponent` never holds the URL delimiters
      `/`, `?`, `&`, `=`, `#` or a space, so it cannot end a path segment or
      start or split a query string. */
  lemma {:induction false} EncodedHasNoDelimiters(s: string)
    ensures var r := EncodeUriComponent(s);
            '/' !in r && '?' !in r && '&' !in r && '=' !in r && '#' !in r && ' ' !in r
  {
    var r := EncodeUriComponent(s);
    forall i | 0 <= i < |r|
      ensures r[i] != '/' && r[i] != '?' && r[i] != '&' && r[i] != '=' && r[i] != '#' && r[i] != ' '
    {
      assert UriComponentChar(r[i]);
    }
  }
}
