/**
 * The handful of Rust string and path operations the core relies on, written out so that
 * their edge cases are part of the model: `str::trim`, `str::split(char)`, `str::lines`,
 * `str::contains`, `str::starts_with`, `str::parse::<u32>` / `parse::<u64>`,
 * `format!("{:04X}")` and `Path::file_name`.
 */
module Text {
  import opened Wrappers

  const U32_BOUND: nat := 0x1_0000_0000
  const U64_BOUND: nat := 0x1_0000_0000_0000_0000

  // ---------------------------------------------------------------------------------------
  // Whitespace and trimming

  /** `char::is_whitespace`: the characters with the Unicode White_Space property. */
  predicate IsWhitespace(c: char) {
    ('\t' <= c <= '\r') || c == ' ' || c == '\U{0085}' || c == '\U{00A0}' || c == '\U{1680}'
    || ('\U{2000}' <= c <= '\U{200A}') || c == '\U{2028}' || c == '\U{2029}'
    || c == '\U{202F}' || c == '\U{205F}' || c == '\U{3000}'
  }

  /** `str::trim_start`: the suffix left after dropping every leading whitespace character. */
  function TrimStart(s: string): (r: string)
    ensures |r| <= |s| && r == s[|s| - |r|..]
    ensures forall k :: 0 <= k < |s| - |r| ==> IsWhitespace(s[k])
    ensures r != [] ==> !IsWhitespace(r[0])
  {
    if s != [] && IsWhitespace(s[0]) then TrimStart(s[1..]) else s
  }

  /** `str::trim_end`: the prefix left after dropping every trailing whitespace character. */
  function TrimEnd(s: string): (r: string)
    ensures |r| <= |s| && r == s[..|r|]
    ensures forall k :: |r| <= k < |s| ==> IsWhitespace(s[k])
    ensures r != [] ==> !IsWhitespace(r[|r| - 1])
  {
    if s != [] && IsWhitespace(s[|s| - 1]) then TrimEnd(s[..|s| - 1]) else s
  }

  /** `str::trim`. */
  function Trim(s: string): string {
    TrimEnd(TrimStart(s))
  }

  /** Leading whitespace before a string that does not start with whitespace is exactly what `trim_start` removes. */
  lemma {:induction false} TrimStartPadded(before: string, rest: string)
    requires forall k :: 0 <= k < |before| ==> IsWhitespace(before[k])
    requires rest != [] && !IsWhitespace(rest[0])
    ensures TrimStart(before + rest) == rest
  {
    if before == [] {
      assert before + rest == rest;
    } else {
      assert (before + rest)[0] == before[0];
      assert (before + rest)[1..] == before[1..] + rest;
      TrimStartPadded(before[1..], rest);
    }
  }

  /** Trailing whitespace after a string that does not end with whitespace is exactly what `trim_end` removes. */
  lemma {:induction false} TrimEndPadded(s: string, after: string)
    requires forall k :: 0 <= k < |after| ==> IsWhitespace(after[k])
    requires s != [] && !IsWhitespace(s[|s| - 1])
    ensures TrimEnd(s + after) == s
  {
    if after == [] {
      assert s + after == s;
    } else {
      var init := after[..|after| - 1];
      assert (s + after)[|s + after| - 1] == after[|after| - 1];
      assert (s + after)[..|s + after| - 1] == s + init;
      TrimEndPadded(s, init);
    }
  }

  /** Whitespace around a string that neither starts nor ends with whitespace is exactly what trimming removes. */
  lemma TrimPadded(before: string, s: string, after: string)
    requires forall k :: 0 <= k < |before| ==> IsWhitespace(before[k])
    requires forall k :: 0 <= k < |after| ==> IsWhitespace(after[k])
    requires s != [] && !IsWhitespace(s[0]) && !IsWhitespace(s[|s| - 1])
    ensures Trim(before + s + after) == s
  {
    assert before + s + after == before + (s + after);
    TrimStartPadded(before, s + after);
    TrimEndPadded(s, after);
  }

  /** A string made only of non-whitespace characters trims to itself. */
  lemma TrimNoWhitespace(s: string)
    requires forall k :: 0 <= k < |s| ==> !IsWhitespace(s[k])
    ensures Trim(s) == s
  {
    assert TrimStart(s) == s;
  }

  // ---------------------------------------------------------------------------------------
  // Searching

  /** `str::starts_with`. */
  predicate StartsWith(s: string, prefix: string) {
    |prefix| <= |s| && s[..|prefix|] == prefix
  }

  /** `str::contains` with a string pattern. */
  predicate Contains(s: string, pattern: string) {
    StartsWith(s, pattern) || (|pattern| < |s| && Contains(s[1..], pattern))
  }

  /** `pattern` occurs in `s` starting at position `i`. */
  predicate OccursAt(s: string, pattern: string, i: int) {
    0 <= i <= |s| - |pattern| && s[i..i + |pattern|] == pattern
  }

  /** `Contains` finds the pattern exactly when it occurs at some position. */
  lemma {:induction false} ContainsAt(s: string, pattern: string)
    ensures Contains(s, pattern) <==> exists i :: OccursAt(s, pattern, i)
  {
    if StartsWith(s, pattern) {
      assert OccursAt(s, pattern, 0);
    } else if |pattern| < |s| {
      ContainsAt(s[1..], pattern);
      if exists i :: OccursAt(s[1..], pattern, i) {
        var i :| OccursAt(s[1..], pattern, i);
        assert s[i + 1..i + 1 + |pattern|] == s[1..][i..i + |pattern|];
        assert OccursAt(s, pattern, i + 1);
      }
      if exists i :: OccursAt(s, pattern, i) {
        var i :| OccursAt(s, pattern, i);
        assert i != 0;
        assert s[1..][i - 1..i - 1 + |pattern|] == s[i..i + |pattern|];
        assert OccursAt(s[1..], pattern, i - 1);
      }
    }
  }

  /** The position of the first occurrence of `c`. */
  function IndexOf(s: string, c: char): (r: nat)
    requires c in s
    ensures r < |s| && s[r] == c && c !in s[..r]
  {
    if s[0] == c then 0 else 1 + IndexOf(s[1..], c)
  }

  /** Any occurrence with no `c` before it is the first one. */
  lemma IndexOfUnique(s: string, c: char, i: nat)
    requires i < |s| && s[i] == c && c !in s[..i]
    ensures IndexOf(s, c) == i
  {
  }

  // ---------------------------------------------------------------------------------------
  // Splitting and joining

  /** `str::split(c)` collected into a vector: the pieces between the occurrences of `c`. */
  function SplitOn(s: string, c: char): (r: seq<string>)
    ensures |r| >= 1
    ensures forall k :: 0 <= k < |r| ==> c !in r[k]
    ensures |r| == 1 <==> c !in s
    decreases |s|
  {
    if c in s then
      var i := IndexOf(s, c);
      [s[..i]] + SplitOn(s[i + 1..], c)
    else
      [s]
  }

  /** Splitting a string at its first `c` yields the text before it, then the pieces of the rest. */
  lemma SplitOnFirst(before: string, c: char, rest: string)
    requires c !in before
    ensures SplitOn(before + [c] + rest, c) == [before] + SplitOn(rest, c)
  {
    var s := before + [c] + rest;
    assert s[|before|] == c;
    assert s[..|before|] == before;
    IndexOfUnique(s, c, |before|);
    assert s[|before| + 1..] == rest;
  }

  /** A string with exactly one `c` splits into the text before and after it. */
  lemma SplitPair(before: string, c: char, after: string)
    requires c !in before && c !in after
    ensures SplitOn(before + [c] + after, c) == [before, after]
  {
    SplitOnFirst(before, c, after);
  }

  /** `[String]::join(sep)`. */
  function JoinWith(parts: seq<string>, sep: string): string {
    if |parts| == 0 then ""
    else if |parts| == 1 then parts[0]
    else parts[0] + sep + JoinWith(parts[1..], sep)
  }

  /** Drops one trailing `'\r'`, as `str::lines` does before a `'\n'`. */
  function StripCr(line: string): string {
    if |line| > 0 && line[|line| - 1] == '\r' then line[..|line| - 1] else line
  }

  /**
   * `str::lines`: pieces ending at each `'\n'` (with a `"\r\n"` ending removed whole); a
   * final piece without a newline is a line too, but an empty input and a final newline
   * add no empty line.
   */
  function Lines(s: string): (r: seq<string>)
    ensures forall k :: 0 <= k < |r| ==> '\n' !in r[k]
    decreases |s|
  {
    if s == [] then []
    else if '\n' in s then
      var i := IndexOf(s, '\n');
      [StripCr(s[..i])] + Lines(s[i + 1..])
    else [s]
  }

  // ---------------------------------------------------------------------------------------
  // Decimal numbers

  predicate IsDigit(c: char) {
    '0' <= c <= '9'
  }

  predicate AllDigits(s: string) {
    forall k :: 0 <= k < |s| ==> IsDigit(s[k])
  }

  /** The value of a string of decimal digits, most significant first. */
  function DecimalValue(s: string): nat
    requires AllDigits(s)
  {
    if s == [] then 0 else DecimalValue(s[..|s| - 1]) * 10 + (s[|s| - 1] as int - '0' as int)
  }

  /**
   * `str::parse` for an unsigned integer type whose values are below `bound`: an optional
   * leading `'+'`, then one or more decimal digits; no sign alone, no other character,
   * no value at or above the bound.
   */
  function ParseUnsigned(s: string, bound: nat): (r: Option<nat>)
    ensures r.Some? ==> r.value < bound
  {
    var digits := if |s| > 0 && s[0] == '+' then s[1..] else s;
    if digits == [] || !AllDigits(digits) then None
    else if DecimalValue(digits) < bound then Some(DecimalValue(digits))
    else None
  }

  /** A character other than a digit, apart from one leading `'+'`, makes parsing fail. */
  lemma ParseUnsignedRejectsNonDigit(s: string, bound: nat, k: nat)
    requires k < |s| && !IsDigit(s[k]) && (k > 0 || s[0] != '+')
    ensures ParseUnsigned(s, bound) == None
  {
    if |s| > 0 && s[0] == '+' {
      assert s[1..][k - 1] == s[k];
    }
  }

  /** The shortest decimal rendering of `n` (`n.to_string()`). */
  function Decimal(n: nat): (r: string)
    ensures r != [] && AllDigits(r)
  {
    if n < 10 then [('0' as int + n) as char] else Decimal(n / 10) + [('0' as int + n % 10) as char]
  }

  /** Rendering a number and parsing it back yields the number. */
  lemma {:induction false} DecimalValueOfDecimal(n: nat)
    ensures DecimalValue(Decimal(n)) == n
  {
    if n >= 10 {
      DecimalValueOfDecimal(n / 10);
      var d := Decimal(n);
      assert d[..|d| - 1] == Decimal(n / 10);
    }
  }

  /** `parse::<uN>` gives back every rendered number that fits the type and refuses the others. */
  lemma ParseDecimalRoundTrip(n: nat, bound: nat)
    ensures ParseUnsigned(Decimal(n), bound) == if n < bound then Some(n) else None
  {
    DecimalValueOfDecimal(n);
  }

  // ---------------------------------------------------------------------------------------
  // Upper-case hexadecimal, zero padded (`{:04X}`)

  function HexDigit(d: nat): (c: char)
    requires d < 16
  {
    if d < 10 then ('0' as int + d) as char else ('A' as int + d - 10) as char
  }

  predicate IsUpperHexDigit(c: char) {
    ('0' <= c <= '9') || ('A' <= c <= 'F')
  }

  function HexDigitValue(c: char): nat
    requires IsUpperHexDigit(c)
  {
    if '0' <= c <= '9' then c as int - '0' as int else c as int - 'A' as int + 10
  }

  /** The shortest upper-case hexadecimal rendering of `n`. */
  function Hex(n: nat): (r: string)
    ensures r != [] && forall k :: 0 <= k < |r| ==> IsUpperHexDigit(r[k])
  {
    if n < 16 then [HexDigit(n)] else Hex(n / 16) + [HexDigit(n % 16)]
  }

  /** `{:0wX}`: the hexadecimal rendering padded on the left with `'0'` up to `width`. */
  function HexPadded(n: nat, width: nat): (r: string)
    ensures |r| >= width && forall k :: 0 <= k < |r| ==> IsUpperHexDigit(r[k])
  {
    var h := Hex(n);
    if |h| >= width then h else seq(width - |h|, _ => '0') + h
  }

  /** The value of a string of upper-case hexadecimal digits. */
  function HexValue(s: string): nat
    requires forall k :: 0 <= k < |s| ==> IsUpperHexDigit(s[k])
  {
    if s == [] then 0 else HexValue(s[..|s| - 1]) * 16 + HexDigitValue(s[|s| - 1])
  }

  lemma {:induction false} HexValueOfHex(n: nat)
    ensures HexValue(Hex(n)) == n
  {
    if n >= 16 {
      HexValueOfHex(n / 16);
      var h := Hex(n);
      assert h[..|h| - 1] == Hex(n / 16);
    }
  }

  /** Leading zeros do not change a hexadecimal value. */
  lemma {:induction false} HexValueLeadingZeros(z: nat, s: string)
    requires forall k :: 0 <= k < |s| ==> IsUpperHexDigit(s[k])
    ensures HexValue(seq(z, _ => '0') + s) == HexValue(s)
    decreases |s|
  {
    var p := seq(z, _ => '0');
    if s == [] {
      assert p + s == p;
      ZerosHaveValueZero(z);
    } else {
      HexValueLeadingZeros(z, s[..|s| - 1]);
      assert (p + s)[..|p + s| - 1] == p + s[..|s| - 1];
    }
  }

  lemma {:induction false} ZerosHaveValueZero(z: nat)
    ensures HexValue(seq(z, _ => '0')) == 0
  {
    if z > 0 {
      ZerosHaveValueZero(z - 1);
      assert seq(z, _ => '0')[..z - 1] == seq(z - 1, _ => '0');
    }
  }

  /** Zero-padded upper-case hexadecimal is read back as the number it renders. */
  lemma HexPaddedRoundTrip(n: nat, width: nat)
    ensures HexValue(HexPadded(n, width)) == n
  {
    HexValueOfHex(n);
    var h := Hex(n);
    if |h| < width {
      HexValueLeadingZeros(width - |h|, h);
    }
  }

  /** Below 16^4, `{:04X}` always produces exactly four digits. */
  lemma {:induction false} HexPaddedFourDigits(n: nat)
    requires n < 0x1_0000
    ensures |HexPadded(n, 4)| == 4
  {
    HexLength(n, 4);
  }

  lemma {:induction false} HexLength(n: nat, k: nat)
    requires k >= 1
    requires n < Pow16(k)
    ensures |Hex(n)| <= k
  {
    if n >= 16 {
      if k == 1 {
        assert false;
      } else {
        HexLength(n / 16, k - 1);
      }
    }
  }

  function Pow16(k: nat): nat {
    if k == 0 then 1 else 16 * Pow16(k - 1)
  }

  // ---------------------------------------------------------------------------------------
  // Paths

  /** The components `Path::components` reports as `Normal`, or `..`: empty and `.` pieces are dropped. */
  function PathComponents(parts: seq<string>): (r: seq<string>)
    ensures forall k :: 0 <= k < |r| ==> r[k] != "" && r[k] != "." && r[k] in parts
  {
    if parts == [] then []
    else if parts[0] == "" || parts[0] == "." then PathComponents(parts[1..])
    else [parts[0]] + PathComponents(parts[1..])
  }

  /** `Path::file_name`: the last component, if it is a normal name rather than `..` or the root. */
  function FileName(path: string): (r: Option<string>)
    ensures r.Some? ==> r.value != "" && r.value != "." && r.value != ".." && '/' !in r.value
  {
    var comps := PathComponents(SplitOn(path, '/'));
    if comps == [] || comps[|comps| - 1] == ".." then None else Some(comps[|comps| - 1])
  }

  /** Splitting at the last `c` yields the pieces before it, then the text after it. */
  lemma {:induction false} SplitOnLast(before: string, c: char, after: string)
    requires c !in after
    ensures SplitOn(before + [c] + after, c) == SplitOn(before, c) + [after]
    decreases |before|
  {
    if c in before {
      var i := IndexOf(before, c);
      var head, tail := before[..i], before[i + 1..];
      assert before == head + [c] + tail;
      Regroup(head, c, tail, after);
      SplitOnFirst(head, c, tail + [c] + after);
      SplitOnFirst(head, c, tail);
      SplitOnLast(tail, c, after);
      ConsSnoc(SplitOn(before + [c] + after, c), SplitOn(tail + [c] + after, c),
               SplitOn(tail, c), SplitOn(before, c), head, after);
    } else {
      SplitOnFirst(before, c, after);
    }
  }

  lemma Regroup(head: string, c: char, tail: string, after: string)
    ensures (head + [c] + tail) + [c] + after == head + [c] + (tail + [c] + after)
  {
  }

  lemma ConsSnoc(x: seq<string>, y: seq<string>, z: seq<string>, w: seq<string>, h: string, a: string)
    requires x == [h] + y && y == z + [a] && w == [h] + z
    ensures x == w + [a]
  {
    assert [h] + (z + [a]) == ([h] + z) + [a];
  }

  /** Dropping empty and `.` pieces commutes with appending a normal name. */
  lemma {:induction false} PathComponentsAppend(parts: seq<string>, name: string)
    requires name != "" && name != "."
    ensures PathComponents(parts + [name]) == PathComponents(parts) + [name]
  {
    if parts != [] {
      assert (parts + [name])[1..] == parts[1..] + [name];
      PathComponentsAppend(parts[1..], name);
    }
  }

  /** The file name of `dir/name` is `name`, for a normal name. */
  lemma FileNameOfChild(dir: string, name: string)
    requires '/' !in name && name != "" && name != "." && name != ".."
    ensures FileName(dir + "/" + name) == Some(name)
  {
    assert dir + "/" + name == dir + ['/'] + name;
    SplitOnLast(dir, '/', name);
    PathComponentsAppend(SplitOn(dir, '/'), name);
  }

  /**
   * `Path::join` on paths held as strings: an absolute second path replaces the first;
   * otherwise a single `'/'` separates them.
   */
  function JoinPath(base: string, child: string): (r: string)
    ensures StartsWith(child, "/") ==> r == child
  {
    if StartsWith(child, "/") then child
    else if |base| > 0 && base[|base| - 1] == '/' then base + child
    else base + "/" + child
  }
}
