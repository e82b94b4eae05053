/**
 * The string operations the service relies on from JavaScript and Mongoose:
 * white space as `\s` and `String.prototype.trim` see it, the `lowercase`
 * setter, `split(' ')`, `encodeURIComponent`, and hexadecimal digits.
 */
module Text {

  /** JavaScript white space and line terminators (the set `\s` matches and `trim` removes). */
  predicate IsSpace(c: char) {
    var n := c as int;
    n == 0x20 || 0x09 <= n <= 0x0D || n == 0xA0 || n == 0x1680 || 0x2000 <= n <= 0x200A
    || n == 0x2028 || n == 0x2029 || n == 0x202F || n == 0x205F || n == 0x3000 || n == 0xFEFF
  }

  predicate AllSpace(s: string) {
    forall i :: 0 <= i < |s| ==> IsSpace(s[i])
  }

  predicate NoSpace(s: string) {
    forall i :: 0 <= i < |s| ==> !IsSpace(s[i])
  }

  /** `NoSpace`, checked one character at a time as a scanner does. */
  predicate NoSpaceScan(s: string) {
    s == [] || (!IsSpace(s[0]) && NoSpaceScan(s[1..]))
  }

  lemma {:induction false} NoSpaceScanIsNoSpace(s: string)
    ensures NoSpaceScan(s) <==> NoSpace(s)
  {
    if s != [] {
      NoSpaceScanIsNoSpace(s[1..]);
      assert forall i :: 1 <= i < |s| ==> s[i] == s[1..][i - 1];
    }
  }

  /** The first index from `i` on that is not white space, or `|s|`. */
  function StartOf(s: string, i: nat): (k: nat)
    requires i <= |s|
    ensures i <= k <= |s|
    ensures forall j :: i <= j < k ==> IsSpace(s[j])
    ensures k < |s| ==> !IsSpace(s[k])
    decreases |s| - i
  {
    if i < |s| && IsSpace(s[i]) then StartOf(s, i + 1) else i
  }

  /** The end of `s[lo..hi]` once its trailing white space is gone. */
  function EndOf(s: string, lo: nat, hi: nat): (e: nat)
    requires lo <= hi <= |s|
    ensures lo <= e <= hi
    ensures forall j :: e <= j < hi ==> IsSpace(s[j])
    ensures lo < e ==> !IsSpace(s[e - 1])
    decreases hi
  {
    if lo < hi && IsSpace(s[hi - 1]) then EndOf(s, lo, hi - 1) else hi
  }

  /** `String.prototype.trim`, which Mongoose applies for `trim: true`. */
  function Trim(s: string): (r: string)
    ensures |r| <= |s|
  {
    var k := StartOf(s, 0);
    s[k..EndOf(s, k, |s|)]
  }

  /**
   * What `Trim` keeps: the middle of `s`, between a run of white space at
   * the start and one at the end, and it neither starts nor ends with white space.
   */
  lemma TrimKeepsMiddle(s: string)
    ensures var r := Trim(s); var k := StartOf(s, 0);
      && k + |r| <= |s| && r == s[k..k + |r|]
      && (forall i :: 0 <= i < k ==> IsSpace(s[i]))
      && (forall i :: k + |r| <= i < |s| ==> IsSpace(s[i]))
      && (r != [] ==> !IsSpace(r[0]) && !IsSpace(r[|r| - 1]))
  {
    var k := StartOf(s, 0);
    var e := EndOf(s, k, |s|);
    assert |Trim(s)| == e - k;
  }

  /** A string of white space alone trims to nothing. */
  lemma TrimOfBlank(s: string)
    requires AllSpace(s)
    ensures Trim(s) == []
  {
    TrimKeepsMiddle(s);
  }

  /** A string with nothing to trim is its own trim. */
  lemma TrimmedIsFixed(s: string)
    requires s != [] ==> !IsSpace(s[0]) && !IsSpace(s[|s| - 1])
    ensures Trim(s) == s
  {
    assert StartOf(s, 0) == 0;
    assert EndOf(s, 0, |s|) == |s|;
  }

  lemma TrimIdempotent(s: string)
    ensures Trim(Trim(s)) == Trim(s)
  {
    TrimKeepsMiddle(s);
    TrimmedIsFixed(Trim(s));
  }

  /** The ASCII letters' lower case; every other character is left alone. */
  function LowerChar(c: char): (d: char)
    ensures 'A' <= c <= 'Z' ==> d as int == c as int + 32
    ensures !('A' <= c <= 'Z') ==> d == c
  {
    if 'A' <= c <= 'Z' then (c as int + 32) as char else c
  }

  predicate NoUpper(s: string) {
    forall i :: 0 <= i < |s| ==> !('A' <= s[i] <= 'Z')
  }

  /** The `lowercase: true` setter, on ASCII letters. */
  function ToLower(s: string): (r: string)
    ensures |r| == |s|
  {
    seq(|s|, i requires 0 <= i < |s| => LowerChar(s[i]))
  }

  /** Each letter is lowered in place, so no upper case is left and white space stays where it was. */
  lemma ToLowerPointwise(s: string)
    ensures NoUpper(ToLower(s))
    ensures forall i :: 0 <= i < |s| ==> ToLower(s)[i] == LowerChar(s[i]) && IsSpace(ToLower(s)[i]) == IsSpace(s[i])
  {
  }

  lemma LowerOfLowerIsFixed(s: string)
    requires NoUpper(s)
    ensures ToLower(s) == s
  {
  }

  // ---------------------------------------------------------------------
  // split(' ')

  /** The first position of `c` in `s`, or `|s|` when there is none. */
  function IndexOf(s: string, c: char): (i: nat)
    ensures i <= |s|
    ensures i < |s| ==> s[i] == c
    ensures forall k :: 0 <= k < i ==> s[k] != c
  {
    if s == [] || s[0] == c then 0 else 1 + IndexOf(s[1..], c)
  }

  /** `String.prototype.split` with a one-character separator. */
  function Split(s: string, sep: char): (parts: seq<string>)
    ensures |parts| >= 1
    ensures forall p :: p in parts ==> sep !in p
    decreases |s|
  {
    var i := IndexOf(s, sep);
    if i == |s| then [s]
    else
      assert sep !in s[..i] by {
        forall k | 0 <= k < i ensures s[..i][k] != sep { }
      }
      [s[..i]] + Split(s[i + 1..], sep)
  }

  /** `Array.prototype.join`, the inverse of `Split`. */
  function Join(parts: seq<string>, sep: char): string {
    if |parts| <= 1 then (if parts == [] then [] else parts[0])
    else parts[0] + [sep] + Join(parts[1..], sep)
  }

  lemma {:induction false} JoinSplit(s: string, sep: char)
    ensures Join(Split(s, sep), sep) == s
    decreases |s|
  {
    var i := IndexOf(s, sep);
    if i < |s| {
      JoinSplit(s[i + 1..], sep);
      assert s == s[..i] + [sep] + s[i + 1..];
    }
  }

  // ---------------------------------------------------------------------
  // encodeURIComponent

  /** The characters `encodeURIComponent` leaves as they are. */
  predicate IsUnreserved(c: char) {
    'A' <= c <= 'Z' || 'a' <= c <= 'z' || '0' <= c <= '9'
    || c == '-' || c == '_' || c == '.' || c == '!' || c == '~' || c == '*' || c == '\'' || c == '(' || c == ')'
  }

  predicate IsUpperHexDigit(c: char) {
    '0' <= c <= '9' || 'A' <= c <= 'F'
  }

  /** A character that may stand in the output of `encodeURIComponent`. */
  predicate IsEncodedChar(c: char) {
    IsUnreserved(c) || c == '%' || IsUpperHexDigit(c)
  }

  predicate IsEncoded(s: string) {
    forall i :: 0 <= i < |s| ==> IsEncodedChar(s[i])
  }

  function UpperHexDigit(n: nat): (c: char)
    requires n < 16
    ensures IsUpperHexDigit(c)
  {
    if n < 10 then ('0' as int + n) as char else ('A' as int + n - 10) as char
  }

  /** One byte written as `%XY`. */
  function PercentByte(b: nat): (r: string)
    requires b < 256
    ensures |r| == 3 && r[0] == '%' && IsEncoded(r)
  {
    ['%', UpperHexDigit(b / 16), UpperHexDigit(b % 16)]
  }

  /** The UTF-8 bytes of one code point. */
  function Utf8(cp: nat): (bytes: seq<nat>)
    ensures 1 <= |bytes| <= 4
    ensures forall i :: 0 <= i < |bytes| ==> bytes[i] < 256
  {
    if cp < 0x80 then [cp]
    else if cp < 0x800 then [0xC0 + cp / 0x40, 0x80 + cp % 0x40]
    else if cp < 0x10000 then [0xE0 + cp / 0x1000, 0x80 + (cp / 0x40) % 0x40, 0x80 + cp % 0x40]
    else [0xF0 + (cp / 0x40000) % 8, 0x80 + (cp / 0x1000) % 0x40, 0x80 + (cp / 0x40) % 0x40, 0x80 + cp % 0x40]
  }

  function PercentBytes(bytes: seq<nat>): (r: string)
    requires forall i :: 0 <= i < |bytes| ==> bytes[i] < 256
    ensures |r| == 3 * |bytes| && IsEncoded(r)
  {
    if bytes == [] then [] else PercentByte(bytes[0]) + PercentBytes(bytes[1..])
  }

  function EncodeChar(c: char): (r: string)
    ensures IsEncoded(r) && r != []
  {
    if IsUnreserved(c) then [c] else PercentBytes(Utf8(c as int))
  }

  /**
   * `encodeURIComponent`: unreserved characters are copied, every other
   * character becomes the percent-escapes of its UTF-8 bytes. The result
   * holds no `&`, `=`, `#` or white space, so it cannot break out of a
   * query parameter, and text made only of unreserved characters is unchanged.
   */
  function EncodeURIComponent(s: string): (r: string)
    ensures IsEncoded(r) && |r| >= |s|
    ensures (forall i :: 0 <= i < |s| ==> IsUnreserved(s[i])) ==> r == s
  {
    if s == [] then []
    else
      var head, tail := EncodeChar(s[0]), EncodeURIComponent(s[1..]);
      assert forall i :: 0 <= i < |head + tail| ==> IsEncodedChar((head + tail)[i]) by {
        forall i | 0 <= i < |head + tail| ensures IsEncodedChar((head + tail)[i]) {
          if i < |head| { assert (head + tail)[i] == head[i]; } else { assert (head + tail)[i] == tail[i - |head|]; }
        }
      }
      assert (forall i :: 0 <= i < |s| ==> IsUnreserved(s[i])) ==> head + tail == s by {
        if forall i :: 0 <= i < |s| ==> IsUnreserved(s[i]) {
          assert forall i :: 0 <= i < |s[1..]| ==> IsUnreserved(s[1..][i]);
          assert head == [s[0]];
          assert [s[0]] + s[1..] == s;
        }
      }
      head + tail
  }

  lemma EncodedHasNoDelimiters(s: string)
    ensures '&' !in EncodeURIComponent(s) && '=' !in EncodeURIComponent(s)
    ensures '#' !in EncodeURIComponent(s) && ' ' !in EncodeURIComponent(s)
  {
    var r := EncodeURIComponent(s);
    forall i | 0 <= i < |r| ensures r[i] != '&' && r[i] != '=' && r[i] != '#' && r[i] != ' ' {
      assert IsEncodedChar(r[i]);
    }
  }

  // ---------------------------------------------------------------------
  // Hexadecimal numerals

  function Pow16(k: nat): (p: nat)
    ensures p >= 1
  {
    if k == 0 then 1 else 16 * Pow16(k - 1)
  }

  /** Powers of sixteen add their exponents. */
  lemma {:induction false} Pow16Add(a: nat, b: nat)
    ensures Pow16(a + b) == Pow16(a) * Pow16(b)
    decreases b
  {
    if b > 0 {
      Pow16Add(a, b - 1);
      assert Pow16(a + b) == 16 * Pow16(a + b - 1);
    }
  }

  lemma Pow16Of24()
    ensures Pow16(24) == 0x1_0000_0000_0000_0000_0000_0000
  {
    assert Pow16(6) == 0x100_0000;
    Pow16Add(6, 6);
    Pow16Add(12, 12);
  }

  predicate IsHexDigit(c: char) {
    '0' <= c <= '9' || 'a' <= c <= 'f' || 'A' <= c <= 'F'
  }

  function LowerHexDigit(n: nat): (c: char)
    requires n < 16
    ensures IsHexDigit(c)
  {
    if n < 10 then ('0' as int + n) as char else ('a' as int + n - 10) as char
  }

  function HexValue(c: char): (n: nat)
    requires IsHexDigit(c)
    ensures n < 16
  {
    if '0' <= c <= '9' then c as int - '0' as int
    else if 'a' <= c <= 'f' then c as int - 'a' as int + 10
    else c as int - 'A' as int + 10
  }

  /** The `k` lowest hexadecimal digits of `n`, most significant first, in lower case. */
  function HexDigits(n: nat, k: nat): (s: string)
    ensures |s| == k
    ensures forall i :: 0 <= i < k ==> IsHexDigit(s[i])
  {
    if k == 0 then [] else HexDigits(n / 16, k - 1) + [LowerHexDigit(n % 16)]
  }

  /** The value of a hexadecimal numeral (either case). */
  function ParseHex(s: string): (n: nat)
    requires forall i :: 0 <= i < |s| ==> IsHexDigit(s[i])
    ensures n < Pow16(|s|)
  {
    if s == [] then 0 else 16 * ParseHex(s[..|s| - 1]) + HexValue(s[|s| - 1])
  }

  lemma {:induction false} ParseHexDigits(n: nat, k: nat)
    requires n < Pow16(k)
    ensures ParseHex(HexDigits(n, k)) == n
  {
    if k > 0 {
      var s := HexDigits(n, k);
      assert s[..k - 1] == HexDigits(n / 16, k - 1);
      ParseHexDigits(n / 16, k - 1);
    }
  }
}
