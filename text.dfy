/**
 * Character classes and the string primitives the checkout code applies to
 * form values and HTTP headers: `replace(/\D/g, "")`, `trim()`, `.length`,
 * `split(",")`, `parseInt` on a digit string and `Number.prototype.toString`.
 */
module Text {

  /** An ASCII decimal digit: the class `\d` of a regular expression without the `u` flag. */
  predicate IsDigit(c: char)
  {
    '0' <= c <= '9'
  }

  /**
   * The ECMAScript WhiteSpace and LineTerminator code points. This one set is
   * both the class `\s` of a regular expression and what `String.prototype.trim`
   * strips: tab, line feed, vertical tab, form feed, carriage return, space,
   * no-break space, the Unicode space separators, the line and paragraph
   * separators and the byte order mark.
   */
  predicate IsSpace(c: char)
  {
    var n := c as int;
    (0x09 <= n <= 0x0D) || n == 0x20 || n == 0xA0 || n == 0x1680 ||
    (0x2000 <= n <= 0x200A) || n == 0x2028 || n == 0x2029 || n == 0x202F ||
    n == 0x205F || n == 0x3000 || n == 0xFEFF
  }

  predicate AllDigits(s: string)
  {
    forall i :: 0 <= i < |s| ==> IsDigit(s[i])
  }

  /** `s.replace(/\D/g, "")`: the digits of `s`, in order. */
  function Digits(s: string): (r: string)
    ensures |r| <= |s|
    ensures AllDigits(r)
    ensures AllDigits(s) ==> r == s
  {
    if s == [] then []
    else (if IsDigit(s[0]) then [s[0]] else []) + Digits(s[1..])
  }

  lemma {:induction false} DigitsAppend(a: string, b: string)
    ensures Digits(a + b) == Digits(a) + Digits(b)
  {
    if a == [] {
      assert a + b == b;
    } else {
      var c := a + b;
      assert c[0] == a[0] && c[1..] == a[1..] + b;
      DigitsAppend(a[1..], b);
      var h := if IsDigit(a[0]) then [a[0]] else [];
      assert Digits(c) == h + Digits(a[1..] + b);
      assert Digits(a) == h + Digits(a[1..]);
    }
  }

  /** Number of leading white-space characters of `s`. */
  function LeadingSpaces(s: string): (n: nat)
    ensures n <= |s|
    ensures forall k :: 0 <= k < n ==> IsSpace(s[k])
    ensures n < |s| ==> !IsSpace(s[n])
  {
    if s != [] && IsSpace(s[0]) then 1 + LeadingSpaces(s[1..]) else 0
  }

  /** Number of trailing white-space characters of `s`. */
  function TrailingSpaces(s: string): (n: nat)
    ensures n <= |s|
    ensures forall k :: |s| - n <= k < |s| ==> IsSpace(s[k])
    ensures n < |s| ==> !IsSpace(s[|s| - 1 - n])
  {
    if s != [] && IsSpace(s[|s| - 1]) then 1 + TrailingSpaces(s[..|s| - 1]) else 0
  }

  /**
   * `String.prototype.trim`: `s` without its leading and trailing white space.
   * The result is the infix of `s` between two runs of white space, and it
   * neither starts nor ends with white space.
   */
  function Trim(s: string): (r: string)
    ensures r == [] || (!IsSpace(r[0]) && !IsSpace(r[|r| - 1]))
    ensures LeadingSpaces(s) + |r| <= |s|
    ensures r == s[LeadingSpaces(s)..LeadingSpaces(s) + |r|]
    ensures forall k :: LeadingSpaces(s) + |r| <= k < |s| ==> IsSpace(s[k])
    ensures r == [] <==> forall k :: 0 <= k < |s| ==> IsSpace(s[k])
  {
    var a := LeadingSpaces(s);
    var m := s[a..];
    var t := TrailingSpaces(m);
    var r := m[..|m| - t];
    TrimFirst(s, a, m, t, r);
    TrimLast(m, t, r);
    TrimSlice(s, a, m, t, r);
    TrimTail(s, a, m, t, r);
    TrimBlank(s, a, m, t, r);
    r
  }

  lemma TrimFirst(s: string, a: nat, m: string, t: nat, r: string)
    requires a == LeadingSpaces(s) && m == s[a..] && t <= |m| && r == m[..|m| - t]
    ensures r == [] || !IsSpace(r[0])
  {
    if r != [] {
      assert r[0] == s[a];
    }
  }

  lemma TrimLast(m: string, t: nat, r: string)
    requires t == TrailingSpaces(m) && r == m[..|m| - t]
    ensures r == [] || !IsSpace(r[|r| - 1])
  {
    if r != [] {
      assert r[|r| - 1] == m[|m| - 1 - t];
    }
  }

  lemma TrimSlice(s: string, a: nat, m: string, t: nat, r: string)
    requires a <= |s| && m == s[a..] && t <= |m| && r == m[..|m| - t]
    ensures a + |r| <= |s| && r == s[a..a + |r|]
  {
  }

  lemma TrimTail(s: string, a: nat, m: string, t: nat, r: string)
    requires a <= |s| && m == s[a..] && t <= |m| && r == m[..|m| - t]
    requires forall k :: |m| - t <= k < |m| ==> IsSpace(m[k])
    ensures forall k :: a + |r| <= k < |s| ==> IsSpace(s[k])
  {
    forall k | a + |r| <= k < |s| ensures IsSpace(s[k]) {
      assert s[k] == m[k - a];
    }
  }

  lemma TrimBlank(s: string, a: nat, m: string, t: nat, r: string)
    requires a == LeadingSpaces(s) && m == s[a..] && t == TrailingSpaces(m) && r == m[..|m| - t]
    ensures r == [] <==> forall k :: 0 <= k < |s| ==> IsSpace(s[k])
  {
    if r == [] {
      assert |m| == t;
      assert a == |s|;
    }
  }

  /** Trimming adds no character. */
  lemma TrimKeepsOut(s: string, c: char)
    requires c !in s
    ensures c !in Trim(s)
  {
    var r := Trim(s);
    forall k | 0 <= k < |r| ensures r[k] != c {
      assert r[k] == s[LeadingSpaces(s) + k];
    }
  }

  /** `s.length` in JavaScript: UTF-16 code units, two for a code point above U+FFFF. */
  function Utf16Length(s: string): (n: nat)
    ensures |s| <= n <= 2 * |s|
    ensures (forall i :: 0 <= i < |s| ==> s[i] as int < 0x10000) ==> n == |s|
  {
    if s == [] then 0
    else (if s[0] as int >= 0x10000 then 2 else 1) + Utf16Length(s[1..])
  }

  /** Index of the first occurrence of `c` in `s`. */
  function IndexOf(s: string, c: char): (k: nat)
    requires c in s
    ensures k < |s| && s[k] == c && c !in s[..k]
  {
    if s[0] == c then 0 else 1 + IndexOf(s[1..], c)
  }

  /** In `a + [c] + b` with no `c` in `a`, the first `c` is the one after `a`. */
  lemma {:induction false} IndexOfAfter(a: string, c: char, b: string)
    requires c !in a
    ensures c in a + [c] + b && IndexOf(a + [c] + b, c) == |a|
    ensures (a + [c] + b)[..|a|] == a
    decreases |a|
  {
    var s := a + [c] + b;
    assert s[|a|] == c;
    if a != [] {
      assert s[1..] == a[1..] + [c] + b;
      IndexOfAfter(a[1..], c, b);
    }
  }

  /** `s.split(sep)` for a one-character separator: the pieces between separators, never none. */
  function Split(s: string, sep: char): (parts: seq<string>)
    ensures |parts| >= 1
    ensures forall i :: 0 <= i < |parts| ==> sep !in parts[i]
    ensures parts[0] == if sep in s then s[..IndexOf(s, sep)] else s
    decreases |s|
  {
    if sep !in s then [s]
    else
      var k := IndexOf(s, sep);
      [s[..k]] + Split(s[k + 1..], sep)
  }

  /** `parts.join(sep)`. */
  function Join(parts: seq<string>, sep: char): string
    requires |parts| >= 1
  {
    if |parts| == 1 then parts[0] else parts[0] + [sep] + Join(parts[1..], sep)
  }

  /** Splitting and joining again on the same separator gives back the original string. */
  lemma {:induction false} JoinSplit(s: string, sep: char)
    ensures Join(Split(s, sep), sep) == s
    decreases |s|
  {
    if sep in s {
      var k := IndexOf(s, sep);
      var parts := Split(s, sep);
      JoinSplit(s[k + 1..], sep);
      assert parts[0] == s[..k] && parts[1..] == Split(s[k + 1..], sep);
      assert Join(parts, sep) == s[..k] + [sep] + Join(Split(s[k + 1..], sep), sep);
      assert s == s[..k] + [sep] + s[k + 1..];
    }
  }

  /** The value of an ASCII digit. */
  function DigitValue(c: char): (d: nat)
    requires IsDigit(c)
    ensures d < 10
  {
    c as int - '0' as int
  }

  function DigitChar(d: nat): (c: char)
    requires d < 10
    ensures IsDigit(c) && DigitValue(c) == d
  {
    ('0' as int + d) as char
  }

  /** `parseInt(s, 10)` of a string of digits, over unbounded integers. */
  function DecimalValue(s: string): nat
    requires AllDigits(s)
  {
    if s == [] then 0 else DecimalValue(s[..|s| - 1]) * 10 + DigitValue(s[|s| - 1])
  }

  /** Appending a digit multiplies the value by ten and adds the digit. */
  lemma DecimalAppendDigit(a: string, c: char)
    requires AllDigits(a) && IsDigit(c)
    ensures DecimalValue(a + [c]) == DecimalValue(a) * 10 + DigitValue(c)
  {
    assert (a + [c])[..|a + [c]| - 1] == a;
  }

  /** Appending two digits multiplies the value by a hundred and adds their value. */
  lemma DecimalAppendTwo(a: string, f: string)
    requires AllDigits(a) && AllDigits(f) && |f| == 2
    ensures DecimalValue(a + f) == DecimalValue(a) * 100 + DecimalValue(f)
  {
    DecimalAppendDigit(a, f[0]);
    DecimalAppendDigit(a + [f[0]], f[1]);
    assert a + f == a + [f[0]] + [f[1]];
    DecimalAppendDigit([], f[0]);
    DecimalAppendDigit([f[0]], f[1]);
    assert f == [] + [f[0]] + [f[1]];
  }

  /**
   * The decimal numeral of `n`, as `Number.prototype.toString` writes an
   * integer: no leading zero, and it reads back as `n`.
   */
  function NatToString(n: nat): (r: string)
    ensures r != [] && AllDigits(r)
    ensures |r| > 1 ==> r[0] != '0'
    ensures DecimalValue(r) == n
  {
    if n < 10 then [DigitChar(n)]
    else
      var p := NatToString(n / 10);
      var r := p + [DigitChar(n % 10)];
      assert r[..|r| - 1] == p;
      r
  }
}
