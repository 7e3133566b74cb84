/**
 * The browser-side input formatters and the card-brand and e-mail checks:
 * string functions over what the user typed. Each works on the digits of
 * its input (`value.replace(/\D/g, "")`).
 */
module Formatters {
  import opened Wrappers
  import opened Text

  /** The first `k` characters, or all of them when there are fewer (`slice(0, k)`). */
  function Take(s: string, k: nat): (r: string)
    ensures |r| == if |s| < k then |s| else k
    ensures r == s[..|r|]
  {
    if |s| < k then s else s[..k]
  }

  /** The pieces joined without separator. */
  function Concat(parts: seq<string>): string
  {
    if parts == [] then [] else parts[0] + Concat(parts[1..])
  }

  // ---------------------------------------------------------------------------
  // Card number: groups of four digits

  /** `numbers.match(/.{1,4}/g).join(" ")`, or the empty string when there is no digit. */
  function Group4(d: string): string
    decreases |d|
  {
    if |d| <= 4 then d else d[..4] + " " + Group4(d[4..])
  }

  /** `formatCardNumber`. */
  function FormatCardNumber(value: string): string
  {
    Group4(Digits(value))
  }

  /** Groups of four but the last, which has one to four. */
  predicate InFours(g: seq<string>)
  {
    g != [] && 1 <= |g[|g| - 1]| <= 4 && forall i :: 0 <= i < |g| - 1 ==> |g[i]| == 4
  }

  /** The groups of `Group4(d)` are `d` cut into fours, the last holding one to four digits. */
  lemma {:induction false} Group4Groups(d: string)
    requires AllDigits(d) && d != []
    ensures InFours(Split(Group4(d), ' ')) && Concat(Split(Group4(d), ' ')) == d
    decreases |d|
  {
    if |d| > 4 {
      var rest := Group4(d[4..]);
      var g := Split(rest, ' ');
      assert ' ' !in d[..4];
      SplitAfterGroup(d[..4], rest);
      Group4Groups(d[4..]);
      GroupsCons(d[..4], g);
      assert d[..4] + d[4..] == d;
    } else {
      assert ' ' !in d;
    }
  }

  /** A leading group without spaces is the first piece of the split. */
  lemma SplitAfterGroup(a: string, rest: string)
    requires ' ' !in a
    ensures Split(a + " " + rest, ' ') == [a] + Split(rest, ' ')
  {
    var s := a + " " + rest;
    assert s[|a|] == ' ' && s[..|a|] == a && s[|a| + 1..] == rest;
    IndexOfAfter(a, ' ', rest);
  }

  /** A group of four in front of well-formed groups keeps them well formed. */
  lemma GroupsCons(a: string, g: seq<string>)
    requires |a| == 4 && InFours(g)
    ensures Concat([a] + g) == a + Concat(g)
    ensures InFours([a] + g)
  {
    var h := [a] + g;
    assert h[1..] == g;
    forall i | 0 <= i < |h| - 1 ensures |h[i]| == 4 {
      if i > 0 {
        assert h[i] == g[i - 1];
      }
    }
  }

  /**
   * The output of `formatCardNumber` splits on spaces into groups of four
   * digits but the last, which has one to four, and the groups together are
   * exactly the input's digits. An input with no digit gives "".
   */
  lemma CardNumberGroups(value: string)
    ensures Digits(value) == [] ==> FormatCardNumber(value) == ""
    ensures Digits(value) != [] ==>
      var g := Split(FormatCardNumber(value), ' ');
      Concat(g) == Digits(value) && |g| >= 1 &&
      1 <= |g[|g| - 1]| <= 4 &&
      forall i :: 0 <= i < |g| - 1 ==> |g[i]| == 4
  {
    if Digits(value) != [] {
      Group4Groups(Digits(value));
    }
  }

  /** Grouping adds only spaces. */
  lemma {:induction false} Group4Digits(d: string)
    requires AllDigits(d)
    ensures Digits(Group4(d)) == d
    decreases |d|
  {
    if |d| > 4 {
      Group4Digits(d[4..]);
      DigitsAppend(d[..4] + " ", Group4(d[4..]));
      DigitsAppend(d[..4], " ");
      assert d == d[..4] + d[4..];
    }
  }

  /** Reformatting a formatted card number changes nothing. */
  lemma FormatCardNumberIdempotent(value: string)
    ensures FormatCardNumber(FormatCardNumber(value)) == FormatCardNumber(value)
  {
    Group4Digits(Digits(value));
  }

  /** `Digits` skips a separator character. */
  lemma DigitsSep(a: string, c: char, b: string)
    requires !IsDigit(c)
    ensures Digits(a + [c] + b) == Digits(a) + Digits(b)
  {
    var ac := a + [c];
    DigitsAppend(ac, b);
    DigitsAppend(a, [c]);
    DigitsOfSeparator(c);
    assert Digits(ac) == Digits(a);
  }

  lemma DigitsOfSeparator(c: char)
    requires !IsDigit(c)
    ensures Digits([c]) == []
  {
    assert [c][1..] == [];
  }

  // ---------------------------------------------------------------------------
  // CPF ###.###.###-## and phone (##) #####-####

  /** The two input masks. */
  datatype Layout = CpfLayout | PhoneLayout

  /** The separator a layout puts at position `i`; `None` where a digit goes. */
  function Separator(l: Layout, i: nat): Option<char>
  {
    match l
    case CpfLayout =>
      if i == 3 || i == 7 then Some('.') else if i == 11 then Some('-') else None
    case PhoneLayout =>
      if i == 0 then Some('(') else if i == 3 then Some(')') else if i == 4 then Some(' ')
      else if i == 10 then Some('-') else None
  }

  function Width(l: Layout): nat
  {
    match l
    case CpfLayout => 14
    case PhoneLayout => 15
  }

  /** `s`, placed at position `off` of the layout, has the layout's separators and digits elsewhere. */
  predicate FitsAt(l: Layout, s: string, off: nat)
  {
    forall i :: 0 <= i < |s| ==> if Separator(l, off + i).Some? then s[i] == Separator(l, off + i).value else IsDigit(s[i])
  }

  /** `s` is a prefix of the layout that ends on a digit. */
  predicate FitsLayout(l: Layout, s: string)
  {
    |s| <= Width(l) && FitsAt(l, s, 0) && (s == [] || Separator(l, |s| - 1).None?)
  }

  lemma FitsAppend(l: Layout, a: string, b: string, off: nat)
    requires FitsAt(l, a, off) && FitsAt(l, b, off + |a|)
    ensures FitsAt(l, a + b, off)
  {
    forall i | 0 <= i < |a + b|
      ensures if Separator(l, off + i).Some? then (a + b)[i] == Separator(l, off + i).value else IsDigit((a + b)[i])
    {
      if i >= |a| {
        assert (a + b)[i] == b[i - |a|] && off + i == (off + |a|) + (i - |a|);
      }
    }
  }

  /** A run of digits fits wherever the layout has no separator. */
  lemma DigitRun(l: Layout, d: string, off: nat)
    requires AllDigits(d)
    requires forall i :: off <= i < off + |d| ==> Separator(l, i).None?
    ensures FitsAt(l, d, off)
  {
    forall i | 0 <= i < |d| ensures IsDigit(d[i]) && Separator(l, off + i).None? {
      assert off <= off + i < off + |d|;
    }
  }

  function FormatCpfDigits(n: string): string
    requires AllDigits(n)
  {
    if |n| <= 3 then n
    else if |n| <= 6 then n[..3] + "." + n[3..]
    else if |n| <= 9 then n[..3] + "." + n[3..6] + "." + n[6..]
    else n[..3] + "." + n[3..6] + "." + n[6..9] + "-" + n[9..|Take(n, 11)|]
  }

  /** `formatCPF`. */
  function FormatCPF(value: string): string
  {
    FormatCpfDigits(Digits(value))
  }

  lemma CpfLayoutOf(n: string)
    requires AllDigits(n)
    ensures FitsLayout(CpfLayout, FormatCpfDigits(n))
  {
    var l := CpfLayout;
    if |n| <= 3 {
      DigitRun(l, n, 0);
    } else if |n| <= 6 {
      DigitRun(l, n[..3], 0);
      FitsAppend(l, n[..3], ".", 0);
      DigitRun(l, n[3..], 4);
      FitsAppend(l, n[..3] + ".", n[3..], 0);
    } else {
      CpfLayoutPrefix(n);
      if |n| <= 9 {
        DigitRun(l, n[6..], 8);
        FitsAppend(l, n[..3] + "." + n[3..6] + ".", n[6..], 0);
      } else {
        CpfLayoutEleven(n);
      }
    }
  }

  /** `###.###.` fits the CPF layout. */
  lemma CpfLayoutPrefix(n: string)
    requires AllDigits(n) && |n| > 6
    ensures FitsAt(CpfLayout, n[..3] + "." + n[3..6] + ".", 0)
  {
    var l := CpfLayout;
    DigitRun(l, n[..3], 0);
    FitsAppend(l, n[..3], ".", 0);
    DigitRun(l, n[3..6], 4);
    FitsAppend(l, n[..3] + ".", n[3..6], 0);
    FitsAppend(l, n[..3] + "." + n[3..6], ".", 0);
  }

  lemma CpfLayoutEleven(n: string)
    requires AllDigits(n) && |n| > 9
    ensures FitsLayout(CpfLayout, FormatCpfDigits(n))
  {
    var l := CpfLayout;
    var t := Take(n, 11);
    var p := n[..3] + "." + n[3..6] + ".";
    CpfLayoutPrefix(n);
    DigitRun(l, n[6..9], 8);
    FitsAppend(l, p, n[6..9], 0);
    FitsAppend(l, p + n[6..9], "-", 0);
    DigitRun(l, n[9..|t|], 12);
    FitsAppend(l, p + n[6..9] + "-", n[9..|t|], 0);
  }

  lemma CpfPieces(p1: string, p2: string, p3: string, p4: string)
    requires AllDigits(p1) && AllDigits(p2) && AllDigits(p3) && AllDigits(p4)
    ensures Digits(p1 + "." + p2) == p1 + p2
    ensures Digits(p1 + "." + p2 + "." + p3) == p1 + p2 + p3
    ensures Digits(p1 + "." + p2 + "." + p3 + "-" + p4) == p1 + p2 + p3 + p4
  {
    var q1 := p1 + "." + p2;
    var q2 := q1 + "." + p3;
    DigitsSep(p1, '.', p2);
    DigitsSep(q1, '.', p3);
    DigitsSep(q2, '-', p4);
  }

  lemma CpfDigitsOf(n: string)
    requires AllDigits(n)
    ensures Digits(FormatCpfDigits(n)) == Take(n, 11)
  {
    if 3 < |n| <= 6 {
      DigitsSep(n[..3], '.', n[3..]);
      assert n[..3] + n[3..] == n;
    } else if 6 < |n| <= 9 {
      CpfDigitsOfNine(n);
    } else if |n| > 9 {
      CpfDigitsOfEleven(n);
    }
  }

  lemma CpfDigitsOfNine(n: string)
    requires AllDigits(n) && 6 < |n| <= 9
    ensures Digits(n[..3] + "." + n[3..6] + "." + n[6..]) == n
  {
    var p1, p2, p3 := n[..3], n[3..6], n[6..];
    DigitsSep(p1, '.', p2);
    DigitsSep(p1 + "." + p2, '.', p3);
    assert p1 + p2 + p3 == n;
  }

  lemma CpfDigitsOfEleven(n: string)
    requires AllDigits(n) && 9 < |n|
    ensures Digits(n[..3] + "." + n[3..6] + "." + n[6..9] + "-" + n[9..|Take(n, 11)|]) == Take(n, 11)
  {
    var t := Take(n, 11);
    CpfPieces(n[..3], n[3..6], n[6..9], n[9..|t|]);
    CpfSlices(n);
  }

  lemma CpfSlices(n: string)
    requires 9 < |n|
    ensures Take(n, 11) == n[..3] + n[3..6] + n[6..9] + n[9..|Take(n, 11)|]
  {
    var t := Take(n, 11);
    assert t == t[..3] + t[3..6] + t[6..9] + t[9..];
  }

  /**
   * The output of `formatCPF` follows the layout ###.###.###-## as far as it
   * goes, and its digits are the first eleven of the input (all of them when
   * there are fewer).
   */
  lemma FormatCpfShape(value: string)
    ensures FitsLayout(CpfLayout, FormatCPF(value))
    ensures Digits(FormatCPF(value)) == Take(Digits(value), 11)
  {
    CpfLayoutOf(Digits(value));
    CpfDigitsOf(Digits(value));
  }

  /** Only the first eleven digits matter. */
  lemma FormatCpfTake(n: string)
    requires AllDigits(n)
    ensures FormatCpfDigits(Take(n, 11)) == FormatCpfDigits(n)
  {
  }

  lemma FormatCpfIdempotent(value: string)
    ensures FormatCPF(FormatCPF(value)) == FormatCPF(value)
  {
    FormatCpfShape(value);
    FormatCpfTake(Digits(value));
  }

  function FormatPhoneDigits(n: string): string
    requires AllDigits(n)
  {
    if |n| <= 2 then (if |n| > 0 then "(" + n else "")
    else if |n| <= 7 then "(" + n[..2] + ") " + n[2..]
    else "(" + n[..2] + ") " + n[2..7] + "-" + n[7..|Take(n, 11)|]
  }

  /** `formatPhone`. */
  function FormatPhone(value: string): string
  {
    FormatPhoneDigits(Digits(value))
  }

  lemma PhoneLayoutOf(n: string)
    requires AllDigits(n)
    ensures FitsLayout(PhoneLayout, FormatPhoneDigits(n))
  {
    var l := PhoneLayout;
    var t := Take(n, 11);
    if |n| > 0 {
      if |n| <= 2 {
        DigitRun(l, n, 1);
        FitsAppend(l, "(", n, 0);
      } else {
        DigitRun(l, n[..2], 1);
        FitsAppend(l, "(", n[..2], 0);
        FitsAppend(l, "(" + n[..2], ") ", 0);
        if |n| <= 7 {
          DigitRun(l, n[2..], 5);
          FitsAppend(l, "(" + n[..2] + ") ", n[2..], 0);
        } else {
          DigitRun(l, n[2..7], 5);
          FitsAppend(l, "(" + n[..2] + ") ", n[2..7], 0);
          FitsAppend(l, "(" + n[..2] + ") " + n[2..7], "-", 0);
          DigitRun(l, n[7..|t|], 11);
          FitsAppend(l, "(" + n[..2] + ") " + n[2..7] + "-", n[7..|t|], 0);
        }
      }
    }
  }

  lemma PhoneOpen(p1: string)
    requires AllDigits(p1)
    ensures Digits("(" + p1) == p1
  {
    DigitsSep([], '(', p1);
    assert [] + ['('] + p1 == "(" + p1;
  }

  lemma CloseRegroup(q: string, p2: string)
    ensures q + ") " + p2 == q + [')'] + (" " + p2)
  {
  }

  lemma PhoneClose(q: string, p2: string)
    requires AllDigits(p2)
    ensures Digits(q + ") " + p2) == Digits(q) + p2
  {
    DigitsSep([], ' ', p2);
    assert [] + [' '] + p2 == " " + p2;
    DigitsSep(q, ')', " " + p2);
    CloseRegroup(q, p2);
  }

  lemma PhonePieces(p1: string, p2: string, p3: string)
    requires AllDigits(p1) && AllDigits(p2) && AllDigits(p3)
    ensures Digits("(" + p1) == p1
    ensures Digits("(" + p1 + ") " + p2) == p1 + p2
    ensures Digits("(" + p1 + ") " + p2 + "-" + p3) == p1 + p2 + p3
  {
    PhoneOpen(p1);
    PhoneClose("(" + p1, p2);
    DigitsSep("(" + p1 + ") " + p2, '-', p3);
  }

  lemma PhoneDigitsOf(n: string)
    requires AllDigits(n)
    ensures Digits(FormatPhoneDigits(n)) == Take(n, 11)
  {
    if 0 < |n| <= 2 {
      PhoneOpen(n);
    } else if 2 < |n| <= 7 {
      PhoneDigitsOfSeven(n);
    } else if |n| > 7 {
      PhoneDigitsOfEleven(n);
    }
  }

  lemma PhoneDigitsOfSeven(n: string)
    requires AllDigits(n) && 2 < |n| <= 7
    ensures Digits("(" + n[..2] + ") " + n[2..]) == n
  {
    var p1, p2 := n[..2], n[2..];
    PhoneOpen(p1);
    PhoneClose("(" + p1, p2);
    assert p1 + p2 == n;
  }

  lemma PhoneDigitsOfEleven(n: string)
    requires AllDigits(n) && 7 < |n|
    ensures Digits("(" + n[..2] + ") " + n[2..7] + "-" + n[7..|Take(n, 11)|]) == Take(n, 11)
  {
    var t := Take(n, 11);
    PhonePieces(n[..2], n[2..7], n[7..|t|]);
    PhoneSlices(n);
  }

  lemma PhoneSlices(n: string)
    requires 7 < |n|
    ensures Take(n, 11) == n[..2] + n[2..7] + n[7..|Take(n, 11)|]
  {
    var t := Take(n, 11);
    assert t == t[..2] + t[2..7] + t[7..];
  }

  /**
   * The output of `formatPhone` follows the layout (##) #####-#### as far as
   * it goes, and its digits are the first eleven of the input. No digit
   * gives "".
   */
  lemma FormatPhoneShape(value: string)
    ensures FitsLayout(PhoneLayout, FormatPhone(value))
    ensures Digits(FormatPhone(value)) == Take(Digits(value), 11)
    ensures Digits(value) == [] ==> FormatPhone(value) == ""
  {
    PhoneLayoutOf(Digits(value));
    PhoneDigitsOf(Digits(value));
  }

  lemma FormatPhoneTake(n: string)
    requires AllDigits(n)
    ensures FormatPhoneDigits(Take(n, 11)) == FormatPhoneDigits(n)
  {
  }

  lemma FormatPhoneIdempotent(value: string)
    ensures FormatPhone(FormatPhone(value)) == FormatPhone(value)
  {
    FormatPhoneShape(value);
    FormatPhoneTake(Digits(value));
  }

  // ---------------------------------------------------------------------------
  // Amount

  /** The amount typed, in integer cents: the digits read as one number (0 when there is none). */
  function AmountCents(value: string): nat
  {
    DecimalValue(Digits(value))
  }

  function TwoDigits(k: nat): (r: string)
    requires k < 100
    ensures |r| == 2 && AllDigits(r) && DecimalValue(r) == k
  {
    var hi, lo := DigitChar(k / 10), DigitChar(k % 10);
    DecimalAppendDigit([], hi);
    DecimalAppendDigit([hi], lo);
    assert [] + [hi] == [hi] && [hi] + [lo] == [hi, lo];
    [hi, lo]
  }

  /**
   * `parseAmount` over exact integer cents: "0.00" when there is no digit,
   * otherwise the whole units, a point and two decimals. The part before the
   * point is the numeral of the whole units (no leading zero), the two
   * decimals are digits reading as the remaining cents, and reading the
   * output's digits back gives the cents of the input.
   */
  function ParseAmount(formatted: string): (r: string)
    ensures Digits(formatted) == [] ==> r == "0.00"
    ensures |r| >= 4 && r[|r| - 3] == '.'
    ensures r[..|r| - 3] == NatToString(AmountCents(formatted) / 100)
    ensures AllDigits(r[..|r| - 3]) && DecimalValue(r[..|r| - 3]) == AmountCents(formatted) / 100
    ensures |r| > 4 ==> r[0] != '0'
    ensures AllDigits(r[|r| - 2..]) && DecimalValue(r[|r| - 2..]) == AmountCents(formatted) % 100
    ensures DecimalValue(Digits(r)) == AmountCents(formatted)
  {
    var cents := AmountCents(formatted);
    var whole := NatToString(cents / 100);
    var frac := TwoDigits(cents % 100);
    AmountParts(whole, frac);
    if Digits(formatted) == [] then
      assert whole == "0" && frac == "00";
      "0.00"
    else
      whole + "." + frac
  }

  lemma AmountParts(whole: string, frac: string)
    requires AllDigits(whole) && AllDigits(frac) && |frac| == 2
    ensures (whole + "." + frac)[..|whole|] == whole && (whole + "." + frac)[|whole|] == '.'
    ensures (whole + "." + frac)[|whole| + 1..] == frac
    ensures Digits(whole + "." + frac) == whole + frac
    ensures DecimalValue(whole + frac) == DecimalValue(whole) * 100 + DecimalValue(frac)
  {
    DigitsSep(whole, '.', frac);
    DecimalAppendTwo(whole, frac);
  }

  // ---------------------------------------------------------------------------
  // Card brand

  /** The keys of `CARD_BRANDS`: "visa", "mastercard", "amex", "elo", "hipercard". */
  datatype Brand = Visa | Mastercard | Amex | Elo | Hipercard

  /** The alternatives of each brand's anchored pattern. */
  function BrandPrefixes(b: Brand): seq<string>
  {
    match b
    case Visa => ["4"]
    case Mastercard => ["51", "52", "53", "54", "55"]
    case Amex => ["34", "37"]
    case Elo => ["4011", "4312", "4389", "4514", "4573", "4576", "5041", "5066", "5067", "509",
                 "6277", "6362", "6363", "650", "651", "652", "653", "654", "655", "656", "657", "658"]
    case Hipercard => ["38", "60"]
  }

  predicate HasPrefix(s: string, p: string)
  {
    |p| <= |s| && s[..|p|] == p
  }

  /** `pattern.test(numbers)`. */
  predicate Matches(b: Brand, d: string)
  {
    exists p :: p in BrandPrefixes(b) && HasPrefix(d, p)
  }

  /** The order in which `Object.entries(CARD_BRANDS)` yields the brands. */
  const BrandOrder: seq<Brand> := [Visa, Mastercard, Amex, Elo, Hipercard]

  /** The position of each brand in `BrandOrder`. */
  function Rank(b: Brand): nat
  {
    match b
    case Visa => 0
    case Mastercard => 1
    case Amex => 2
    case Elo => 3
    case Hipercard => 4
  }

  /** `rank` gives every brand's position in `order`, which lists each brand once. */
  predicate Ranks(order: seq<Brand>, rank: Brand -> nat)
  {
    (forall b :: rank(b) < |order| && order[rank(b)] == b) &&
    (forall k :: 0 <= k < |order| ==> rank(order[k]) == k)
  }

  lemma RankRanks()
    ensures Ranks(BrandOrder, Rank)
  {
  }

  /** Position of the first brand of `order` whose pattern matches `d`: the `for ... of` loop with its early return. */
  function FirstMatch(order: seq<Brand>, d: string): (r: Option<nat>)
    ensures r.Some? ==> r.value < |order| && Matches(order[r.value], d)
    ensures r.Some? ==> forall j :: 0 <= j < r.value ==> !Matches(order[j], d)
    ensures r.None? ==> forall j :: 0 <= j < |order| ==> !Matches(order[j], d)
  {
    if order == [] then None
    else if Matches(order[0], d) then Some(0)
    else
      var tail := order[1..];
      assert forall j :: 1 <= j < |order| ==> order[j] == tail[j - 1];
      match FirstMatch(tail, d)
      case None => None
      case Some(k) => Some(k + 1)
  }

  /**
   * The first brand of `order` that matches `d`: no brand ranked before it
   * matches, and there is none exactly when no brand matches at all.
   */
  function DetectIn(order: seq<Brand>, ghost rank: Brand -> nat, d: string): (r: Option<Brand>)
    requires Ranks(order, rank)
    ensures r.Some? ==> Matches(r.value, d)
    ensures r.Some? ==> forall b :: rank(b) < rank(r.value) ==> !Matches(b, d)
    ensures r.None? <==> forall b :: !Matches(b, d)
  {
    var m := FirstMatch(order, d);
    match m
    case None => NoneMatches(order, rank, d); None
    case Some(k) => Some(order[k])
  }

  lemma NoneMatches(order: seq<Brand>, rank: Brand -> nat, d: string)
    requires Ranks(order, rank)
    requires forall j :: 0 <= j < |order| ==> !Matches(order[j], d)
    ensures forall b :: !Matches(b, d)
  {
    forall b ensures !Matches(b, d) {
      assert order[rank(b)] == b;
    }
  }

  /**
   * `detectCardBrand`: the first brand, in the order visa, mastercard, amex,
   * elo, hipercard, whose pattern matches the digits of the input; `None`
   * (the source's `null`) when none does.
   */
  function DetectCardBrand(cardNumber: string): (r: Option<Brand>)
    ensures r.Some? ==> Matches(r.value, Digits(cardNumber))
    ensures r.Some? ==> forall b :: Rank(b) < Rank(r.value) ==> !Matches(b, Digits(cardNumber))
    ensures r.None? <==> forall b :: !Matches(b, Digits(cardNumber))
  {
    RankRanks();
    DetectIn(BrandOrder, Rank, Digits(cardNumber))
  }

  /** Anything whose first digit is 4 is reported as visa. */
  lemma LeadingFourIsVisa(cardNumber: string)
    requires |Digits(cardNumber)| > 0 && Digits(cardNumber)[0] == '4'
    ensures DetectCardBrand(cardNumber) == Some(Visa)
  {
    assert HasPrefix(Digits(cardNumber), "4");
    assert Matches(Visa, Digits(cardNumber));
  }

  /** The Elo prefixes that begin with 4. */
  const EloPrefixesWithFour: seq<string> := ["4011", "4312", "4389", "4514", "4573", "4576"]

  lemma EloFourPrefixDigits(p: string)
    requires p in EloPrefixesWithFour
    ensures p in BrandPrefixes(Elo) && |p| == 4 && p[0] == '4' && AllDigits(p)
  {
  }

  /** A number beginning with `p`, followed by any further text. */
  lemma PrefixDigits(p: string, rest: string)
    requires AllDigits(p)
    ensures Digits(p + rest) == p + Digits(rest)
    ensures HasPrefix(Digits(p + rest), p)
  {
    DigitsAppend(p, rest);
  }

  /** As written, an Elo card whose number begins with one of those prefixes is reported as visa. */
  lemma EloFourPrefixReportedAsVisa(p: string, rest: string)
    requires p in EloPrefixesWithFour
    ensures Matches(Elo, Digits(p + rest))
    ensures DetectCardBrand(p + rest) == Some(Visa)
  {
    EloFourPrefixDigits(p);
    PrefixDigits(p, rest);
    LeadingFourIsVisa(p + rest);
  }

  /** As written, elo is reported only for numbers that do not begin with 4. */
  lemma EloReportedOnlyWithoutFour(cardNumber: string)
    requires DetectCardBrand(cardNumber) == Some(Elo)
    ensures Digits(cardNumber) != [] && Digits(cardNumber)[0] != '4'
  {
    var d := Digits(cardNumber);
    EloMatchNonEmpty(d);
    if d[0] == '4' {
      LeadingFourIsVisa(cardNumber);
    }
  }

  lemma EloMatchNonEmpty(d: string)
    requires Matches(Elo, d)
    ensures d != []
  {
    var p :| p in BrandPrefixes(Elo) && HasPrefix(d, p);
    PrefixesNonEmpty(Elo, p);
  }

  /** No pattern accepts the empty string. */
  lemma PrefixesNonEmpty(b: Brand, p: string)
    requires p in BrandPrefixes(b)
    ensures p != []
  {
  }

  // ---------------------------------------------------------------------------
  // Corrected brand order

  /** Elo tried first, so that its 4-prefixed ranges are not taken by visa's `/^4/`. */
  const CorrectedOrder: seq<Brand> := [Elo, Visa, Mastercard, Amex, Hipercard]

  /** The position of each brand in `CorrectedOrder`. */
  function CorrectedRank(b: Brand): nat
  {
    match b
    case Elo => 0
    case Visa => 1
    case Mastercard => 2
    case Amex => 3
    case Hipercard => 4
  }

  lemma CorrectedRankRanks()
    ensures Ranks(CorrectedOrder, CorrectedRank)
  {
  }

  /** `detectCardBrand` with the corrected order. */
  function DetectCardBrandCorrected(cardNumber: string): (r: Option<Brand>)
    ensures r.Some? ==> Matches(r.value, Digits(cardNumber))
    ensures r.Some? ==> forall b :: CorrectedRank(b) < CorrectedRank(r.value) ==> !Matches(b, Digits(cardNumber))
    ensures r.None? <==> forall b :: !Matches(b, Digits(cardNumber))
  {
    CorrectedRankRanks();
    DetectIn(CorrectedOrder, CorrectedRank, Digits(cardNumber))
  }

  /** With the corrected order every Elo number is reported as elo. */
  lemma {:induction false} CorrectedReportsElo(cardNumber: string)
    requires Matches(Elo, Digits(cardNumber))
    ensures DetectCardBrandCorrected(cardNumber) == Some(Elo)
  {
    var r := DetectCardBrandCorrected(cardNumber);
    assert CorrectedRank(r.value) == 0;
  }

  /** In particular the 4-prefixed Elo ranges. */
  lemma CorrectedEloFourPrefix(p: string, rest: string)
    requires p in EloPrefixesWithFour
    ensures DetectCardBrandCorrected(p + rest) == Some(Elo)
  {
    EloFourPrefixReportedAsVisa(p, rest);
    CorrectedReportsElo(p + rest);
  }

  /** The correction changes nothing for numbers that are not Elo. */
  lemma {:induction false} CorrectedAgreesWithoutElo(cardNumber: string)
    requires !Matches(Elo, Digits(cardNumber))
    ensures DetectCardBrandCorrected(cardNumber) == DetectCardBrand(cardNumber)
  {
    var d := Digits(cardNumber);
    var r1, r2 := DetectCardBrand(cardNumber), DetectCardBrandCorrected(cardNumber);
    if r1.Some? && r2.Some? {
      var b, c := r1.value, r2.value;
      assert Matches(b, d) && Matches(c, d);
      assert !(Rank(c) < Rank(b));
      assert !(CorrectedRank(b) < CorrectedRank(c));
      OrdersAgreeBesideElo(b, c);
    }
  }

  /** Without elo both orders rank the brands alike. */
  lemma OrdersAgreeBesideElo(b: Brand, c: Brand)
    requires b != Elo && c != Elo
    requires Rank(b) <= Rank(c) && CorrectedRank(c) <= CorrectedRank(b)
    ensures b == c
  {
  }

  // ---------------------------------------------------------------------------
  // E-mail

  /** Every character matches `[^\s@]`. */
  predicate Clean(s: string)
  {
    forall k :: 0 <= k < |s| ==> s[k] != '@' && !IsSpace(s[k])
  }

  lemma CleanConcat(a: string, b: string)
    ensures Clean(a + b) <==> Clean(a) && Clean(b)
  {
    if Clean(a) && Clean(b) {
      forall k | 0 <= k < |a + b| ensures (a + b)[k] != '@' && !IsSpace((a + b)[k]) {
        if k >= |a| { assert (a + b)[k] == b[k - |a|]; }
      }
    }
    if Clean(a + b) {
      forall k | 0 <= k < |b| ensures b[k] != '@' && !IsSpace(b[k]) {
        assert (a + b)[|a| + k] == b[k];
      }
      forall k | 0 <= k < |a| ensures a[k] != '@' && !IsSpace(a[k]) {
        assert (a + b)[k] == a[k];
      }
    }
  }

  /** `s` is `l@d1.d2` with every part non-empty and clean. */
  predicate Decomposes(s: string, l: string, d1: string, d2: string)
  {
    l != [] && d1 != [] && d2 != [] && Clean(l) && Clean(d1) && Clean(d2) && s == l + "@" + (d1 + "." + d2)
  }

  /** The pattern `^[^\s@]+@[^\s@]+\.[^\s@]+$` read as a decomposition of the whole string. */
  ghost predicate EmailPattern(s: string)
  {
    exists l, d1, d2 :: Decomposes(s, l, d1, d2)
  }

  /** The domain: clean, with a point that is neither its first nor its last character. */
  predicate DomainOk(d: string)
  {
    |d| >= 3 && Clean(d) && '.' in d[1..|d| - 1]
  }

  /** `validateEmail`. */
  function ValidateEmail(email: string): (r: bool)
    ensures r <==> EmailPattern(email)
  {
    var r := '@' in email && IndexOf(email, '@') > 0 && Clean(email[..IndexOf(email, '@')])
             && DomainOk(email[IndexOf(email, '@') + 1..]);
    if r then EmailMatches(email); r else EmailParts(email); r
  }

  lemma DomainSplit(d: string) returns (d1: string, d2: string)
    requires DomainOk(d)
    ensures d1 != [] && d2 != [] && Clean(d1) && Clean(d2) && d == d1 + "." + d2
  {
    var j := 1 + IndexOf(d[1..|d| - 1], '.');
    d1, d2 := d[..j], d[j + 1..];
    assert d == d1 + "." + d2;
    CleanConcat(d1, "." + d2);
    CleanConcat(".", d2);
  }

  lemma EmailMatches(email: string)
    requires '@' in email && IndexOf(email, '@') > 0 && Clean(email[..IndexOf(email, '@')])
    requires DomainOk(email[IndexOf(email, '@') + 1..])
    ensures EmailPattern(email)
  {
    var i := IndexOf(email, '@');
    var l, d := email[..i], email[i + 1..];
    var d1, d2 := DomainSplit(d);
    assert email == l + "@" + d;
    assert Decomposes(email, l, d1, d2);
  }

  lemma EmailParts(email: string)
    ensures EmailPattern(email) ==>
              '@' in email && IndexOf(email, '@') > 0 && Clean(email[..IndexOf(email, '@')]) &&
              DomainOk(email[IndexOf(email, '@') + 1..])
  {
    if EmailPattern(email) {
      var l, d1, d2 :| Decomposes(email, l, d1, d2);
      EmailPartsOf(email, l, d1 + "." + d2);
      DomainOf(d1, d2);
    }
  }

  lemma DomainOf(d1: string, d2: string)
    requires d1 != [] && d2 != [] && Clean(d1) && Clean(d2)
    ensures DomainOk(d1 + "." + d2)
  {
    var d := d1 + "." + d2;
    assert d[1..|d| - 1][|d1| - 1] == '.';
    CleanConcat(d1, "." + d2);
    CleanConcat(".", d2);
  }

  lemma EmailPartsOf(email: string, l: string, d: string)
    requires l != [] && Clean(l) && email == l + "@" + d
    ensures '@' in email && IndexOf(email, '@') == |l|
    ensures email[..|l|] == l && email[|l| + 1..] == d
  {
    assert email[|l|] == '@';
    assert email[..|l|] == l;
    assert email[|l| + 1..] == d;
  }
}
