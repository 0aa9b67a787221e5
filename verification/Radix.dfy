/** Unsigned numbers printed in a base and parsed back.  Unsigned longs are
    32 bits wide. */
module Radix {
  import opened Basics

  const DIGITS := "0123456789abcdefghijklmnopqrstuvwxyz"

  predicate ValidBase(base: int) {
    2 <= base <= 36
  }

  function DivMod(v: nat, base: nat): (r: (nat, nat))
    requires ValidBase(base)
    ensures v == r.0 * base + r.1 && r.1 < base && r.0 <= v && (v > 0 ==> r.0 < v)
  {
    QuotientSmaller(v / base, base, v % base);
    (v / base, v % base)
  }

  lemma QuotientSmaller(q: nat, base: nat, d: nat)
    requires base >= 2
    ensures q <= q * base + d && (q * base + d > 0 ==> q < q * base + d)
  {
    assert q * base == q + q * (base - 1);
    assert q * (base - 1) >= q * 1;
  }

  // ---------- printing (lib/libc/stdlib/itoa.c) ----------

  /** The digits of a number, most significant first. */
  function Digits(v: nat, base: nat): (s: string)
    requires ValidBase(base)
    ensures |s| > 0
    decreases v
  {
    var (q, d) := DivMod(v, base);
    if q == 0 then [DIGITS[d]] else Digits(q, base) + [DIGITS[d]]
  }

  function Reversed(s: string): (r: string)
    ensures |r| == |s|
  {
    if s == [] then [] else Reversed(s[1..]) + [s[0]]
  }

  lemma {:induction false} ReversedAt(s: string, i: nat)
    requires i < |s|
    ensures Reversed(s)[i] == s[|s| - 1 - i]
  {
    if i < |s| - 1 { ReversedAt(s[1..], i); }
  }

  lemma {:induction false} ReversedConcat(s: string, t: string)
    ensures Reversed(s + t) == Reversed(t) + Reversed(s)
  {
    if s == [] {
      assert s + t == t;
      assert Reversed(t) + [] == Reversed(t);
    } else {
      assert (s + t)[1..] == s[1..] + t;
      ReversedConcat(s[1..], t);
      assert Reversed(t) + Reversed(s[1..]) + [s[0]] == Reversed(t) + (Reversed(s[1..]) + [s[0]]);
    }
  }

  lemma {:induction false} ReversedTwice(s: string)
    ensures Reversed(Reversed(s)) == s
  {
    if s != [] {
      ReversedTwice(s[1..]);
      ReversedConcat(Reversed(s[1..]), [s[0]]);
      assert s == [s[0]] + s[1..];
    }
  }

  /** The in-place reversal at the end of `_ulitostr`. */
  method ReverseInPlace(str: array<char>, n: nat)
    requires n <= str.Length
    modifies str
    ensures str[..n] == Reversed(old(str[..n]))
    ensures str[n..] == old(str[n..])
  {
    ghost var was := str[..n];
    if n > 0 {
      var i, end := 0, n - 1;
      while i < end
        invariant 0 <= i && i + end == n - 1 && i <= end + 1
        invariant forall j | 0 <= j < i :: str[j] == was[n - 1 - j] && str[n - 1 - j] == was[j]
        invariant forall j | i <= j <= end :: str[j] == was[j]
        invariant str[n..] == old(str[n..])
      {
        str[i], str[end] := str[end], str[i];
        i, end := i + 1, end - 1;
      }
    }
    forall j | 0 <= j < n
      ensures str[..n][j] == Reversed(was)[j]
    {
      ReversedAt(was, j);
    }
  }

  /** One turn of the digit loop moves the last digit over to the reversed part. */
  lemma NextDigit(v: nat, base: nat, low: string)
    requires ValidBase(base)
    ensures var (q, d) := DivMod(v, base);
            Digits(v, base) + Reversed(low) == (if q == 0 then [] else Digits(q, base)) + Reversed(low + [DIGITS[d]])
  {
    var (q, d) := DivMod(v, base);
    ReversedConcat(low, [DIGITS[d]]);
    assert Reversed([DIGITS[d]]) == [DIGITS[d]];
    if q > 0 {
      assert Digits(q, base) + [DIGITS[d]] + Reversed(low) == Digits(q, base) + ([DIGITS[d]] + Reversed(low));
    }
  }

  /** `_ulitostr` (and, on this machine, `_uitostr`): exactly the digits of the
      number, or -1 for a base it does not know. */
  method ULiToStr(value: nat, str: array<char>, base: int) returns (n: int)
    requires value < 0x1_0000_0000 && (ValidBase(base) ==> |Digits(value, base)| <= str.Length)
    modifies str
    ensures !ValidBase(base) ==> n == -1 && str[..] == old(str[..])
    ensures ValidBase(base) ==>
              n == |Digits(value, base)| && str[..n] == Digits(value, base) && str[n..] == old(str[n..])
  {
    if !ValidBase(base) { return -1; }
    hide Digits, Reversed;
    var v, end := value, 0;
    ghost var all := Digits(value, base);
    assert Reversed([]) == [] && all + [] == all;
    while true
      invariant end < |all| <= str.Length
      invariant all == Digits(v, base) + Reversed(str[..end])
      invariant str[|all|..] == old(str[|all|..])
      decreases v
    {
      var (q, d) := DivMod(v, base);
      ghost var low := str[..end];
      NextDigit(v, base, low);
      str[end] := DIGITS[d];
      end := end + 1;
      assert str[..end] == low + [DIGITS[d]];
      v := q;
      if v == 0 { break; }
    }
    n := end;
    ReverseInPlace(str, end);
  }

  // ---------- parsing (lib/libc/stdlib/strtol.c) ----------

  predicate IsDigit(c: char) { '0' <= c <= '9' }
  predicate IsUpper(c: char) { 'A' <= c <= 'Z' }
  predicate IsLower(c: char) { 'a' <= c <= 'z' }
  predicate IsSpace(c: char) { c == ' ' || 9 <= c as int <= 13 }

  /** Value of an alphanumeric character as a digit; 36 for any other, above every base. */
  function DigitValue(c: char): (d: nat)
    ensures d <= 36
  {
    if IsDigit(c) then c as int - '0' as int
    else if IsLower(c) then c as int - 'a' as int + 10
    else if IsUpper(c) then c as int - 'A' as int + 10
    else 36
  }

  /** The value of a run of digits, before any wrap-around. */
  function Value(s: string, base: nat): nat {
    if s == [] then 0 else Append(Value(s[..|s| - 1], base), base, DigitValue(s[|s| - 1]))
  }

  predicate AllDigits(s: string, base: nat) {
    forall i | 0 <= i < |s| :: DigitValue(s[i]) < base
  }

  const CAPITALS := "ABCDEFGHIJKLMNOPQRSTUVWXYZ"

  lemma DigitCode(c: char)
    ensures var x := c as int;
            DigitValue(c) == if 48 <= x <= 57 then x - 48 else if 97 <= x <= 122 then x - 87
                             else if 65 <= x <= 90 then x - 55 else 36
  {
  }

  /** The digits and small letters are worth their place in order, and so are
      the capitals, from 10 on. */
  lemma DigitWorth(d: nat)
    requires d < 36
    ensures DigitValue(DIGITS[d]) == d && (d >= 10 ==> DigitValue(CAPITALS[d - 10]) == d)
  {
    DigitCode(DIGITS[d]);
    SmallDigitIs(d);
    if d >= 10 {
      DigitCode(CAPITALS[d - 10]);
      CapitalIs(d - 10);
    }
    hide DigitValue;
  }

  /** No other character is a digit in any base. */
  lemma DigitValueIs(c: char)
    ensures var d := DigitValue(c); d < 36 ==> DIGITS[d] == c || (d >= 10 && CAPITALS[d - 10] == c)
  {
    DigitCode(c);
    hide DigitValue;
    var d := DigitValue(c);
    if d < 36 {
      SmallDigitIs(d);
      if d >= 10 { CapitalIs(d - 10); }
    }
  }

  lemma SmallDigitIs(d: nat)
    requires d < 36
    ensures DIGITS[d] as int == if d < 10 then 48 + d else 87 + d
  {
  }

  lemma CapitalIs(d: nat)
    requires d < 26
    ensures CAPITALS[d] as int == 65 + d
  {
  }

  /** White space: a space, or one of the five controls from tab to return. */
  lemma SpaceIs(c: char)
    ensures IsSpace(c) <==> c in " \t\n\U{000b}\U{000c}\r"
  {
  }

  /** A number with one more digit. */
  function Append(x: nat, base: nat, d: nat): nat {
    x * base + d
  }

  lemma WrapStep(x: nat, base: nat, d: nat)
    ensures Wrap(Append(Wrap(x), base, d)) == Wrap(Append(x, base, d))
  {
    var q := x / 0x1_0000_0000;
    assert x == q * 0x1_0000_0000 + Wrap(x);
    assert x * base + d == (Wrap(x) * base + d) + (q * base) * 0x1_0000_0000;
    WrapShift(Wrap(x) * base + d, q * base);
  }

  lemma NoDigits(base: nat)
    ensures Wrap(Value([], base)) == 0
  {
  }

  lemma OneMoreDigit(run: string, c: char, base: nat)
    ensures Wrap(Value(run + [c], base)) == Wrap(Append(Wrap(Value(run, base)), base, DigitValue(c)))
  {
    hide Wrap, Append;
    assert (run + [c])[..|run|] == run;
    WrapStep(Value(run, base), base, DigitValue(c));
  }

  /** The digit loop of `strtotype`: the longest run of digits, in 32 bits. */
  method ParseDigits(s: string, start: nat, base: nat) returns (num: nat, end: nat)
    requires start <= |s| && ValidBase(base)
    ensures start <= end <= |s| && AllDigits(s[start..end], base)
    ensures end < |s| ==> DigitValue(s[end]) >= base
    ensures num == Wrap(Value(s[start..end], base))
  {
    hide Wrap, Value, DigitValue;
    num, end := 0, start;
    NoDigits(base);
    assert s[start..start] == [];
    while end < |s|
      invariant start <= end <= |s| && AllDigits(s[start..end], base)
      invariant num == Wrap(Value(s[start..end], base))
    {
      if DigitValue(s[end]) >= base { return; }
      ghost var run := s[start..end];
      OneMoreDigit(run, s[end], base);
      assert s[start..end + 1] == run + [s[end]];
      num := Wrap(Append(num, base, DigitValue(s[end])));
      end := end + 1;
    }
  }

  lemma WrapSmall(x: nat)
    requires x < 0x1_0000_0000
    ensures Wrap(x) == x
  {
  }

  /** Leading white space. */
  function Spaces(s: string): (n: nat)
    ensures n <= |s| && (n < |s| ==> !IsSpace(s[n])) && forall i | 0 <= i < n :: IsSpace(s[i])
  {
    if s == [] || !IsSpace(s[0]) then 0 else 1 + Spaces(s[1..])
  }

  predicate IsSign(c: char) { c == '-' || c == '+' }
  predicate IsX(c: char) { c == 'x' || c == 'X' }

  function SignLength(t: string): (n: nat)
    ensures n <= |t|
  {
    if t != "" && IsSign(t[0]) then 1 else 0
  }

  function PrefixLength(t: string): (n: nat)
    ensures n <= 2 && n <= |t|
  {
    if t == "" || t[0] != '0' then 0 else if |t| > 1 && IsX(t[1]) then 2 else 1
  }

  /** The base a prefix of this length tells. */
  function ToldBase(n: nat): (b: nat)
    ensures ValidBase(b)
  {
    if n == 0 then 10 else if n == 1 then 8 else 16
  }

  /** Where the digits start, in which base, and whether a minus came before them. */
  function Head(s: string, base: int): (r: (nat, nat, bool))
    requires base == 0 || ValidBase(base)
    ensures r.0 <= |s| && ValidBase(r.1)
  {
    var n := Spaces(s);
    var p := n + SignLength(s[n..]);
    var neg := n < |s| && s[n] == '-';
    if base != 0 then (p, base, neg)
    else
      var k := PrefixLength(s[p..]);
      (p + k, ToldBase(k), neg)
  }

  /** A text taken apart: white space, a sign, the prefix that tells the base,
      and what follows. */
  datatype Parts = Parts(white: string, sign: string, prefix: string, rest: string) {
    function Tail(): string { prefix + rest }

    function Text(): string { white + (sign + Tail()) }

    /** Each part is as long as it can be. */
    predicate Fit(base: int) {
      && (forall i | 0 <= i < |white| :: IsSpace(white[i]))
      && SignFits(sign, Tail())
      && if base == 0 then PrefixFits(prefix, rest) else prefix == ""
    }

    predicate Minus() { sign == "-" }

    /** The base that was given, or the one the prefix tells. */
    function TheBase(base: int): int {
      if base != 0 then base else match |prefix| case 0 => 10 case 1 => 8 case _ => 16
    }
  }

  predicate SignFits(sign: string, tail: string) {
    if sign == "" then tail == "" || (!IsSpace(tail[0]) && !IsSign(tail[0])) else |sign| == 1 && IsSign(sign[0])
  }

  predicate PrefixFits(prefix: string, rest: string) {
    match |prefix|
    case 0 => rest == "" || rest[0] != '0'
    case 1 => prefix[0] == '0' && (rest == "" || !IsX(rest[0]))
    case 2 => prefix[0] == '0' && IsX(prefix[1])
    case _ => false
  }

  lemma {:induction false} SpacesOf(white: string, tail: string)
    requires (forall i | 0 <= i < |white| :: IsSpace(white[i])) && (tail == "" || !IsSpace(tail[0]))
    ensures Spaces(white + tail) == |white| && (white + tail)[|white|..] == tail
  {
    if white == "" {
      assert white + tail == tail;
    } else {
      assert (white + tail)[1..] == white[1..] + tail;
      SpacesOf(white[1..], tail);
    }
  }

  lemma SignOf(sign: string, tail: string)
    requires SignFits(sign, tail)
    ensures SignLength(sign + tail) == |sign| && (sign + tail)[|sign|..] == tail
    ensures var t := sign + tail; (t == "" || !IsSpace(t[0])) && (sign == "-" <==> t != "" && t[0] == '-')
  {
    if sign == "" { assert sign + tail == tail; }
  }

  lemma PrefixOf(prefix: string, rest: string)
    requires PrefixFits(prefix, rest)
    ensures PrefixLength(prefix + rest) == |prefix|
  {
    if prefix == "" { assert prefix + rest == rest; }
  }

  lemma HeadIs(s: string, base: int, n: nat, k: nat)
    requires (base == 0 || ValidBase(base)) && Spaces(s) == n && SignLength(s[n..]) == k
    ensures n + k <= |s|
    ensures var j := if base == 0 then PrefixLength(s[n + k..]) else 0;
            Head(s, base) == (n + k + j, if base == 0 then ToldBase(j) else base, n < |s| && s[n] == '-')
  {
    hide Spaces, SignLength, PrefixLength;
  }

  lemma LengthsAt(s: string, n: nat)
    requires n <= |s|
    ensures SignLength(s[n..]) == if n < |s| && IsSign(s[n]) then 1 else 0
    ensures PrefixLength(s[n..]) ==
            if n == |s| || s[n] != '0' then 0 else if n + 1 < |s| && IsX(s[n + 1]) then 2 else 1
  {
  }

  lemma DropTwice(s: string, n: nat, k: nat)
    requires n + k <= |s|
    ensures s[n..][k..] == s[n + k..]
  {
  }

  /** However a text is put together, `Head` finds the parts again. */
  lemma {:induction false} HeadOfParts(h: Parts, base: int)
    requires (base == 0 || ValidBase(base)) && h.Fit(base)
    ensures Head(h.Text(), base) == (|h.Text()| - |h.rest|, h.TheBase(base), h.Minus())
  {
    var s, n, k, t := h.Text(), |h.white|, |h.sign|, h.sign + h.Tail();
    SignOf(h.sign, h.Tail());
    SpacesOf(h.white, t);
    if base == 0 { PrefixOf(h.prefix, h.rest); }
    hide Spaces, SignLength, PrefixLength, SignFits, PrefixFits, IsSpace, Head, ToldBase, Parts.Fit;
    HeadIs(s, base, n, k);
    DropTwice(s, n, k);
    assert s[n + k..] == h.Tail();
    FirstOf(h.white, t);
  }

  lemma FirstOf(a: string, b: string)
    ensures |a| < |a + b| <==> b != ""
    ensures b != "" ==> (a + b)[|a|] == b[0]
  {
  }

  lemma SignCut(t: string)
    requires t == "" || !IsSpace(t[0])
    ensures var k := SignLength(t); SignFits(t[..k], t[k..]) && t == t[..k] + t[k..]
  {
    if SignLength(t) == 0 { assert t[..0] == "" && t[0..] == t; }
  }

  lemma PrefixCut(t: string)
    ensures var k := PrefixLength(t); PrefixFits(t[..k], t[k..]) && t == t[..k] + t[k..]
  {
    if PrefixLength(t) == 0 { assert t[..0] == "" && t[0..] == t; }
  }

  lemma FitTogether(white: string, t: string, base: int) returns (h: Parts)
    requires (forall i | 0 <= i < |white| :: IsSpace(white[i])) && (t == "" || !IsSpace(t[0]))
    ensures h.Text() == white + t && h.Fit(base)
  {
    var k := SignLength(t);
    var u := t[k..];
    var j := if base == 0 then PrefixLength(u) else 0;
    SignCut(t);
    PrefixCut(u);
    assert u == u[..j] + u[j..];
    h := Parts(white, t[..k], u[..j], u[j..]);
    hide SignLength, PrefixLength, SignFits, PrefixFits, IsSpace;
    assert h.Tail() == u;
  }

  /** Every text has such parts. */
  lemma PartsOf(s: string, base: int) returns (h: Parts)
    ensures h.Text() == s && h.Fit(base)
  {
    var n := Spaces(s);
    hide Spaces, Parts.Text, Parts.Fit, IsSpace;
    h := FitTogether(s[..n], s[n..], base);
    assert s == s[..n] + s[n..];
  }

  /** A value and an end are right for the string: all of it is digits, or the
      end is at the first character that is not. */
  predicate Parses(s: string, base: int, num: nat, endptr: Option<nat>)
    requires base == 0 || ValidBase(base)
  {
    var (start, b, neg) := Head(s, base);
    match endptr
    case None => AllDigits(s[start..], b) && num == Wrap(Value(s[start..], b))
    case Some(e) =>
      && start <= e < |s| && AllDigits(s[start..e], b) && DigitValue(s[e]) >= b
      && num == if neg then Wrap(0x1_0000_0000 - Wrap(Value(s[start..e], b))) else Wrap(Value(s[start..e], b))
  }

  /** The first character from `start` on that is not a digit, or the end. */
  function Stop(s: string, start: nat, b: nat): (e: nat)
    requires start <= |s|
    ensures start <= e <= |s| && AllDigits(s[start..e], b) && (e < |s| ==> DigitValue(s[e]) >= b)
    decreases |s| - start
  {
    if start == |s| || DigitValue(s[start]) >= b then start
    else
      var e := Stop(s, start + 1, b);
      assert s[start..e] == [s[start]] + s[start + 1..e];
      e
  }

  /** The number read, in 32 bits, before the sign. */
  function Magnitude(s: string, base: int): nat
    requires base == 0 || ValidBase(base)
  {
    var (start, b, neg) := Head(s, base);
    Wrap(Value(s[start..Stop(s, start, b)], b))
  }

  /** ... and with it, as documented. */
  function Signed(s: string, base: int): nat
    requires base == 0 || ValidBase(base)
  {
    if Head(s, base).2 then Wrap(0x1_0000_0000 - Magnitude(s, base)) else Magnitude(s, base)
  }

  lemma DigitsAt(s: string, start: nat, e: nat, b: nat)
    requires start <= e <= |s| && AllDigits(s[start..e], b)
    ensures forall i | start <= i < e :: DigitValue(s[i]) < b
  {
    hide DigitValue;
    forall i | start <= i < e
      ensures DigitValue(s[i]) < b
    {
      assert s[start..e][i - start] == s[i];
    }
  }

  lemma StopIs(s: string, start: nat, b: nat, e: nat)
    requires start <= e <= |s| && AllDigits(s[start..e], b) && (e < |s| ==> DigitValue(s[e]) >= b)
    ensures Stop(s, start, b) == e
  {
    hide DigitValue;
    var f := Stop(s, start, b);
    DigitsAt(s, start, e, b);
    DigitsAt(s, start, f, b);
  }

  function DigitsEnd(s: string, base: int): (e: nat)
    requires base == 0 || ValidBase(base)
    ensures e <= |s|
  {
    Stop(s, Head(s, base).0, Head(s, base).1)
  }

  /** What is returned, of whatever string. */
  lemma ParsesIs(s: string, base: int, num: nat, endptr: Option<nat>)
    requires (base == 0 || ValidBase(base)) && Parses(s, base, num, endptr)
    ensures endptr == if DigitsEnd(s, base) < |s| then Some(DigitsEnd(s, base)) else None
    ensures num == if endptr.Some? then Signed(s, base) else Magnitude(s, base)
  {
    var (start, b, neg) := Head(s, base);
    hide Head, Value, DigitValue, AllDigits, Stop, Wrap;
    match endptr
    case None =>
      assert s[start..|s|] == s[start..];
      StopIs(s, start, b, |s|);
    case Some(e) =>
      StopIs(s, start, b, e);
  }

  /** `strtoul` sets `endptr` exactly if the digits stop early.  It gives the
      signed value exactly if it does, or there is no minus, or the sign makes
      no difference. */
  lemma SignedIff(s: string, base: int, num: nat, endptr: Option<nat>)
    requires (base == 0 || ValidBase(base)) && Parses(s, base, num, endptr)
    ensures endptr == if DigitsEnd(s, base) < |s| then Some(DigitsEnd(s, base)) else None
    ensures num == Signed(s, base) <==>
            || !Head(s, base).2
            || DigitsEnd(s, base) < |s|
            || Magnitude(s, base) == 0 || Magnitude(s, base) == 0x8000_0000
  {
    ParsesIs(s, base, num, endptr);
    MagnitudeBound(s, base);
    hide Head, Parses, Magnitude, DigitsEnd, Wrap;
    NegationFixes(Magnitude(s, base));
  }

  lemma MagnitudeBound(s: string, base: int)
    requires base == 0 || ValidBase(base)
    ensures Magnitude(s, base) < 0x1_0000_0000
  {
    hide Head, Value, Stop;
  }

  lemma NegationFixes(x: nat)
    requires x < 0x1_0000_0000
    ensures Wrap(0x1_0000_0000 - x) == x <==> x == 0 || x == 0x8000_0000
  {
  }

  lemma MinusFive()
    ensures Head("-5", 10) == (1, 10, true) && "-5"[1..2] == "5" && "-5"[1..] == "5"
    ensures Wrap(Value("5", 10)) == 5 && AllDigits("5", 10)
  {
    assert Spaces("-5") == 0 && "-5"[0..] == "-5";
    assert "5"[..0] == "";
  }

  /** "-5" in base 10 is 5, and `endptr` is not set. */
  lemma MinusIgnored(num: nat, endptr: Option<nat>)
    ensures Parses("-5", 10, num, endptr) <==> num == 5 && endptr == None
    ensures Signed("-5", 10) == 0x1_0000_0000 - 5
  {
    MinusFive();
    hide Head, Value, AllDigits, Wrap, DigitValue;
    StopIs("-5", 1, 10, 2);
    assert DigitsEnd("-5", 10) == 2 && Magnitude("-5", 10) == 5;
    assert Wrap(0x1_0000_0000 - 5) == 0x1_0000_0000 - 5 by { WrapSmall(0x1_0000_0000 - 5); }
    if Parses("-5", 10, num, endptr) { ParsesIs("-5", 10, num, endptr); }
  }

  /** `strtoul`.  A string that is digits to its end leaves `endptr` alone and
      is not negated; otherwise `endptr` is set to the first other character
      and the value so far is negated after a minus.  In no base at all
      `endptr` is the whole string and the value is whatever was on the stack. */
  method StrToUL(s: string, base: int) returns (num: nat, endptr: Option<nat>)
    ensures !(base == 0 || ValidBase(base)) ==> endptr == Some(0)
    ensures base == 0 || ValidBase(base) ==> Parses(s, base, num, endptr)
  {
    hide Wrap, Value, DigitValue, AllDigits, Head;
    if !(base == 0 || ValidBase(base)) {
      num := *;
      return num, Some(0);
    }
    var start, b, neg := ReadHead(s, base);
    var end;
    num, end := ParseDigits(s, start, b);
    if end == |s| {
      assert s[start..end] == s[start..];
      return num, None;
    }
    endptr := Some(end);
    if neg {
      WrapBound(Value(s[start..end], b));
      num := Wrap(0x1_0000_0000 - num);
    }
  }

  /** `Head` finds the parts of a text, however it is put together. */
  lemma HeadFindsParts(s: string, base: int)
    requires base == 0 || ValidBase(base)
    ensures forall h: Parts | h.Text() == s && h.Fit(base) ::
              Head(s, base) == (|s| - |h.rest|, h.TheBase(base), h.Minus())
  {
    hide Head, Parts.Fit, Parts.TheBase, Parts.Minus;
    forall h: Parts | h.Text() == s && h.Fit(base)
      ensures Head(s, base) == (|s| - |h.rest|, h.TheBase(base), h.Minus())
    {
      HeadOfParts(h, base);
    }
  }

  /** Spaces, a sign, and, if no base is given, the prefix that tells it: the
      digits start behind these parts, whatever they are. */
  method ReadHead(s: string, base: int) returns (p: nat, b: nat, neg: bool)
    requires base == 0 || ValidBase(base)
    ensures (p, b, neg) == Head(s, base)
    ensures forall h: Parts | h.Text() == s && h.Fit(base) ::
              p == |s| - |h.rest| && b == h.TheBase(base) && (neg <==> h.Minus())
  {
    hide Spaces, Head, SignLength, PrefixLength, Parts.Text, Parts.Fit, Parts.TheBase, Parts.Minus;
    HeadFindsParts(s, base);
    p := SkipSpaces(s);
    ghost var n := p;
    LengthsAt(s, n);
    neg := false;
    if p < |s| && s[p] == '-' {
      neg, p := true, p + 1;
    } else if p < |s| && s[p] == '+' {
      p := p + 1;
    }
    HeadIs(s, base, n, p - n);
    LengthsAt(s, p);
    b := base;
    if base == 0 {
      b := 10;
      if p < |s| && s[p] == '0' {
        p, b := p + 1, 8;
        if p < |s| && (s[p] == 'x' || s[p] == 'X') { p, b := p + 1, 16; }
      }
    }
  }

  method SkipSpaces(s: string) returns (p: nat)
    ensures p == Spaces(s)
  {
    p := 0;
    while p < |s| && IsSpace(s[p])
      invariant p <= |s| && Spaces(s) == p + Spaces(s[p..])
    {
      assert s[p..][1..] == s[p + 1..];
      p := p + 1;
    }
  }

  lemma WrapBound(x: nat)
    ensures Wrap(x) < 0x1_0000_0000
  {
  }

  // ---------- there and back ----------

  lemma DigitOfValue(d: nat)
    requires d < 36
    ensures DigitValue(DIGITS[d]) == d && !IsSpace(DIGITS[d]) && DIGITS[d] != '-' && DIGITS[d] != '+'
  {
    DigitWorth(d);
    SmallDigitIs(d);
    hide DigitValue;
  }

  /** The digits of `v` are digits of the base, and their value is `v`. */
  lemma {:induction false} DigitsValue(v: nat, base: nat)
    requires ValidBase(base)
    ensures AllDigits(Digits(v, base), base) && Value(Digits(v, base), base) == v
    ensures exists d: nat :: d < 36 && Digits(v, base)[0] == DIGITS[d]
    decreases v
  {
    var (q, d) := DivMod(v, base);
    DigitOfValue(d);
    hide DivMod, DigitValue;
    var s := Digits(v, base);
    if q == 0 {
      assert s == [DIGITS[d]] && s[..0] == [];
    } else {
      DigitsValue(q, base);
      assert s[..|s| - 1] == Digits(q, base);
    }
  }

  /** No prefix of a run of digits is worth more than the run, so parsing it
      never leaves 32 bits if the number fits. */
  lemma {:induction false} PrefixValue(s: string, base: nat, n: nat)
    requires ValidBase(base) && n <= |s|
    ensures Value(s[..n], base) <= Value(s, base)
    decreases |s|
  {
    if n < |s| {
      PrefixValue(s[..|s| - 1], base, n);
      assert s[..|s| - 1][..n] == s[..n];
      MulAtLeast(Value(s[..|s| - 1], base), base);
    } else {
      assert s[..n] == s;
    }
  }

  lemma MulAtLeast(x: nat, base: nat)
    requires base >= 1
    ensures x * base >= x
  {
  }

  function Pow(base: nat, n: nat): nat {
    if n == 0 then 1 else base * Pow(base, n - 1)
  }

  /** The digit count is the exact radix length. */
  lemma {:induction false} DigitCount(v: nat, base: nat)
    requires ValidBase(base)
    ensures v < Pow(base, |Digits(v, base)|)
    ensures v > 0 ==> Pow(base, |Digits(v, base)| - 1) <= v
    decreases v
  {
    var (q, d) := DivMod(v, base);
    var n := |Digits(v, base)|;
    hide DivMod;
    if q == 0 {
      assert n == 1 && Pow(base, 1) == base * Pow(base, 0);
    } else {
      DigitCount(q, base);
      assert n - 1 == |Digits(q, base)| > 0;
      Scale(q, d, base, Pow(base, n - 2), Pow(base, n - 1));
    }
  }

  lemma Scale(q: nat, d: nat, base: nat, lo: nat, hi: nat)
    requires lo <= q < hi && d < base
    ensures base * lo <= q * base + d < base * hi
  {
    assert (q + 1) * base <= hi * base;
    assert lo * base <= q * base;
  }

  /** Printing in a base and parsing in it gives the number back, and the parse
      takes the whole string. */
  method RoundTrip(v: nat, base: nat, str: array<char>) returns (num: nat, endptr: Option<nat>)
    requires v < 0x1_0000_0000 && ValidBase(base) && |Digits(v, base)| <= str.Length
    modifies str
    ensures num == v && endptr == None
  {
    DigitsValue(v, base);
    HeadOfDigits(Digits(v, base), base);
    hide Digits, Value, DigitValue, Wrap, Head;
    WrapSmall(v);
    var n := ULiToStr(v, str, base);
    var s := str[..n];
    num, endptr := StrToUL(s, base);
    assert s[0..] == s;
  }

  lemma HeadOfDigits(s: string, base: nat)
    requires ValidBase(base) && s != [] && exists d: nat :: d < 36 && s[0] == DIGITS[d]
    ensures Head(s, base) == (0, base, false)
  {
    var d: nat :| d < 36 && s[0] == DIGITS[d];
    DigitOfValue(d);
  }
}
