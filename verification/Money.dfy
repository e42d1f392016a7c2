/** Money text: the strict parser, the printer it must invert, and the sanitizer
    at the API boundary that must not change a meaning. */
module Money {
  import opened Wrappers
  import opened Characters

  /** `units` times ten to the minus `scale`. */
  datatype Decimal = Decimal(units: int, scale: nat)

  predicate IsDressing(c: char) { c == '$' || IsSpace(c) }

  predicate IsComma(c: char) { c == ',' }

  predicate IsDollar(c: char) { c == '$' }

  predicate IsNumber(s: string) { s != [] && Every(s, IsDigit) }

  // ---------------------------------------------------------------- grammar

  /** Groups of three digits after a first one of one to three, with at least one comma. */
  predicate Grouped(s: string) {
    |s| >= 5 && s[|s| - 4] == ',' && IsNumber(s[|s| - 3..])
    && var head := s[..|s| - 4]; (|head| <= 3 && IsNumber(head)) || Grouped(head)
  }

  predicate IsWhole(s: string) { IsNumber(s) || Grouped(s) }

  /** Where the first dot is. */
  function Dot(s: string): (n: nat)
    ensures n <= |s| && (n < |s| ==> s[n] == '.') && forall i :: 0 <= i < n ==> s[i] != '.'
  {
    if s == [] || s[0] == '.' then 0 else 1 + Dot(s[1..])
  }

  function WholePart(s: string): string { s[..Dot(s)] }

  function Fraction(s: string): string { if Dot(s) == |s| then [] else s[Dot(s) + 1..] }

  /** The US structure, checked before any comma is dropped. */
  predicate IsUS(s: string) {
    IsWhole(WholePart(s)) && (Dot(s) == |s| || IsNumber(Fraction(s)))
  }

  function ValueOf(digits: string): nat {
    if digits == [] then 0 else 10 * ValueOf(digits[..|digits| - 1]) + DigitOf(digits[|digits| - 1])
  }

  function Pow10(n: nat): (p: nat)
    ensures p > 0
  {
    if n == 0 then 1 else 10 * Pow10(n - 1)
  }

  function DecimalOf(s: string): (d: Decimal)
    ensures d.units >= 0
  {
    Decimal(ValueOf(Remove(WholePart(s), IsComma) + Fraction(s)), |Fraction(s)|)
  }

  // ----------------------------------------------------------------- parser

  /** The first number of more than 28 digits. */
  const TOO_LONG: nat := 10_000_000_000_000_000_000_000_000_000

  /** How many digits beyond 28 the number has. */
  function Excess(n: nat): nat {
    if n < TOO_LONG then 0 else 1 + Excess(n / 10)
  }

  lemma RemainderIsLess(n: nat, p: nat)
    requires p > 0
    ensures n % p <= n
  {
    if n < p {
      assert n % p == n;
    }
  }

  /** `n` rounded to a multiple of `p`, half to even. */
  function RoundTo(n: nat, p: nat): nat
    requires p > 0
  {
    RemainderIsLess(n, p);
    var r := n % p;
    if 2 * r > p || (2 * r == p && (n / p) % 2 == 1) then n - r + p else n - r
  }

  /** `n` rounded to 28 significant digits. */
  function Round28(n: nat): nat {
    RoundTo(n, Pow10(Excess(n)))
  }

  /** Negation rounds to the arithmetic's precision. */
  function Negated(d: Decimal): Decimal
    requires d.units >= 0
  {
    Decimal(0 - Round28(d.units), d.scale)
  }

  /** What is left of a text once its sign is read, and whether there was one. */
  function Unsigned(s: string): (string, bool) {
    var parens := |s| >= 2 && s[0] == '(' && s[|s| - 1] == ')';
    var s1 := if parens then s[1..|s| - 1] else s;
    var trailing := s1 != [] && s1[|s1| - 1] == '-';
    var s2 := if trailing then s1[..|s1| - 1] else s1;
    var leading := s2 != [] && s2[0] == '-';
    (if leading then s2[1..] else s2, parens || trailing || leading)
  }

  function ParseMoney(text: string): Option<Decimal> {
    var (cleaned, negative) := Unsigned(Remove(text, IsDressing));
    if !IsUS(cleaned) then None else Some(if negative then Negated(DecimalOf(cleaned)) else DecimalOf(cleaned))
  }

  method Parse(text: string) returns (d: Option<Decimal>)
    ensures d == ParseMoney(text)
  {
    hide IsUS, DecimalOf, Remove, Negated;
    var cleaned := Remove(text, IsDressing);
    var negative := false;
    if |cleaned| >= 2 && cleaned[0] == '(' && cleaned[|cleaned| - 1] == ')' {
      cleaned := cleaned[1..|cleaned| - 1];
      negative := true;
    }
    if cleaned != [] && cleaned[|cleaned| - 1] == '-' {
      cleaned := cleaned[..|cleaned| - 1];
      negative := true;
    }
    if cleaned != [] && cleaned[0] == '-' {
      cleaned := cleaned[1..];
      negative := true;
    }
    if !IsUS(cleaned) {
      return None;
    }
    var value := DecimalOf(cleaned);
    return Some(if negative then Negated(value) else value);
  }

  // ----------------------------------------------------- the accepted texts

  function Join(groups: seq<string>): string
    requires groups != []
  {
    if |groups| == 1 then groups[0] else Join(groups[..|groups| - 1]) + "," + groups[|groups| - 1]
  }

  predicate IsGroups(groups: seq<string>) {
    && |groups| >= 2 && IsNumber(groups[0]) && |groups[0]| <= 3
    && forall i :: 1 <= i < |groups| ==> IsNumber(groups[i]) && |groups[i]| == 3
  }

  lemma {:induction false} GroupsOf(s: string) returns (groups: seq<string>)
    requires Grouped(s)
    ensures IsGroups(groups) && Join(groups) == s
    decreases |s|
  {
    hide Every;
    var head, last := s[..|s| - 4], s[|s| - 3..];
    assert s == head + "," + last;
    var first: seq<string>;
    if |head| <= 3 && IsNumber(head) {
      first := [head];
    } else {
      first := GroupsOf(head);
    }
    groups := first + [last];
    assert groups[..|groups| - 1] == first;
  }

  lemma {:induction false} JoinIsGrouped(groups: seq<string>)
    requires IsGroups(groups)
    ensures Grouped(Join(groups))
  {
    hide Every;
    var n := |groups| - 1;
    var head, s := Join(groups[..n]), Join(groups);
    assert s == head + "," + groups[n];
    assert s[..|s| - 4] == head && s[|s| - 3..] == groups[n];
    if n == 1 {
      assert groups[..n] == [groups[0]];
    } else {
      JoinIsGrouped(groups[..n]);
    }
  }

  /** The whole parts the parser accepts: plain digits, or digits grouped in threes. */
  ghost predicate WellWritten(whole: string) {
    IsNumber(whole) || exists groups :: IsGroups(groups) && Join(groups) == whole
  }

  lemma WholeIsWellWritten(s: string)
    ensures IsWhole(s) <==> WellWritten(s)
  {
    hide Grouped, Every;
    if Grouped(s) {
      var groups := GroupsOf(s);
    }
    if exists groups :: IsGroups(groups) && Join(groups) == s {
      var groups :| IsGroups(groups) && Join(groups) == s;
      JoinIsGrouped(groups);
    }
  }

  lemma DotOf(whole: string, fraction: string)
    requires '.' !in whole
    ensures Dot(whole + "." + fraction) == |whole| && Dot(whole) == |whole|
    ensures WholePart(whole + "." + fraction) == whole && Fraction(whole + "." + fraction) == fraction
    ensures WholePart(whole) == whole && Fraction(whole) == []
  {
    hide Dot;
    var s := whole + "." + fraction;
    assert s[|whole|] == '.';
    assert forall i :: 0 <= i < |whole| ==> s[i] == whole[i] && whole[i] in whole;
    assert s[..|whole|] == whole && s[|whole| + 1..] == fraction;
  }

  lemma WholeHasNoDot(s: string)
    requires IsWhole(s)
    ensures s != [] && '.' !in s && Every(s, c => IsComma(c) || IsDigit(c))
    decreases |s|
  {
    hide IsDigit, DigitOf;
    DigitsAreClear();
    if !IsNumber(s) {
      var head, last := s[..|s| - 4], s[|s| - 3..];
      assert s == head + "," + last;
      WholeHasNoDot(head);
    }
  }

  /** The parser accepts a cleaned text exactly when it is a whole part, plain or
      correctly grouped in threes, with or without a dotted run of digits after it. */
  lemma AcceptedExactly(s: string)
    ensures IsUS(s) <==>
      || WellWritten(s)
      || exists whole, fraction :: WellWritten(whole) && IsNumber(fraction) && s == whole + "." + fraction
  {
    hide Grouped, Every, IsGroups, Dot, IsDigit, DigitOf;
    if IsUS(s) {
      WholeIsWellWritten(WholePart(s));
      if Dot(s) < |s| {
        assert s == WholePart(s) + "." + Fraction(s);
      } else {
        assert WholePart(s) == s;
      }
    }
    if WellWritten(s) {
      WholeIsWellWritten(s);
      WholeHasNoDot(s);
      DotOf(s, []);
    }
    forall whole, fraction | WellWritten(whole) && IsNumber(fraction) && s == whole + "." + fraction ensures IsUS(s) {
      WholeIsWellWritten(whole);
      WholeHasNoDot(whole);
      DotOf(whole, fraction);
    }
  }

  // ----------------------------------------------------------------- the signs

  function Parenthesized(s: string, b: bool): string { if b then "(" + s + ")" else s }

  function Trailed(s: string, b: bool): string { if b then s + "-" else s }

  function Led(s: string, b: bool): string { if b then "-" + s else s }

  /** A number in parentheses, with a minus before or after it, or with none of these. */
  function Wrapped(core: string, parens: bool, leading: bool, trailing: bool): string {
    Parenthesized(Trailed(Led(core, leading), trailing), parens)
  }

  /** Neither end is a sign. */
  predicate Bare(core: string) {
    core != [] && core[0] !in {'(', '-'} && core[|core| - 1] !in {')', '-'}
  }

  predicate HasParens(s: string) { |s| >= 2 && s[0] == '(' && s[|s| - 1] == ')' }

  predicate HasTail(s: string) { s != [] && s[|s| - 1] == '-' }

  predicate HasLead(s: string) { s != [] && s[0] == '-' }

  function Inner(s: string): string { if HasParens(s) then s[1..|s| - 1] else s }

  function Headed(s: string): string { if HasTail(s) then s[..|s| - 1] else s }

  function Tailed(s: string): string { if HasLead(s) then s[1..] else s }

  lemma ParensBack(s: string)
    ensures s == Parenthesized(Inner(s), HasParens(s))
  {
  }

  lemma TailsBack(s: string)
    ensures s == Trailed(Headed(s), HasTail(s))
  {
  }

  lemma LeadsBack(s: string)
    ensures s == Led(Tailed(s), HasLead(s))
  {
  }

  lemma UnsignedInStages(s: string)
    ensures var s1 := Inner(s); var s2 := Headed(s1);
      Unsigned(s) == (Tailed(s2), HasParens(s) || HasTail(s1) || HasLead(s2))
  {
  }

  lemma SignsRead(core: string, parens: bool, leading: bool, trailing: bool)
    requires Bare(core)
    ensures var s2 := Led(core, leading); var s1 := Trailed(s2, trailing); var s := Parenthesized(s1, parens);
      && HasLead(s2) == leading && Tailed(s2) == core
      && HasTail(s1) == trailing && Headed(s1) == s2
      && HasParens(s) == parens && Inner(s) == s1
  {
  }

  lemma WrappingReads(core: string, parens: bool, leading: bool, trailing: bool)
    requires Bare(core)
    ensures Unsigned(Wrapped(core, parens, leading, trailing)) == (core, parens || leading || trailing)
  {
    SignsRead(core, parens, leading, trailing);
    UnsignedInStages(Wrapped(core, parens, leading, trailing));
  }

  lemma UnsignedUnwraps(s: string) returns (parens: bool, leading: bool, trailing: bool)
    ensures s == Wrapped(Unsigned(s).0, parens, leading, trailing)
    ensures Unsigned(s).1 == (parens || leading || trailing)
  {
    hide Unsigned, Parenthesized, Trailed, Led, HasParens, HasTail, HasLead, Inner, Headed, Tailed;
    UnsignedInStages(s);
    parens := HasParens(s);
    var s1 := Inner(s);
    trailing := HasTail(s1);
    var s2 := Headed(s1);
    leading := HasLead(s2);
    assert s2 == Led(Unsigned(s).0, leading) by { LeadsBack(s2); }
    assert s1 == Trailed(s2, trailing) by { TailsBack(s1); }
    assert s == Parenthesized(s1, parens) by { ParensBack(s); }
  }

  lemma USIsBare(core: string)
    requires IsUS(core)
    ensures Bare(core)
  {
    hide IsDigit, DigitOf, Grouped, Dot;
    DigitsAreClear();
    WholeHasNoDot(WholePart(core));
    if Dot(core) < |core| {
      assert core[|core| - 1] == Fraction(core)[|Fraction(core)| - 1];
    } else {
      assert WholePart(core) == core;
    }
    assert core[0] == WholePart(core)[0];
  }

  /** What a signed text may look like, and what it is then worth. */
  ghost predicate Reads(text: string, d: Decimal, core: string, parens: bool, leading: bool, trailing: bool) {
    && Remove(text, IsDressing) == Wrapped(core, parens, leading, trailing) && IsUS(core)
    && d == if parens || leading || trailing then Negated(DecimalOf(core)) else DecimalOf(core)
  }

  /** For every text: it parses exactly if, without its dressing, it is a US number with
      parentheses, a leading minus, a trailing minus, or none; and it is worth that
      number, negated if there is any of them. */
  lemma SignedExactly(text: string, d: Decimal)
    ensures ParseMoney(text) == Some(d) <==> exists core, p, l, t :: Reads(text, d, core, p, l, t)
  {
    hide IsUS, DecimalOf, Negated, Remove, Unsigned, Wrapped;
    var cleaned := Remove(text, IsDressing);
    if ParseMoney(text) == Some(d) {
      var p, l, t := UnsignedUnwraps(cleaned);
      assert Reads(text, d, Unsigned(cleaned).0, p, l, t);
    }
    forall core, p, l, t | Reads(text, d, core, p, l, t) ensures ParseMoney(text) == Some(d) {
      USIsBare(core);
      WrappingReads(core, p, l, t);
    }
  }

  /** `r` is the multiple of `p` nearest to `n`, the even one of two. */
  predicate NearestMultiple(n: nat, p: nat, r: nat)
    requires p > 0
  {
    && r % p == 0 && -(p as int) <= 2 * (n - r) <= p
    && (2 * (n - r) == p || 2 * (r - n) == p ==> (r / p) % 2 == 0)
  }

  lemma RoundToIs(n: nat, p: nat)
    requires p > 0
    ensures NearestMultiple(n, p, RoundTo(n, p))
  {
    var q, r := n / p, n % p;
    assert n == q * p + r;
    MultipleIs(q, p);
    MultipleIs(q + 1, p);
    assert n - r == q * p && n - r + p == (q + 1) * p;
  }

  lemma MultipleIs(q: nat, p: nat)
    requires p > 0
    ensures (q * p) % p == 0 && (q * p) / p == q
  {
    DivisionIsUnique(q * p, p, q);
  }

  lemma DivisionIsUnique(n: nat, p: nat, q: nat)
    requires p > 0 && n == q * p
    ensures n / p == q && n % p == 0
  {
    var a, b := n / p, n % p;
    assert n == p * a + b;
    Distributes(q, a, p);
    if q > a {
      AtLeastOnce(q - a, p);
    } else if q < a {
      AtLeastOnce(a - q, p);
    }
  }

  lemma Distributes(q: int, a: int, p: int)
    ensures (q - a) * p == q * p - p * a && (a - q) * p == p * a - q * p
  {
  }

  lemma AtLeastOnce(x: nat, p: nat)
    requires x > 0
    ensures x * p >= p
  {
  }

  lemma {:induction false} ExcessIs(n: nat)
    ensures n < TOO_LONG * Pow10(Excess(n))
    ensures Excess(n) > 0 ==> n >= TOO_LONG * Pow10(Excess(n) - 1)
  {
    if n >= TOO_LONG {
      ExcessIs(n / 10);
      var p := Pow10(Excess(n / 10));
      assert n == 10 * (n / 10) + n % 10;
      assert n / 10 + 1 <= TOO_LONG * p;
      assert Pow10(Excess(n)) == 10 * p;
      if Excess(n / 10) > 0 {
        assert p == 10 * Pow10(Excess(n / 10) - 1);
      }
    }
  }

  /** Negation keeps 28 digits: the nearest multiple of the least power of ten that
      leaves no more than that, the even one of two. */
  lemma NegationRounds(d: Decimal)
    requires d.units >= 0
    ensures Negated(d).scale == d.scale && Negated(d).units <= 0
    ensures NearestMultiple(d.units, Pow10(Excess(d.units)), -Negated(d).units)
    ensures d.units < TOO_LONG * Pow10(Excess(d.units))
    ensures Excess(d.units) > 0 ==> d.units >= TOO_LONG * Pow10(Excess(d.units) - 1)
  {
    hide Excess, Pow10;
    RoundToIs(d.units, Pow10(Excess(d.units)));
    ExcessIs(d.units);
  }

  // ---------------------------------------------------------------- printer

  function DigitChar(d: nat): char
    requires d < 10
  {
    (d + '0' as int) as char
  }

  function Digits(n: nat, width: nat): string {
    if width == 0 then [] else Digits(n / 10, width - 1) + [DigitChar(n % 10)]
  }

  function Width(n: nat): nat { if n < 10 then 1 else if n < 100 then 2 else 3 }

  /** Thousands separated by commas. */
  function WithCommas(n: nat): string {
    if n < 1000 then Digits(n, Width(n)) else WithCommas(n / 1000) + "," + Digits(n % 1000, 3)
  }

  function Abs(n: int): nat { if n < 0 then -n else n }

  /** An amount in cents the way the pages print it. */
  function FormatMoney(cents: int): string {
    "$" + (if cents < 0 then "-" else "") + WithCommas(Abs(cents) / 100) + "." + Digits(Abs(cents) % 100, 2)
  }

  // ------------------------------------------------------------- round trip

  /** One more digit at the end. */
  lemma DigitAppended(s: string, d: nat)
    requires Every(s, IsDigit) && d < 10
    ensures var t := s + [DigitChar(d)]; Every(t, IsDigit) && ValueOf(t) == 10 * ValueOf(s) + d
  {
    hide IsDigit, DigitOf;
    DigitsAreClear();
    var t := s + [DigitChar(d)];
    assert t[..|t| - 1] == s;
  }

  lemma {:induction false} DigitsAre(n: nat, width: nat)
    requires n < Pow10(width)
    ensures |Digits(n, width)| == width && Every(Digits(n, width), IsDigit) && ValueOf(Digits(n, width)) == n
  {
    hide Every, ValueOf, IsDigit, DigitOf, DigitChar;
    if width == 0 {
      NoDigits();
    } else {
      DigitsAre(n / 10, width - 1);
      DigitAppended(Digits(n / 10, width - 1), n % 10);
    }
  }

  lemma NoDigits()
    ensures Every("", IsDigit) && ValueOf("") == 0
  {
  }

  lemma {:induction false} ValueOfConcat(a: string, b: string)
    ensures ValueOf(a + b) == ValueOf(a) * Pow10(|b|) + ValueOf(b)
    decreases |b|
  {
    hide IsDigit, DigitOf;
    if b == [] {
      assert a + b == a;
    } else {
      var n := |b| - 1;
      assert (a + b)[..|a + b| - 1] == a + b[..n] && (a + b)[|a + b| - 1] == b[n];
      ValueOfConcat(a, b[..n]);
      TenTimes(ValueOf(a), Pow10(n));
    }
  }

  lemma TenTimes(a: nat, p: nat)
    ensures 10 * (a * p) == a * (10 * p)
  {
  }

  lemma Powers()
    ensures Pow10(1) == 10 && Pow10(2) == 100 && Pow10(3) == 1000
  {
  }

  lemma GroupedUnfolds(s: string)
    requires |s| >= 5 && s[|s| - 4] == ',' && IsNumber(s[|s| - 3..])
    requires var head := s[..|s| - 4]; (|head| <= 3 && IsNumber(head)) || Grouped(head)
    ensures Grouped(s)
  {
    hide IsNumber;
  }

  /** One more group of three digits. */
  lemma GroupIs(head: string, last: string)
    requires IsNumber(last) && |last| == 3 && head != [] && (Grouped(head) || (IsNumber(head) && |head| <= 3))
    ensures Grouped(head + "," + last)
  {
    hide IsNumber, Grouped;
    var s := head + "," + last;
    assert s[..|s| - 4] == head && s[|s| - 3..] == last && s[|s| - 4] == ',';
    GroupedUnfolds(s);
  }

  lemma GroupReads(head: string, last: string)
    requires IsNumber(last)
    ensures Remove(head + "," + last, IsComma) == Remove(head, IsComma) + last
  {
    hide Remove, IsNumber;
    RemoveConcat(head + ",", last, IsComma);
    RemoveConcat(head, ",", IsComma);
    NumberStays(last);
    assert Remove(",", IsComma) == [] by { CommaGoes(); }
  }

  lemma CommaGoes()
    ensures Remove(",", IsComma) == []
  {
  }

  /** Printed thousands read back: the commas dropped, the digits spell the number. */
  lemma {:induction false} WithCommasIs(n: nat)
    ensures WithCommas(n) != [] && ValueOf(Remove(WithCommas(n), IsComma)) == n
    ensures Grouped(WithCommas(n)) || (IsNumber(WithCommas(n)) && |WithCommas(n)| <= 3)
  {
    hide ValueOf, Grouped, Remove, Every, Digits;
    Powers();
    if n < 1000 {
      DigitsAre(n, Width(n));
      NumberStays(WithCommas(n));
    } else {
      var head, last := WithCommas(n / 1000), Digits(n % 1000, 3);
      WithCommasIs(n / 1000);
      DigitsAre(n % 1000, 3);
      GroupIs(head, last);
      GroupReads(head, last);
      ValueOfConcat(Remove(head, IsComma), last);
    }
  }

  lemma NumberStays(s: string)
    requires IsNumber(s)
    ensures Remove(s, IsComma) == s
  {
    hide Remove, IsDigit, DigitOf;
    DigitsAreClear();
    RemoveNothing(s, IsComma);
  }

  /** The unsigned printed text is accepted, with its value. */
  lemma PrintedIs(n: nat)
    ensures var core := WithCommas(n / 100) + "." + Digits(n % 100, 2);
      IsUS(core) && DecimalOf(core) == Decimal(n, 2) && IsPlain(core)
  {
    hide ValueOf, Grouped, Dot, IsDigit, DigitOf;
    Powers();
    var whole, fraction := WithCommas(n / 100), Digits(n % 100, 2);
    WithCommasIs(n / 100);
    DigitsAre(n % 100, 2);
    WholeHasNoDot(whole);
    DotOf(whole, fraction);
    ValueOfConcat(Remove(whole, IsComma), fraction);
  }

  /** A text of digits, commas and dots is not signed and not dressed. */
  lemma PlainIs(core: string)
    requires IsPlain(core)
    ensures Remove(core, IsDressing) == core && Remove("-" + core, IsDressing) == "-" + core
    ensures Unsigned(core) == (core, false) && Unsigned("-" + core) == (core, true)
  {
    hide Unsigned, IsDressing, Remove;
    PlainIsUndressed(core);
    RemoveNothing(core, IsDressing);
    RemoveNothing("-" + core, IsDressing);
    PlainIsUnsigned(core);
  }

  lemma PlainIsUndressed(core: string)
    requires IsPlain(core)
    ensures forall i :: 0 <= i < |core| ==> !IsDressing(core[i])
    ensures forall i :: 0 <= i < |"-" + core| ==> !IsDressing(("-" + core)[i])
  {
    hide IsDigit, DigitOf;
    DigitsAreClear();
  }

  lemma PlainIsUnsigned(core: string)
    requires IsPlain(core)
    ensures Unsigned(core) == (core, false) && Unsigned("-" + core) == (core, true)
  {
    hide IsDigit, DigitOf;
    DigitsAreClear();
    assert ("-" + core)[1..] == core;
  }

  lemma RoundingKeeps(n: nat)
    ensures Round28(n) == n <==> n % Pow10(Excess(n)) == 0
    ensures n < TOO_LONG ==> Round28(n) == n
  {
    hide Excess, Pow10;
    if n < TOO_LONG {
      ShortHasNoExcess(n);
    }
  }

  lemma ShortHasNoExcess(n: nat)
    requires n < TOO_LONG
    ensures Excess(n) == 0 && Pow10(Excess(n)) == 1
  {
  }

  lemma ParseIs(text: string, core: string, negative: bool)
    requires Unsigned(Remove(text, IsDressing)) == (core, negative) && IsUS(core)
    ensures ParseMoney(text) == Some(if negative then Negated(DecimalOf(core)) else DecimalOf(core))
  {
    hide Unsigned, Remove, IsUS, DecimalOf, Negated;
  }

  lemma Undress(s: string)
    ensures Remove("$" + s, IsDressing) == Remove(s, IsDressing)
  {
    hide Remove;
    RemoveConcat("$", s, IsDressing);
    RemoveEverything("$", IsDressing);
  }

  /** Parsing the printed text of a signed amount in cents gives back exactly that
      amount, unless negation had to round: for every amount of at most 28 digits,
      and for every other one that is not negative or ends in enough zeros. */
  lemma RoundTrip(cents: int)
    ensures ParseMoney(FormatMoney(cents)) == Some(Decimal(cents, 2))
      <==> cents >= 0 || (-cents) % Pow10(Excess(-cents)) == 0
    ensures Abs(cents) < TOO_LONG ==> ParseMoney(FormatMoney(cents)) == Some(Decimal(cents, 2))
  {
    hide IsUS, DecimalOf, WithCommas, Digits, Round28, Unsigned, Remove, ParseMoney, IsPlain, Pow10, Excess;
    var n := Abs(cents);
    var core := WithCommas(n / 100) + "." + Digits(n % 100, 2);
    var signed := if cents < 0 then "-" + core else core;
    PrintedIs(n);
    PlainIs(core);
    assert FormatMoney(cents) == "$" + signed;
    Undress(signed);
    ParseIs(FormatMoney(cents), core, cents < 0);
    RoundingKeeps(n);
  }

  // --------------------------------------------------------------- sanitizer

  /** An amount with at most two decimals. */
  predicate IsAmount(s: string) {
    IsUS(s) && |Fraction(s)| <= 2
  }

  /** Blanks, a dollar sign or none, blanks, an amount, blanks. */
  predicate IsCurrency(text: string) {
    var s := Strip(text);
    IsAmount(if s != [] && IsDollar(s[0]) then Strip(s[1..]) else s)
  }

  /** What the API boundary makes of a parameter value; `shown` says the parameter
      is declared and not sensitive. */
  function Sanitize(shown: bool, value: string): string {
    if !shown then value
    else if IsCurrency(value) then Strip(Remove(Remove(value, IsDollar), IsComma))
    else Strip(value)
  }

  /** Digits with or without a dotted fraction: nothing left to strip. */
  predicate IsPure(s: string) {
    IsNumber(WholePart(s)) && (Dot(s) == |s| || IsNumber(Fraction(s)))
  }

  /** The parts of a currency text. */
  lemma CurrencySplits(text: string) returns (a: string, dollar: string, b: string, core: string, c: string)
    requires IsCurrency(text)
    ensures text == a + dollar + b + core + c && dollar in {"", "$"} && IsBlank(a) && IsBlank(b) && IsBlank(c)
      && IsAmount(core)
  {
    hide IsAmount, IsBlank, IsSpace, Strip, IsDigit, DigitOf;
    var s := Strip(text);
    var left, right := StripSplits(text);
    a := left;
    if s != [] && IsDollar(s[0]) {
      var padding, rest := StripSplits(s[1..]);
      dollar, b, core, c := "$", padding, Strip(s[1..]), rest + right;
      BlankConcat(rest, right);
      assert s == dollar + (padding + core + rest);
      assert text == a + dollar + b + core + c;
    } else {
      dollar, b, core, c := "", "", s, right;
      NothingIsBlank();
      assert text == a + dollar + b + core + c;
    }
  }

  predicate IsPlainChar(c: char) { IsComma(c) || IsDigit(c) || c == '.' }

  predicate IsPlain(s: string) {
    s != [] && Every(s, IsPlainChar)
  }

  function Dotted(whole: string, fraction: string): string {
    if fraction == [] then whole else whole + "." + fraction
  }

  /** Plain digits, dotted or not. */
  lemma PureIs(whole: string, fraction: string)
    requires IsNumber(whole) && (fraction != [] ==> IsNumber(fraction)) && |fraction| <= 2
    ensures var s := Dotted(whole, fraction);
      && IsPure(s) && IsAmount(s) && IsPlain(s) && Remove(s, IsComma) == s
      && DecimalOf(s) == Decimal(ValueOf(whole + fraction), |fraction|)
      && IsDigit(s[0]) && IsDigit(s[|s| - 1])
  {
    hide Grouped, Dot, ValueOf, Remove, IsDigit, DigitOf;
    DigitsAreClear();
    WholeHasNoDot(whole);
    DotOf(whole, fraction);
    NumberStays(whole);
    RemoveNothing(Dotted(whole, fraction), IsComma);
  }

  /** An amount splits into a whole part and a fraction. */
  lemma AmountSplits(core: string)
    requires IsAmount(core)
    ensures var whole, fraction := WholePart(core), Fraction(core);
      && IsWhole(whole) && core == Dotted(whole, fraction) && (fraction != [] ==> IsNumber(fraction)) && |fraction| <= 2
      && '.' !in whole && IsPlain(core)
  {
    hide Grouped, Dot, ValueOf, Remove, IsDigit, DigitOf;
    var whole, fraction := WholePart(core), Fraction(core);
    WholeHasNoDot(whole);
    assert Every(whole, IsPlainChar);
    if Dot(core) < |core| {
      assert core == whole + "." + fraction;
      EveryConcat(whole, ".", IsPlainChar);
      EveryConcat(whole + ".", fraction, IsPlainChar);
    } else {
      assert core == whole;
    }
  }

  lemma WholeLeavesDigits(s: string)
    requires IsWhole(s)
    ensures IsNumber(Remove(s, IsComma))
  {
    hide Remove, IsDigit, DigitOf;
    WholeHasDigits(s);
    WholeHasNoDot(s);
    RemoveLeaves(s, IsComma, IsDigit);
  }

  lemma CommasGo(whole: string, fraction: string)
    requires fraction != [] ==> IsNumber(fraction)
    ensures Remove(Dotted(whole, fraction), IsComma) == Dotted(Remove(whole, IsComma), fraction)
  {
    hide Remove, IsDigit, DigitOf;
    if fraction != [] {
      RemoveConcat(whole + ".", fraction, IsComma);
      RemoveConcat(whole, ".", IsComma);
      RemoveNothing(".", IsComma);
      NumberStays(fraction);
    }
  }

  /** An amount without its commas. */
  lemma AmountIs(core: string)
    requires IsAmount(core)
    ensures var s := Remove(core, IsComma);
      && IsPure(s) && IsAmount(s) && IsPlain(s) && IsPlain(core) && Remove(s, IsComma) == s
      && DecimalOf(s) == DecimalOf(core)
      && s != [] && IsDigit(s[0]) && IsDigit(s[|s| - 1])
  {
    hide Grouped, Dot, ValueOf, Remove, IsAmount, IsPlain, IsPure, Every, IsDigit, DigitOf;
    var whole, fraction := WholePart(core), Fraction(core);
    AmountSplits(core);
    WholeLeavesDigits(whole);
    PureIs(Remove(whole, IsComma), fraction);
    CommasGo(whole, fraction);
  }

  lemma DigitIsNotSpace(c: char)
    requires IsDigit(c)
    ensures !IsSpace(c) && !IsDollar(c)
  {
    hide IsDigit, DigitOf;
    DigitsAreClear();
  }

  lemma WholeHasDigits(s: string)
    requires IsWhole(s)
    ensures Remove(s, IsComma) != []
  {
    hide Remove, IsDigit, DigitOf;
    if IsNumber(s) {
      NumberStays(s);
    } else {
      var last := s[|s| - 3..];
      assert s == s[..|s| - 3] + last;
      RemoveConcat(s[..|s| - 3], last, IsComma);
      NumberStays(last);
    }
  }

  lemma BlankHas(s: string)
    requires IsBlank(s)
    ensures Remove(s, IsDollar) == s && Remove(s, IsComma) == s && Remove(s, IsDressing) == []
  {
    hide Remove;
    RemoveNothing(s, IsDollar);
    RemoveNothing(s, IsComma);
    RemoveEverything(s, IsDressing);
  }

  lemma {:induction false} RemoveFive(a: string, b: string, c: string, d: string, e: string, p: char -> bool)
    ensures Remove(a + b + c + d + e, p) == Remove(a, p) + Remove(b, p) + Remove(c, p) + Remove(d, p) + Remove(e, p)
  {
    hide Remove;
    RemoveConcat(a + b + c + d, e, p);
    RemoveConcat(a + b + c, d, p);
    RemoveConcat(a + b, c, p);
    RemoveConcat(a, b, p);
  }

  lemma DollarHas(dollar: string)
    requires dollar in {"", "$"}
    ensures Remove(dollar, IsDollar) == [] && Remove(dollar, IsDressing) == []
  {
  }

  /** Without its dressing, a currency text is its amount. */
  lemma DressingGoes(a: string, dollar: string, b: string, core: string, c: string)
    requires dollar in {"", "$"} && IsBlank(a) && IsBlank(b) && IsBlank(c) && IsPlain(core)
    ensures Remove(a + dollar + b + core + c, IsDressing) == core
  {
    hide Remove, IsBlank, IsPlain, IsDressing, IsDollar;
    BlankHas(a);
    BlankHas(b);
    BlankHas(c);
    DollarHas(dollar);
    PlainIs(core);
    RemoveFive(a, dollar, b, core, c, IsDressing);
    assert [] + [] + [] + core + [] == core;
  }

  lemma DollarGoes(a: string, dollar: string, b: string, core: string, c: string)
    requires dollar in {"", "$"} && IsBlank(a) && IsBlank(b) && IsBlank(c) && IsPlain(core)
    ensures Remove(a + dollar + b + core + c, IsDollar) == a + b + core + c
  {
    hide Remove, IsBlank, IsPlain, IsDressing, IsDollar;
    BlankHas(a);
    BlankHas(b);
    BlankHas(c);
    DollarHas(dollar);
    PlainHasNoDollar(core);
    RemoveFive(a, dollar, b, core, c, IsDollar);
    assert a + [] == a;
  }

  /** What the sanitizer leaves of a currency text. */
  lemma SanitizedIs(a: string, b: string, core: string, c: string)
    requires IsBlank(a) && IsBlank(b) && IsBlank(c) && IsAmount(core)
    ensures Strip(Remove(a + b + core + c, IsComma)) == Remove(core, IsComma)
  {
    hide Remove, IsAmount, IsBlank, IsSpace, Strip, IsPlain, IsPure, IsComma, IsDigit, DigitOf;
    BlankHas(a);
    BlankHas(b);
    BlankHas(c);
    AmountIs(core);
    var s := Remove(core, IsComma);
    RemoveConcat(a + b + core, c, IsComma);
    RemoveConcat(a + b, core, IsComma);
    RemoveConcat(a, b, IsComma);
    BlankConcat(a, b);
    DigitIsNotSpace(s[0]);
    DigitIsNotSpace(s[|s| - 1]);
    StripPadded(a + b, s, c);
  }

  lemma PlainHasNoDollar(core: string)
    requires IsPlain(core)
    ensures Remove(core, IsDollar) == core
  {
    hide Remove, IsDigit, DigitOf;
    DigitsAreClear();
    RemoveNothing(core, IsDollar);
  }

  lemma PlainParses(core: string)
    requires IsAmount(core) && IsPlain(core)
    ensures ParseMoney(core) == Some(DecimalOf(core))
  {
    hide Remove, Unsigned, DecimalOf, IsUS;
    PlainIs(core);
    ParseIs(core, core, false);
  }

  /** A whole part, and at most two decimals behind a dot. */
  ghost predicate WrittenAmount(core: string) {
    exists whole, fraction ::
      WellWritten(whole) && (fraction == [] || IsNumber(fraction)) && |fraction| <= 2 && core == Dotted(whole, fraction)
  }

  lemma AmountIsWritten(core: string)
    ensures IsAmount(core) <==> WrittenAmount(core)
  {
    hide Grouped, Every, IsGroups, Dot, IsDigit, DigitOf, WellWritten;
    if IsAmount(core) {
      AmountSplits(core);
      WholeIsWellWritten(WholePart(core));
    }
    forall whole, fraction | WellWritten(whole) && (fraction == [] || IsNumber(fraction)) && |fraction| <= 2
      && core == Dotted(whole, fraction) ensures IsAmount(core)
    {
      WholeIsWellWritten(whole);
      WholeHasNoDot(whole);
      DotOf(whole, fraction);
    }
  }

  /** Blanks, a dollar sign or none, blanks, an amount, blanks. */
  ghost predicate DressedAs(text: string, a: string, dollar: string, b: string, core: string, c: string) {
    && text == a + dollar + b + core + c && dollar in {"", "$"}
    && IsBlank(a) && IsBlank(b) && IsBlank(c) && WrittenAmount(core)
  }

  lemma DressedIsCurrency(text: string, a: string, dollar: string, b: string, core: string, c: string)
    requires DressedAs(text, a, dollar, b, core, c)
    ensures IsCurrency(text)
  {
    hide IsAmount, IsBlank, IsSpace, Strip, IsDigit, DigitOf, WrittenAmount, IsPure, IsPlain, Remove, Every;
    AmountIsWritten(core);
    AmountEnds(core);
    NothingIsBlank();
    if dollar == "$" {
      var s := "$" + b + core;
      DollarIsNoSpace();
      assert text == a + s + c;
      StripPadded(a, s, c);
      assert s[1..] == b + core + [];
      StripPadded(b, core, []);
    } else {
      assert text == (a + b) + core + c;
      BlankConcat(a, b);
      StripPadded(a + b, core, c);
    }
  }

  lemma AmountEnds(core: string)
    requires IsAmount(core)
    ensures core != [] && !IsSpace(core[0]) && !IsSpace(core[|core| - 1]) && !IsDollar(core[0])
  {
    hide IsDigit, DigitOf, Grouped, Dot, IsSpace;
    DigitsAreClear();
    USIsBare(core);
    AmountSplits(core);
    WholeEnds(WholePart(core));
    if Dot(core) < |core| {
      assert core[|core| - 1] == Fraction(core)[|Fraction(core)| - 1];
    } else {
      assert WholePart(core) == core;
    }
    assert core[0] == WholePart(core)[0];
  }

  lemma {:induction false} WholeEnds(s: string)
    requires IsWhole(s)
    ensures s != [] && IsDigit(s[0]) && IsDigit(s[|s| - 1])
    decreases |s|
  {
    hide IsDigit, DigitOf;
    if !IsNumber(s) {
      var head, last := s[..|s| - 4], s[|s| - 3..];
      WholeEnds(head);
      assert s[0] == head[0] && s[|s| - 1] == last[2];
    }
  }

  lemma DollarIsNoSpace()
    ensures !IsSpace('$')
  {
  }

  /** For every value: a sensitive or undeclared parameter is left alone; of any other,
      a text that looks like currency in this one way loses its dressing, and every
      other only its surrounding white space. */
  lemma OnlyCurrencyIsSanitized(text: string)
    ensures Sanitize(false, text) == text
    ensures Sanitize(true, text) ==
      if exists a, dollar, b, core, c :: DressedAs(text, a, dollar, b, core, c) then
        Strip(Remove(Remove(text, IsDollar), IsComma))
      else Strip(text)
  {
    hide IsAmount, IsBlank, IsSpace, Strip, IsDigit, DigitOf, WrittenAmount, Remove, IsCurrency;
    if IsCurrency(text) {
      var a, dollar, b, core, c := CurrencySplits(text);
      AmountIsWritten(core);
      assert DressedAs(text, a, dollar, b, core, c);
    }
    if a, dollar, b, core, c :| DressedAs(text, a, dollar, b, core, c) {
      DressedIsCurrency(text, a, dollar, b, core, c);
    }
  }

  /** The sanitizer strips the dressing and keeps the meaning: a currency text
      becomes a pure number that parses to the same money value. */
  lemma SanitizerKeepsMeaning(text: string)
    requires IsCurrency(text)
    ensures var s := Sanitize(true, text);
      IsPure(s) && ParseMoney(text).Some? && ParseMoney(s) == ParseMoney(text)
  {
    hide Remove, Strip, IsAmount, IsBlank, IsPure, IsPlain, DecimalOf, Unsigned, ParseMoney, IsCurrency;
    var a, dollar, b, core, c := CurrencySplits(text);
    AmountIs(core);
    DressingGoes(a, dollar, b, core, c);
    DollarGoes(a, dollar, b, core, c);
    SanitizedIs(a, b, core, c);
    PlainIs(core);
    PlainParses(Remove(core, IsComma));
    assert IsUS(core) by { AmountIsUS(core); }
    ParseIs(text, core, false);
  }

  lemma AmountIsUS(core: string)
    requires IsAmount(core)
    ensures IsUS(core)
  {
  }

  /** Sanitizing twice is sanitizing once. */
  lemma SanitizerIsIdempotent(shown: bool, text: string)
    ensures Sanitize(shown, Sanitize(shown, text)) == Sanitize(shown, text)
  {
    hide Remove, IsAmount, IsBlank, IsPure, IsPlain, DecimalOf, IsSpace, IsCurrency, Strip;
    StripTwice(text);
    if shown && IsCurrency(text) {
      var a, dollar, b, core, c := CurrencySplits(text);
      AmountIs(core);
      DollarGoes(a, dollar, b, core, c);
      SanitizedIs(a, b, core, c);
      PureStays(Remove(core, IsComma));
    } else if shown {
      SameCurrency(text);
    }
  }

  /** A pure number is currency, and the sanitizer leaves it alone. */
  lemma PureStays(s: string)
    requires IsAmount(s) && IsPlain(s) && Remove(s, IsComma) == s && s != [] && IsDigit(s[0]) && IsDigit(s[|s| - 1])
    ensures IsCurrency(s) && Strip(Remove(Remove(s, IsDollar), IsComma)) == s
  {
    hide Remove, IsAmount, IsBlank, IsSpace, Strip, IsPlain, IsDigit, DigitOf;
    DigitIsNotSpace(s[0]);
    DigitIsNotSpace(s[|s| - 1]);
    NothingIsBlank();
    StripPadded([], s, []);
    assert [] + s + [] == s;
    PlainHasNoDollar(s);
  }

  lemma SameCurrency(text: string)
    ensures IsCurrency(Strip(text)) == IsCurrency(text)
  {
    hide Strip, IsAmount;
    StripTwice(text);
  }

  lemma StripTwice(text: string)
    ensures Strip(Strip(text)) == Strip(text)
  {
    hide IsSpace;
    var left, right := StripSplits(text);
    if Strip(text) != [] {
      StripPadded([], Strip(text), []);
      assert [] + Strip(text) + [] == Strip(text);
    }
  }
}
