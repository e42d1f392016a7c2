/** Characters and strings as the engine's language sees them. */
module Characters {
  predicate IsSpace(c: char) {
    c == ' ' || '\t' <= c <= '\r' || '\U{1C}' <= c <= '\U{1F}' || c == '\U{85}' || c == '\U{A0}' || c == '\U{1680}'
    || '\U{2000}' <= c <= '\U{200A}' || c == '\U{2028}' || c == '\U{2029}' || c == '\U{202F}' || c == '\U{205F}'
      || c == '\U{3000}'
  }

  predicate IsBlank(s: string) {
    forall i :: 0 <= i < |s| ==> IsSpace(s[i])
  }

  function Strip(s: string): string
    decreases |s|
  {
    if s == [] then s
    else if IsSpace(s[0]) then Strip(s[1..])
    else if IsSpace(s[|s| - 1]) then Strip(s[..|s| - 1])
    else s
  }

  /** The zeros of the decimal digits of Unicode 15.0, each followed by its nine others. */
  predicate IsZero(n: int) {
    n == 0x30 || n == 0x660 || n == 0x6F0 || n == 0x7C0 || n == 0x966 || n == 0x9E6 || n == 0xA66 || n == 0xAE6
    || n == 0xB66 || n == 0xBE6 || n == 0xC66 || n == 0xCE6 || n == 0xD66 || n == 0xDE6 || n == 0xE50 || n == 0xED0
    || n == 0xF20 || n == 0x1040 || n == 0x1090 || n == 0x17E0 || n == 0x1810 || n == 0x1946 || n == 0x19D0
    || n == 0x1A80 || n == 0x1A90 || n == 0x1B50 || n == 0x1BB0 || n == 0x1C40 || n == 0x1C50 || n == 0xA620
    || n == 0xA8D0 || n == 0xA900 || n == 0xA9D0 || n == 0xA9F0 || n == 0xAA50 || n == 0xABF0 || n == 0xFF10
    || n == 0x104A0 || n == 0x10D30 || n == 0x11066 || n == 0x110F0 || n == 0x11136 || n == 0x111D0 || n == 0x112F0
    || n == 0x11450 || n == 0x114D0 || n == 0x11650 || n == 0x116C0 || n == 0x11730 || n == 0x118E0 || n == 0x11950
    || n == 0x11C50 || n == 0x11D50 || n == 0x11DA0 || n == 0x11F50 || n == 0x16A60 || n == 0x16AC0 || n == 0x16B50
    || n == 0x1D7CE || n == 0x1D7D8 || n == 0x1D7E2 || n == 0x1D7EC || n == 0x1D7F6 || n == 0x1E140 || n == 0x1E2F0
    || n == 0x1E4F0 || n == 0x1E950 || n == 0x1FBF0
  }

  /** The first of `d` to 9 that a zero stands so far below `n`, or -1. */
  function DigitAt(n: int, d: nat): (r: int)
    requires d <= 10
    ensures r >= 0 ==> d <= r < 10 && IsZero(n - r)
    decreases 10 - d
  {
    if d == 10 then -1 else if IsZero(n - d) then d else DigitAt(n, d + 1)
  }

  /** A decimal digit of any script, as a regular expression's digit class and the
      number parser take it. */
  predicate IsDigit(c: char) { DigitAt(c as int, 0) >= 0 }

  function DigitOf(c: char): (d: nat)
    ensures d < 10
  {
    if IsDigit(c) then DigitAt(c as int, 0) else 0
  }

  /** A run of ten from `zero` holds no white space and nothing below the digits. */
  predicate Clear(zero: int) {
    zero >= '0' as int && forall c: char :: zero <= c as int < zero + 10 ==> !IsSpace(c)
  }

  lemma ZerosAreClear(zero: int)
    requires IsZero(zero)
    ensures Clear(zero)
  {
  }

  lemma {:induction false} AsciiDigit(n: int, d: nat)
    requires '0' as int <= n <= '9' as int && d <= n - '0' as int
    ensures DigitAt(n, d) == n - '0' as int
    decreases 10 - d
  {
    if d < n - '0' as int {
      AsciiDigit(n, d + 1);
    }
  }

  lemma DigitsAreClear()
    ensures forall c :: IsDigit(c) ==> c >= '0' && !IsSpace(c)
    ensures forall c :: '0' <= c <= '9' ==> IsDigit(c) && DigitOf(c) == c as int - '0' as int
  {
    hide IsSpace, IsZero, DigitAt;
    forall c | IsDigit(c) ensures c >= '0' && !IsSpace(c) {
      ZerosAreClear(c as int - DigitAt(c as int, 0));
    }
    forall c: char | '0' <= c <= '9' ensures IsDigit(c) && DigitOf(c) == c as int - '0' as int {
      AsciiDigit(c as int, 0);
    }
  }

  predicate IsAlnum(c: char) { '0' <= c <= '9' || 'A' <= c <= 'Z' || 'a' <= c <= 'z' }

  predicate Every(s: string, p: char -> bool) {
    forall i :: 0 <= i < |s| ==> p(s[i])
  }

  lemma EveryConcat(a: string, b: string, p: char -> bool)
    requires Every(a, p) && Every(b, p)
    ensures Every(a + b, p)
  {
  }

  /** `s` without the characters that satisfy `p`. */
  function Remove(s: string, p: char -> bool): string {
    if s == [] then [] else (if p(s[0]) then [] else [s[0]]) + Remove(s[1..], p)
  }

  lemma {:induction false} RemoveConcat(a: string, b: string, p: char -> bool)
    ensures Remove(a + b, p) == Remove(a, p) + Remove(b, p)
  {
    if a == [] {
      assert a + b == b;
    } else {
      assert (a + b)[0] == a[0] && (a + b)[1..] == a[1..] + b;
      RemoveConcat(a[1..], b, p);
      var first := if p(a[0]) then [] else [a[0]];
      assert first + (Remove(a[1..], p) + Remove(b, p)) == first + Remove(a[1..], p) + Remove(b, p);
    }
  }

  lemma {:induction false} RemoveNothing(s: string, p: char -> bool)
    requires forall i :: 0 <= i < |s| ==> !p(s[i])
    ensures Remove(s, p) == s
  {
    if s != [] {
      RemoveNothing(s[1..], p);
      assert s == [s[0]] + s[1..];
    }
  }

  lemma {:induction false} RemoveEverything(s: string, p: char -> bool)
    requires Every(s, p)
    ensures Remove(s, p) == []
  {
    if s != [] {
      assert forall i :: 0 <= i < |s[1..]| ==> s[1..][i] == s[i + 1];
      RemoveEverything(s[1..], p);
    }
  }

  /** What is left satisfies what the removed characters do not. */
  lemma {:induction false} RemoveLeaves(s: string, p: char -> bool, q: char -> bool)
    requires Every(s, c => p(c) || q(c))
    ensures Every(Remove(s, p), q)
  {
    if s != [] {
      assert forall i :: 0 <= i < |s[1..]| ==> s[1..][i] == s[i + 1];
      RemoveLeaves(s[1..], p, q);
    }
  }

  /** Surrounding white space does not matter, and there is none left. */
  lemma {:induction false} StripPadded(left: string, core: string, right: string)
    requires IsBlank(left) && IsBlank(right) && core != [] && !IsSpace(core[0]) && !IsSpace(core[|core| - 1])
    ensures Strip(left + core + right) == core
    decreases |left| + |right|
  {
    hide IsSpace;
    var s := left + core + right;
    if left != [] {
      assert s[0] == left[0] && s[1..] == left[1..] + core + right;
      StripPadded(left[1..], core, right);
    } else if right != [] {
      assert s[0] == core[0] && s[|s| - 1] == right[|right| - 1] && s[..|s| - 1] == left + core + right[..|right| - 1];
      StripPadded(left, core, right[..|right| - 1]);
    } else {
      assert s == core;
    }
  }

  lemma BlankConcat(a: string, b: string)
    requires IsBlank(a) && IsBlank(b)
    ensures IsBlank(a + b)
  {
    hide IsSpace;
  }

  lemma BlankOne(c: char)
    requires IsSpace(c)
    ensures IsBlank([c])
  {
  }

  /** Blanks around a core that already stands between blanks. */
  lemma BlanksAround(a: string, l: string, core: string, r: string, b: string)
    requires IsBlank(a) && IsBlank(l) && IsBlank(r) && IsBlank(b)
    ensures IsBlank(a + l) && IsBlank(r + b) && a + (l + core + r) + b == (a + l) + core + (r + b)
  {
    hide IsSpace;
  }

  /** Every text is its stripped core between blanks. */
  lemma {:induction false} StripSplits(s: string) returns (left: string, right: string)
    ensures s == left + Strip(s) + right && IsBlank(left) && IsBlank(right)
    ensures Strip(s) != [] ==> !IsSpace(Strip(s)[0]) && !IsSpace(Strip(s)[|Strip(s)| - 1])
    decreases |s|
  {
    hide IsSpace, IsBlank;
    NothingIsBlank();
    if s == [] || !(IsSpace(s[0]) || IsSpace(s[|s| - 1])) {
      left, right := [], [];
    } else {
      var front := IsSpace(s[0]);
      var inner := if front then s[1..] else s[..|s| - 1];
      var a, b := if front then [s[0]] else [], if front then [] else [s[|s| - 1]];
      OneOff(s, front);
      BlankOne(if front then s[0] else s[|s| - 1]);
      var l, r := StripSplits(inner);
      BlanksAround(a, l, Strip(inner), r, b);
      left, right := a + l, r + b;
    }
  }

  lemma OneOff(s: string, front: bool)
    requires s != []
    ensures s == if front then [s[0]] + s[1..] + [] else [] + s[..|s| - 1] + [s[|s| - 1]]
  {
  }

  lemma NothingIsBlank()
    ensures IsBlank("")
  {
  }
}
