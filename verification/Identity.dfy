/** Identity binding: a value is on the page only as a whole token. */
module Identity {
  import opened Characters

  /** `value` stands at `i`, not inside a longer alphanumeric run. */
  predicate BoundAt(value: string, text: string, i: nat) {
    && i + |value| <= |text| && text[i..i + |value|] == value
    && (i > 0 ==> !IsAlnum(text[i - 1]))
    && (i + |value| < |text| ==> !IsAlnum(text[i + |value|]))
  }

  ghost predicate BoundIn(value: string, text: string) {
    value != [] && exists i :: BoundAt(value, text, i)
  }

  /** Length of the alphanumeric run a text starts with. */
  function Run(text: string): (n: nat)
    ensures n <= |text| && (n < |text| ==> !IsAlnum(text[n])) && forall i :: 0 <= i < n ==> IsAlnum(text[i])
  {
    if text == [] || !IsAlnum(text[0]) then 0 else 1 + Run(text[1..])
  }

  /** The maximal alphanumeric runs of a text, in order. */
  function Tokens(text: string): seq<string>
    decreases |text|
  {
    if text == [] then []
    else if !IsAlnum(text[0]) then Tokens(text[1..])
    else [text[..Run(text)]] + Tokens(text[Run(text)..])
  }

  lemma ShiftIn(value: string, text: string, k: nat, i: nat)
    requires k <= |text| && (k > 0 && i == 0 ==> !IsAlnum(text[k - 1])) && BoundAt(value, text[k..], i)
    ensures BoundAt(value, text, i + k)
  {
    assert text[k..][i..i + |value|] == text[i + k..i + k + |value|];
  }

  lemma ShiftOut(value: string, text: string, k: nat, i: nat)
    requires k <= i && BoundAt(value, text, i)
    ensures BoundAt(value, text[k..], i - k)
  {
    assert text[k..][i - k..i - k + |value|] == text[i..i + |value|];
  }

  /** A bounded occurrence that touches the first run is the first run. */
  lemma FirstRun(value: string, text: string, i: nat)
    requires value != [] && Every(value, IsAlnum) && BoundAt(value, text, i) && i < Run(text)
    ensures i == 0 && value == text[..Run(text)]
  {
    assert i == 0;
    assert text[..|value|] == value;
    assert forall j :: 0 <= j < |value| ==> value[j] == text[j];
  }

  /** Where the search goes on after the first run, or the first other character. */
  function Skip(text: string): (k: nat)
    requires text != []
    ensures 0 < k <= |text|
  {
    if Run(text) == 0 then 1 else Run(text)
  }

  lemma FoundOnce(value: string, text: string)
    requires value != [] && Every(value, IsAlnum) && text != [] && BoundIn(value, text)
    ensures BoundIn(value, text[Skip(text)..]) || (Run(text) > 0 && value == text[..Run(text)])
  {
    hide IsAlnum, BoundAt;
    var i: nat :| BoundAt(value, text, i);
    if i < Run(text) {
      FirstRun(value, text, i);
    } else {
      assert i >= Skip(text) by { StartsAlnum(value, text, i); }
      ShiftOut(value, text, Skip(text), i);
    }
  }

  lemma StartsAlnum(value: string, text: string, i: nat)
    requires value != [] && Every(value, IsAlnum) && BoundAt(value, text, i)
    ensures i < |text| && IsAlnum(text[i])
  {
    assert text[i..i + |value|][0] == text[i];
  }

  lemma FoundLater(value: string, text: string)
    requires value != [] && Every(value, IsAlnum) && text != [] && BoundIn(value, text[Skip(text)..])
    ensures BoundIn(value, text)
  {
    hide IsAlnum, BoundAt;
    var k := Skip(text);
    var i: nat :| BoundAt(value, text[k..], i);
    StartsAlnum(value, text[k..], i);
    ShiftIn(value, text, k, i);
  }

  lemma FoundFirst(value: string, text: string)
    requires value != [] && Run(text) > 0 && value == text[..Run(text)]
    ensures BoundIn(value, text)
  {
    assert BoundAt(value, text, 0);
  }

  /** For an alphanumeric value the boundary search succeeds exactly when the value
      is one of the maximal alphanumeric tokens of the text: a page whose tokens do
      not include the requested record's id never passes for that record. */
  lemma {:induction false} BoundIsToken(value: string, text: string)
    requires value != [] && Every(value, IsAlnum)
    ensures BoundIn(value, text) <==> value in Tokens(text)
    decreases |text|
  {
    hide IsAlnum, BoundIn, Every;
    if text == [] {
      assert !BoundIn(value, text) by { NotInNothing(value); }
    } else {
      BoundIsToken(value, text[Skip(text)..]);
      if BoundIn(value, text) {
        FoundOnce(value, text);
      }
      if BoundIn(value, text[Skip(text)..]) {
        FoundLater(value, text);
      }
      if Run(text) > 0 && value == text[..Run(text)] {
        FoundFirst(value, text);
      }
      TokensOf(value, text);
    }
  }

  lemma NotInNothing(value: string)
    ensures !BoundIn(value, "")
  {
  }

  lemma TokensOf(value: string, text: string)
    requires text != []
    ensures value in Tokens(text) <==>
      value in Tokens(text[Skip(text)..])
      || (Run(text) > 0 && value == text[..Run(text)])
  {
    hide IsAlnum;
    if Run(text) > 0 {
      assert Tokens(text) == [text[..Run(text)]] + Tokens(text[Run(text)..]);
    }
  }
}
