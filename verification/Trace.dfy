/** The hash-chained run log: its writer, its seal and its verification. */
module Trace {
  import opened Wrappers
  import opened Characters

  // ------------------------------------------------------------ text lines

  predicate IsBreak(c: char) {
    '\n' <= c <= '\r' || '\U{1C}' <= c <= '\U{1E}' || c == '\U{85}' || c == '\U{2028}' || c == '\U{2029}'
  }

  predicate OneLine(s: string) {
    forall i :: 0 <= i < |s| ==> !IsBreak(s[i])
  }

  function LineEnd(text: string): (n: nat)
    ensures n <= |text| && (n < |text| ==> IsBreak(text[n]))
    ensures forall i :: 0 <= i < n ==> !IsBreak(text[i])
  {
    if text == [] || IsBreak(text[0]) then 0 else 1 + LineEnd(text[1..])
  }

  /** The non-blank lines of a file. A carriage return before a line feed only adds
      a blank line, so every line break separates. */
  function Lines(text: string): seq<string>
    decreases |text|
  {
    if text == [] then []
    else
      var n := LineEnd(text);
      (if IsBlank(text[..n]) then [] else [text[..n]]) + (if n == |text| then [] else Lines(text[n + 1..]))
  }

  /** Every line of the file was written to its end. */
  predicate Ended(text: string) {
    text == [] || IsBreak(text[|text| - 1])
  }

  lemma LineEndIs(text: string, n: nat)
    requires n <= |text| && (n < |text| ==> IsBreak(text[n]))
    requires forall i :: 0 <= i < n ==> !IsBreak(text[i])
    ensures LineEnd(text) == n
  {
    hide IsBreak;
  }

  lemma NoLines()
    ensures Lines("") == []
  {
  }

  lemma OneLineAlone(line: string)
    requires OneLine(line) && !IsBlank(line)
    ensures Lines(line + "\n") == [line]
  {
    hide IsBlank;
    var all := line + "\n";
    assert all[..|line|] == line && all[|line|] == '\n' && all[|line| + 1..] == [];
    LineEndIs(all, |line|);
  }

  /** Appending a line to a file of whole lines appends one record. */
  lemma {:induction false} LinesAppend(text: string, line: string)
    requires Ended(text) && OneLine(line) && !IsBlank(line)
    ensures Lines(text + line + "\n") == Lines(text) + [line] && Ended(text + line + "\n")
    decreases |text|
  {
    hide IsBlank, OneLine, IsBreak, LineEnd, Lines;
    assert Ended(text + line + "\n") by { EndsInBreak(text + line); }
    if text == [] {
      assert text + line + "\n" == line + "\n";
      NoLines();
      OneLineAlone(line);
    } else {
      var n := LineEnd(text);
      FirstLineStays(text, line + "\n");
      assert text + (line + "\n") == text + line + "\n";
      assert text[n + 1..] + (line + "\n") == text[n + 1..] + line + "\n";
      EndedTail(text, n);
      LinesAppend(text[n + 1..], line);
      LinesUnfold(text);
      LinesUnfold(text + line + "\n");
    }
  }

  lemma LinesUnfold(text: string)
    requires LineEnd(text) < |text|
    ensures var n := LineEnd(text);
      Lines(text) == (if IsBlank(text[..n]) then [] else [text[..n]]) + Lines(text[n + 1..])
  {
    hide IsBlank, OneLine, LineEnd;
  }

  lemma NotBlankWith(part: string, line: string)
    requires !IsBlank(line)
    ensures !IsBlank(part + line)
  {
    hide IsSpace;
    var i :| 0 <= i < |line| && !IsSpace(line[i]);
    assert (part + line)[|part| + i] == line[i];
  }

  lemma EndsInBreak(text: string)
    ensures Ended(text + "\n")
  {
  }

  lemma EndedTail(text: string, n: nat)
    requires Ended(text) && n == LineEnd(text) < |text|
    ensures Ended(text[n + 1..])
  {
  }

  /** What follows a file of whole lines does not change its first line. */
  lemma FirstLineStays(text: string, more: string)
    requires Ended(text) && text != []
    ensures LineEnd(text) < |text|
    ensures var n := LineEnd(text);
      LineEnd(text + more) == n && (text + more)[..n] == text[..n] && (text + more)[n + 1..] == text[n + 1..] + more
      && n < |text + more|
  {
    hide IsBreak, LineEnd;
    var n := LineEnd(text);
    if n == |text| {
      assert false;
    }
    var all := text + more;
    assert forall i :: 0 <= i < |text| ==> all[i] == text[i];
    LineEndIs(all, n);
    assert all[..n] == text[..n] && all[n + 1..] == text[n + 1..] + more;
  }

  /** A text without a break is one line, or none if it is blank. */
  lemma OneLineIs(text: string)
    requires OneLine(text)
    ensures Lines(text) == if IsBlank(text) then [] else [text]
  {
    hide IsBlank, IsBreak;
    LineEndIs(text, |text|);
    assert text[..|text|] == text;
    if text == [] {
      NothingIsBlank();
    }
  }

  /** Every break separates: the lines are those before it and those after it. */
  lemma {:induction false} BreaksSeparate(a: string, c: char, b: string)
    requires IsBreak(c)
    ensures Lines(a + [c] + b) == Lines(a) + Lines(b)
    decreases |a|
  {
    hide IsBlank, IsBreak, LineEnd, Lines;
    var all, n := a + [c] + b, LineEnd(a);
    assert forall i :: 0 <= i < |a| ==> all[i] == a[i];
    assert all[|a|] == c;
    LineEndIs(all, n);
    LinesUnfold(all);
    assert all[..n] == a[..n];
    if n == |a| {
      assert all[n + 1..] == b && a[..n] == a;
      OneLineIs(a);
    } else {
      assert all[n + 1..] == a[n + 1..] + [c] + b;
      BreaksSeparate(a[n + 1..], c, b);
      LinesUnfold(a);
    }
  }

  // ------------------------------------------------------ records and hashes

  /** A JSON value, as far as the chain compares it. JSON's 1, 1.0 and true are one number. */
  datatype Value = Number(n: int) | Text(s: string) | Other(s: string)

  type Record = map<string, Value>

  /** What decoding a line comes to: a decode error, JSON that is not an object, an
      integer of more digits than the interpreter converts (a plain value error),
      nesting deeper than its stack (a recursion error), or an object. */
  datatype Decoded = Malformed | NotObject | TooLong | TooDeep | Object(record: Record)

  /** Decoding the line, or asking what it decodes to for a field, raises something
      other than a decode error. */
  predicate Raising(d: Decoded) {
    d.NotObject? || d.TooLong? || d.TooDeep?
  }

  /** The serialization and the hash the log is written with. */
  datatype Codec = Codec(encode: Record -> string, decode: string -> Decoded, hash: string -> string)

  /** Records survive serialization, on one line; hashes of different lines differ
      and are never the empty text that stands for "no previous record". */
  ghost predicate Sound(codec: Codec) {
    && (forall r :: codec.decode(codec.encode(r)) == Object(r))
    && (forall r :: OneLine(codec.encode(r)) && !IsBlank(codec.encode(r)))
    && (forall a, b :: codec.hash(a) == codec.hash(b) ==> a == b)
    && (forall a :: codec.hash(a) != "")
  }

  function Get(r: Record, key: string): Option<Value> {
    if key in r then Some(r[key]) else None
  }

  function Tip(codec: Codec, lines: seq<string>): string {
    if lines == [] then "" else codec.hash(lines[|lines| - 1])
  }

  predicate Fits(record: Record, i: nat, prev: string) {
    Get(record, "seq") == Some(Number(i)) && Get(record, "prev") == Some(Text(prev))
  }

  predicate LinkOk(codec: Codec, lines: seq<string>, i: nat)
    requires i < |lines|
  {
    var d := codec.decode(lines[i]);
    d.Object? && Fits(d.record, i, Tip(codec, lines[..i]))
  }

  predicate Chained(codec: Codec, lines: seq<string>) {
    forall i :: 0 <= i < |lines| ==> LinkOk(codec, lines, i)
  }

  // ------------------------------------------------------------ run directory

  /** A file as a reader finds it. */
  datatype File = Missing | Unreadable | Content(text: string)

  datatype Dir = Dir(log: File, seal: File)

  function ReadSeal(codec: Codec, dir: Dir): Option<Record> {
    match dir.seal
    case Content(text) => (match codec.decode(text) case Object(r) => Some(r) case _ => None)
    case _ => None
  }

  /** Reading the seal forgives every value error, but not a recursion error. */
  predicate SealRaises(codec: Codec, dir: Dir) {
    dir.seal.Content? && codec.decode(dir.seal.text).TooDeep?
  }

  predicate IsSealed(codec: Codec, dir: Dir) {
    ReadSeal(codec, dir).Some?
  }

  function ChainTip(codec: Codec, dir: Dir): Option<string> {
    match ReadSeal(codec, dir)
    case Some(r) => (match Get(r, "tip") case Some(Text(tip)) => Some(tip) case _ => None)
    case None => None
  }

  /** The seal, where there is one, is the seal of these lines. */
  predicate SealFits(codec: Codec, dir: Dir, lines: seq<string>) {
    !SealRaises(codec, dir) &&
    match ReadSeal(codec, dir)
    case Some(r) => Get(r, "records") == Some(Number(|lines|)) && Get(r, "tip") == Some(Text(Tip(codec, lines)))
    case None => true
  }

  /** What verification found. A line on which decoding raises makes it raise. */
  datatype Check = Intact | Broken | Raises

  predicate IsIntact(codec: Codec, dir: Dir, expectedTip: Option<string>) {
    && dir.log.Content?
    && var lines := Lines(dir.log.text);
    && Chained(codec, lines) && SealFits(codec, dir, lines)
    && (expectedTip.None? || expectedTip.value == Tip(codec, lines))
  }

  /** The chain holds up to a line on which decoding raises. */
  predicate RaisesAt(codec: Codec, lines: seq<string>, i: nat) {
    i < |lines| && Raising(codec.decode(lines[i])) && Chained(codec, lines[..i])
  }

  ghost predicate WillRaise(codec: Codec, lines: seq<string>) {
    exists i :: RaisesAt(codec, lines, i)
  }

  /** The hash of line `n - 1`, or the empty text before the first. */
  function HashBefore(codec: Codec, lines: seq<string>, n: nat): string
    requires n <= |lines|
  {
    if n == 0 then "" else codec.hash(lines[n - 1])
  }

  predicate Says(d: Decoded, key: string, value: Value) {
    d.Object? && key in d.record && d.record[key] == value
  }

  /** A seal that can be read says how many lines there are, and the hash of the last. */
  predicate Sealing(codec: Codec, dir: Dir, lines: seq<string>) {
    dir.seal.Content? ==>
      var seal := codec.decode(dir.seal.text);
      && !seal.TooDeep?
      && (seal.Object? ==>
            Says(seal, "records", Number(|lines|)) && Says(seal, "tip", Text(HashBefore(codec, lines, |lines|))))
  }

  /** Every line is a record of its own place and of the hash of the line before it; the
      seal fits, if there is one; and the anchor, if one was kept, is the last hash. */
  predicate Verifies(codec: Codec, dir: Dir, expectedTip: Option<string>) {
    && dir.log.Content?
    && var lines := Lines(dir.log.text);
    && (forall i :: 0 <= i < |lines| ==> Linked(codec, lines, i))
    && Sealing(codec, dir, lines)
    && (expectedTip.Some? ==> expectedTip.value == HashBefore(codec, lines, |lines|))
  }

  lemma HashIsTip(codec: Codec, lines: seq<string>, n: nat)
    requires n <= |lines|
    ensures Tip(codec, lines[..n]) == HashBefore(codec, lines, n)
  {
  }

  /** Line `i` is a record of its place and of the hash before it. */
  predicate Linked(codec: Codec, lines: seq<string>, i: nat)
    requires i < |lines|
  {
    var d := codec.decode(lines[i]);
    Says(d, "seq", Number(i)) && Says(d, "prev", Text(HashBefore(codec, lines, i)))
  }

  lemma LinkIs(codec: Codec, lines: seq<string>, i: nat)
    requires i < |lines|
    ensures LinkOk(codec, lines, i) <==> Linked(codec, lines, i)
  {
    HashIsTip(codec, lines, i);
  }

  lemma SealIsExact(codec: Codec, dir: Dir, lines: seq<string>)
    ensures SealFits(codec, dir, lines) <==> Sealing(codec, dir, lines)
  {
    HashIsTip(codec, lines, |lines|);
    assert lines[..|lines|] == lines;
  }

  lemma IntactIs(codec: Codec, dir: Dir, expectedTip: Option<string>)
    ensures IsIntact(codec, dir, expectedTip) <==> Verifies(codec, dir, expectedTip)
  {
    hide Lines, SealFits, Sealing, LinkOk, Linked;
    if dir.log.Content? {
      var lines := Lines(dir.log.text);
      SealIsExact(codec, dir, lines);
      HashIsTip(codec, lines, |lines|);
      assert lines[..|lines|] == lines;
      forall i | 0 <= i < |lines| ensures LinkOk(codec, lines, i) <==> Linked(codec, lines, i) {
        LinkIs(codec, lines, i);
      }
    }
  }

  /** Recompute the chain; cross-check the seal and the anchor. */
  method VerifyChain(codec: Codec, dir: Dir, expectedTip: Option<string>) returns (r: Check)
    ensures r == Intact <==> Verifies(codec, dir, expectedTip)
    ensures r == Intact <==> IsIntact(codec, dir, expectedTip)
    ensures r == Raises <==>
      dir.log.Content? && (WillRaise(codec, Lines(dir.log.text))
          || (Chained(codec, Lines(dir.log.text)) && SealRaises(codec, dir)))
  {
    IntactIs(codec, dir, expectedTip);
    if !dir.log.Content? {
      return Broken;
    }
    var lines := Lines(dir.log.text);
    var prev := "";
    for i := 0 to |lines|
      invariant prev == Tip(codec, lines[..i])
      invariant Chained(codec, lines[..i])
    {
      var d := codec.decode(lines[i]);
      if d.Malformed? {
        BreaksHere(codec, lines, i);
        return Broken;
      }
      if Raising(d) {
        assert RaisesAt(codec, lines, i);
        assert !LinkOk(codec, lines, i);
        return Raises;
      }
      if Get(d.record, "seq") != Some(Number(i)) || Get(d.record, "prev") != Some(Text(prev)) {
        BreaksHere(codec, lines, i);
        return Broken;
      }
      prev := codec.hash(lines[i]);
      ChainGrows(codec, lines, i);
    }
    assert lines[..|lines|] == lines;
    ChainedNeverRaises(codec, lines);
    if SealRaises(codec, dir) {
      return Raises;
    }
    var sealed := ReadSeal(codec, dir);
    if sealed.Some? && (Get(sealed.value, "records") != Some(Number(|lines|))
        || Get(sealed.value, "tip") != Some(Text(prev))) {
      return Broken;
    }
    return if expectedTip.None? || expectedTip.value == prev then Intact else Broken;
  }

  lemma ChainedNeverRaises(codec: Codec, lines: seq<string>)
    requires Chained(codec, lines)
    ensures !WillRaise(codec, lines)
  {
    forall i: nat ensures !RaisesAt(codec, lines, i) {
      if i < |lines| { assert LinkOk(codec, lines, i); }
    }
  }

  lemma ChainGrows(codec: Codec, lines: seq<string>, n: nat)
    requires n < |lines| && Chained(codec, lines[..n]) && LinkOk(codec, lines, n)
    ensures Chained(codec, lines[..n + 1])
  {
    var longer := lines[..n + 1];
    forall i | 0 <= i < |longer| ensures LinkOk(codec, longer, i) {
      assert longer[..i] == lines[..i];
      if i < n {
        assert LinkOk(codec, lines[..n], i) && lines[..n][..i] == lines[..i];
      }
    }
  }

  lemma PrefixIsChained(codec: Codec, lines: seq<string>, n: nat)
    requires n <= |lines| && Chained(codec, lines)
    ensures Chained(codec, lines[..n])
  {
    forall i | 0 <= i < n ensures LinkOk(codec, lines[..n], i) {
      assert LinkOk(codec, lines, i) && lines[..n][..i] == lines[..i];
    }
  }

  /** A link broken at a line that decodes, or is a decode error: broken, not raising. */
  lemma BreaksHere(codec: Codec, lines: seq<string>, n: nat)
    requires n < |lines| && !LinkOk(codec, lines, n) && !Raising(codec.decode(lines[n]))
    requires Chained(codec, lines[..n])
    ensures !Chained(codec, lines) && !WillRaise(codec, lines)
  {
    forall i: nat ensures !RaisesAt(codec, lines, i) {
      if n < i < |lines| {
        assert lines[..i][..n] == lines[..n];
        assert !LinkOk(codec, lines[..i], n);
      } else if i < n {
        assert LinkOk(codec, lines[..n], i) && lines[..n][i] == lines[i];
      }
    }
  }

  // ---------------------------------------------------------- what it detects

  /** Two chains with the same tip are the same chain. */
  lemma {:induction false} SameTipSameLines(codec: Codec, a: seq<string>, b: seq<string>)
    requires Sound(codec) && Chained(codec, a) && Chained(codec, b) && Tip(codec, a) == Tip(codec, b)
    ensures a == b
    decreases |a|
  {
    if a != [] && b != [] {
      var m, n := |a| - 1, |b| - 1;
      assert a[m] == b[n];
      assert LinkOk(codec, a, m) && LinkOk(codec, b, n);
      PrefixIsChained(codec, a, m);
      PrefixIsChained(codec, b, n);
      SameTipSameLines(codec, a[..m], b[..n]);
      assert a == a[..m] + [a[m]] && b == b[..n] + [b[n]];
    }
  }

  /** What the seal or a kept anchor says the tip is. */
  predicate PinnedTo(codec: Codec, dir: Dir, expectedTip: Option<string>, tip: string) {
    expectedTip == Some(tip) || ChainTip(codec, dir) == Some(tip)
  }

  /** Two logs that verify against the same tip, sealed or anchored, have the same
      records: no edit, insertion, removal, reordering or truncation survives. */
  lemma SealedLogsAreEqual(codec: Codec, a: Dir, b: Dir, anchorA: Option<string>, anchorB: Option<string>, tip: string)
    requires Sound(codec) && IsIntact(codec, a, anchorA) && IsIntact(codec, b, anchorB)
    requires PinnedTo(codec, a, anchorA, tip) && PinnedTo(codec, b, anchorB, tip)
    ensures Lines(a.log.text) == Lines(b.log.text)
  {
    hide Chained;
    SameTipSameLines(codec, Lines(a.log.text), Lines(b.log.text));
  }

  /** Without a seal or an anchor, a truncated log still verifies: exactly the
      prefixes of an intact log that stay unsealed. */
  lemma UnsealedPrefixesVerify(codec: Codec, dir: Dir, cut: Dir, n: nat)
    requires dir.log.Content? && cut.log.Content? && IsIntact(codec, dir, None)
    requires n <= |Lines(dir.log.text)| && Lines(cut.log.text) == Lines(dir.log.text)[..n]
    ensures IsIntact(codec, cut, None) <==> SealFits(codec, cut, Lines(cut.log.text))
    ensures !IsSealed(codec, cut) && !SealRaises(codec, cut) ==> IsIntact(codec, cut, None)
    ensures Sound(codec) && cut.seal == dir.seal && IsSealed(codec, dir) && n < |Lines(dir.log.text)| ==>
      !IsIntact(codec, cut, None)
  {
    PrefixIsChained(codec, Lines(dir.log.text), n);
  }

  // ------------------------------------------------------------- the writer

  /** The record `Emit` writes: the caller's fields come last and win. */
  function MakeRecord(seq_: nat, prev: string, ts: string, event: string, fields: Record): Record {
    map["ts" := Text(ts), "seq" := Number(seq_), "prev" := Text(prev), "event" := Text(event)] + fields
  }

  function SealRecord(records: nat, tip: string): Record {
    map["records" := Number(records), "tip" := Text(tip)]
  }

  /** The record a caller's fields make at its place in the chain: they win over the
      writer's own. */
  predicate IsRecord(record: Record, seq_: nat, prev: string, ts: string, event: string, fields: Record) {
    && record.Keys == fields.Keys + {"ts", "seq", "prev", "event"}
    && (forall key :: key in fields ==> record[key] == fields[key])
    && ("ts" !in fields ==> record["ts"] == Text(ts)) && ("seq" !in fields ==> record["seq"] == Number(seq_))
    && ("prev" !in fields ==> record["prev"] == Text(prev)) && ("event" !in fields ==> record["event"] == Text(event))
  }

  /** The record is the latest of those kept, and at most `size` are. */
  predicate Remembers(before: seq<Record>, record: Record, size: nat, after: seq<Record>) {
    var all := before + [record];
    |after| == (if |all| < size then |all| else size) && after == all[|all| - |after|..]
  }

  function Kept(tail: seq<Record>, size: nat): seq<Record> {
    if |tail| <= size then tail else tail[|tail| - size..]
  }

  lemma RecordIs(seq_: nat, prev: string, ts: string, event: string, fields: Record)
    ensures IsRecord(MakeRecord(seq_, prev, ts, event, fields), seq_, prev, ts, event, fields)
  {
  }

  lemma KeptIs(before: seq<Record>, record: Record, size: nat)
    ensures Remembers(before, record, size, Kept(before + [record], size))
  {
  }

  /** The directory on disk: None is a file that does not exist. */
  class RunDir {
    var log: Option<string>
    var seal: Option<string>

    constructor ()
      ensures log == None && seal == None
    {
      log, seal := None, None;
    }
  }

  class Writer {
    const codec: Codec
    const dir: RunDir
    const tailSize: nat
    var next: nat
    var prev: string
    var closed: bool
    var tail: seq<Record>

    function View(): Session
      reads this, dir
    {
      Session(dir.log, dir.seal, Some(Position(next, prev, closed)))
    }

    /** Continue an existing chain if the file already has records. */
    constructor (codec: Codec, dir: RunDir, tailSize: nat)
      modifies dir
      ensures this.codec == codec && this.dir == dir && this.tailSize == tailSize && tail == []
      ensures dir.log == Some(old(dir.log).GetOr("")) && dir.seal == old(dir.seal) && !closed
      ensures var lines := Lines(dir.log.value); next == |lines| && prev == HashBefore(codec, lines, |lines|)
      ensures View() == Opened(codec, Session(old(dir.log), old(dir.seal), None))
    {
      this.codec, this.dir, this.tailSize := codec, dir, tailSize;
      next, prev, closed, tail := 0, "", false, [];
      new;
      if dir.log.Some? {
        var lines := Lines(dir.log.value);
        if lines != [] {
          next := |lines|;
          prev := codec.hash(lines[|lines| - 1]);
        }
      } else {
        dir.log := Some("");
      }
    }

    /** Append one record, on disk before it returns; a closed writer refuses. */
    method Emit(ts: string, event: string, fields: Record) returns (ok: bool)
      modifies this, dir
      ensures ok == (!old(closed) && old(dir.log).Some?)
      ensures ok ==> exists record ::
        && IsRecord(record, old(next), old(prev), ts, event, fields)
        && dir.log == Some(old(dir.log).value + codec.encode(record) + "\n") && dir.seal == old(dir.seal)
        && next == old(next) + 1 && prev == codec.hash(codec.encode(record)) && !closed
        && Remembers(old(tail), record, tailSize, tail)
      ensures !ok ==> View() == old(View()) && tail == old(tail)
      ensures View() == Emitted(codec, old(View()), ts, event, fields)
      ensures tail == if ok then Kept(old(tail) + [MakeRecord(old(next), old(prev), ts, event, fields)], tailSize)
        else old(tail)
    {
      hide IsRecord, MakeRecord, Remembers, Kept;
      var record := MakeRecord(next, prev, ts, event, fields);
      var line := codec.encode(record);
      RecordIs(next, prev, ts, event, fields);
      KeptIs(tail, record, tailSize);
      if closed || dir.log.None? {
        return false;
      }
      dir.log := Some(dir.log.value + line + "\n");
      prev := codec.hash(line);
      next := next + 1;
      tail := Kept(tail + [record], tailSize);
      ok := true;
    }

    /** Close the file and seal the run. */
    method Close()
      modifies this, dir
      ensures dir.seal == Some(codec.encode(map["records" := Number(next), "tip" := Text(prev)]) + "\n")
      ensures closed && next == old(next) && prev == old(prev) && dir.log == old(dir.log) && tail == old(tail)
      ensures View() == Closed(codec, old(View()))
    {
      closed := true;
      dir.seal := Some(codec.encode(SealRecord(next, prev)) + "\n");
    }
  }

  // -------------------------------------------------- any use of the writer

  datatype Position = Position(next: nat, prev: string, closed: bool)

  /** The directory and the latest writer on it. */
  datatype Session = Session(log: Option<string>, seal: Option<string>, writer: Option<Position>)

  function Opened(codec: Codec, s: Session): Session {
    var lines := if s.log.Some? then Lines(s.log.value) else [];
    Session(Some(s.log.GetOr("")), s.seal, Some(Position(|lines|, Tip(codec, lines), false)))
  }

  function Emitted(codec: Codec, s: Session, ts: string, event: string, fields: Record): Session {
    if s.writer.None? || s.writer.value.closed || s.log.None? then s
    else
      var line := codec.encode(MakeRecord(s.writer.value.next, s.writer.value.prev, ts, event, fields));
      Session(Some(s.log.value + line + "\n"), s.seal, Some(Position(s.writer.value.next + 1, codec.hash(line), false)))
  }

  function Closed(codec: Codec, s: Session): Session {
    if s.writer.None? then s
    else
      Session(s.log, Some(codec.encode(SealRecord(s.writer.value.next, s.writer.value.prev)) + "\n"),
              Some(s.writer.value.(closed := true)))
  }

  datatype Op = Open | Emit(ts: string, event: string, fields: Record) | Close

  function Step(codec: Codec, s: Session, op: Op): Session {
    match op
    case Open => Opened(codec, s)
    case Emit(ts, event, fields) => Emitted(codec, s, ts, event, fields)
    case Close => Closed(codec, s)
  }

  const FRESH: Session := Session(None, None, None)

  /** Any sequence of opening, emitting, closing and reopening, on whatever a run
      directory holds. An earlier writer that was never closed is left behind, as
      after a crash. */
  function Use(codec: Codec, start: Session, ops: seq<Op>): Session {
    if ops == [] then start else Step(codec, Use(codec, start, ops[..|ops| - 1]), ops[|ops| - 1])
  }

  /** An emit that reaches the file. */
  predicate Written(s: Session, op: Op) {
    op.Emit? && s.writer.Some? && !s.writer.value.closed && s.log.Some?
  }

  /** How many records the operations wrote. */
  function Count(codec: Codec, start: Session, ops: seq<Op>): nat {
    if ops == [] then 0
    else
      Count(codec, start, ops[..|ops| - 1])
      + if Written(Use(codec, start, ops[..|ops| - 1]), ops[|ops| - 1]) then 1 else 0
  }

  /** No record written so far had its place in the chain overwritten by a field. */
  predicate Respectful(codec: Codec, start: Session, ops: seq<Op>) {
    ops == [] ||
    var before, op := Use(codec, start, ops[..|ops| - 1]), ops[|ops| - 1];
    Respectful(codec, start, ops[..|ops| - 1])
    && (Written(before, op) ==>
          Fits(MakeRecord(before.writer.value.next, before.writer.value.prev, op.ts, op.event, op.fields),
               before.writer.value.next, before.writer.value.prev))
  }

  function LinesOf(s: Session): seq<string> {
    if s.log.Some? then Lines(s.log.value) else []
  }

  /** Every line on disk was written to its end. */
  predicate Whole(s: Session) {
    s.log.Some? ==> Ended(s.log.value)
  }

  /** The writer, if there is one, counts the lines of the file and knows the last. */
  predicate InPlace(codec: Codec, s: Session) {
    s.writer.Some? ==>
      s.log.Some? && s.writer.value.next == |LinesOf(s)| && s.writer.value.prev == Tip(codec, LinesOf(s))
  }

  lemma {:induction false} AppendLink(codec: Codec, lines: seq<string>, line: string)
    ensures Chained(codec, lines + [line]) <==> Chained(codec, lines) && LinkOk(codec, lines + [line], |lines|)
  {
    var all := lines + [line];
    assert all[..|lines|] == lines;
    if Chained(codec, all) {
      PrefixIsChained(codec, all, |lines|);
    }
    assert all[..|lines| + 1] == all;
    if Chained(codec, lines) && LinkOk(codec, all, |lines|) {
      ChainGrows(codec, all, |lines|);
    }
  }

  /** On a directory whose lines are whole, every use keeps the writer in place,
      counts every record, and keeps the chain exactly as long as no field overwrites
      a record's place in it. */
  lemma {:induction false} UseKeepsChain(codec: Codec, start: Session, ops: seq<Op>)
    requires Sound(codec) && start.writer.None? && Whole(start)
    ensures var s := Use(codec, start, ops);
      && Whole(s) && InPlace(codec, s) && |LinesOf(s)| == |LinesOf(start)| + Count(codec, start, ops)
      && (Chained(codec, LinesOf(s)) <==> Chained(codec, LinesOf(start)) && Respectful(codec, start, ops))
    decreases |ops|
  {
    hide Sound, Chained, LinkOk, Fits, IsBlank, OneLine;
    if ops != [] {
      var init, op := ops[..|ops| - 1], ops[|ops| - 1];
      UseKeepsChain(codec, start, init);
      var s := Use(codec, start, init);
      if Written(s, op) {
        EmitAppends(codec, s, op);
      } else if start.log.None? && op == Open {
        NoLines();
      }
    }
  }

  lemma EmitAppends(codec: Codec, s: Session, op: Op)
    requires Sound(codec) && Whole(s) && InPlace(codec, s) && Written(s, op)
    ensures var w := s.writer.value;
      var record := MakeRecord(w.next, w.prev, op.ts, op.event, op.fields);
      var after := Step(codec, s, op);
      && LinesOf(after) == LinesOf(s) + [codec.encode(record)] && Whole(after) && InPlace(codec, after)
      && (Chained(codec, LinesOf(after)) <==> Chained(codec, LinesOf(s)) && Fits(record, w.next, w.prev))
  {
    hide Chained, IsBlank, OneLine;
    var w := s.writer.value;
    var record := MakeRecord(w.next, w.prev, op.ts, op.event, op.fields);
    var line := codec.encode(record);
    LinesAppend(s.log.value, line);
    AppendLink(codec, LinesOf(s), line);
    assert (LinesOf(s) + [line])[..w.next] == LinesOf(s);
  }

  function OnDisk(s: Session): Dir {
    Dir(if s.log.Some? then Content(s.log.value) else Missing, if s.seal.Some? then Content(s.seal.value) else Missing)
  }

  /** A serialized record followed by a line feed still parses. */
  ghost predicate TrailingBreakOk(codec: Codec) {
    forall r :: codec.decode(codec.encode(r) + "\n") == Object(r)
  }

  lemma SealIs(codec: Codec, start: Session, ops: seq<Op>)
    requires TrailingBreakOk(codec) && ops != [] && ops[|ops| - 1] == Close && Use(codec, start, ops).writer.Some?
    ensures var s := Use(codec, start, ops);
      ReadSeal(codec, OnDisk(s)) == Some(SealRecord(s.writer.value.next, s.writer.value.prev))
      && !SealRaises(codec, OnDisk(s))
  {
    hide Lines, Tip;
  }

  /** A seal fits exactly the lines its writer was in place on. */
  lemma SealFitsIff(codec: Codec, start: Session, ops: seq<Op>)
    requires TrailingBreakOk(codec) && ops != [] && ops[|ops| - 1] == Close
    requires var s := Use(codec, start, ops); s.writer.Some? && s.log.Some?
    ensures var s := Use(codec, start, ops);
      IsIntact(codec, OnDisk(s), None) <==> Chained(codec, LinesOf(s)) && InPlace(codec, s)
  {
    hide Chained, Lines, Use, Tip;
    SealIs(codec, start, ops);
  }

  /** After every close on a directory whose lines were whole the log is sealed, the
      seal counts every line and names the hash of the last; and the log verifies
      exactly when what was there did and no field ever overwrote a record's `seq`
      or `prev`. */
  lemma ClosedLogsVerify(codec: Codec, start: Session, ops: seq<Op>)
    requires Sound(codec) && TrailingBreakOk(codec) && start.writer.None? && Whole(start)
    requires ops != [] && ops[|ops| - 1] == Close && Use(codec, start, ops).writer.Some?
    ensures var s := Use(codec, start, ops); var dir := OnDisk(s);
      var count := |LinesOf(start)| + Count(codec, start, ops);
      && ReadSeal(codec, dir) == Some(SealRecord(count, Tip(codec, LinesOf(s))))
      && ChainTip(codec, dir) == Some(Tip(codec, LinesOf(s)))
      && (IsIntact(codec, dir, None) <==> Chained(codec, LinesOf(start)) && Respectful(codec, start, ops))
  {
    hide Sound, Chained, Lines, Use, Count, Respectful, Tip;
    UseKeepsChain(codec, start, ops);
    SealIs(codec, start, ops);
  }

  /** Reopening and writing leaves the old seal behind: until the next close the log
      of a sealed run verifies exactly while nothing was written since. */
  lemma StaleSealIsBroken(codec: Codec, start: Session, ops: seq<Op>, op: Op)
    requires Sound(codec) && TrailingBreakOk(codec) && start.writer.None? && Whole(start)
    requires var s := Use(codec, start, ops);
      Written(s, op) && IsSealed(codec, OnDisk(s)) && IsIntact(codec, OnDisk(s), None)
    ensures !IsIntact(codec, OnDisk(Step(codec, Use(codec, start, ops), op)), None)
  {
    hide Chained;
    UseKeepsChain(codec, start, ops);
    EmitAppends(codec, Use(codec, start, ops), op);
  }

  lemma EmptyIsChained(codec: Codec)
    ensures Chained(codec, [])
  {
  }

  /** One visit to a run directory: reopened, one record, closed. */
  function Visit(ts: string, event: string, fields: Record): seq<Op> { [Open, Emit(ts, event, fields), Close] }

  lemma VisitIs(codec: Codec, start: Session, ts: string, event: string, fields: Record)
    ensures var ops := Visit(ts, event, fields);
      && Use(codec, start, ops) == Closed(codec, Emitted(codec, Opened(codec, start), ts, event, fields))
      && Count(codec, start, ops) == 1
      && var w := Opened(codec, start).writer.value;
      Respectful(codec, start, ops) <==> Fits(MakeRecord(w.next, w.prev, ts, event, fields), w.next, w.prev)
  {
    hide Lines, Tip, Fits;
    var first: seq<Op> := [Open];
    var second := [Open, Emit(ts, event, fields)];
    var ops := Visit(ts, event, fields);
    assert first[..|first| - 1] == [] && second[..|second| - 1] == first && ops[..|ops| - 1] == second;
    assert Use(codec, start, []) == start && Count(codec, start, []) == 0 && Respectful(codec, start, []);
    assert Use(codec, start, first) == Opened(codec, start) && Count(codec, start, first) == 0;
    assert Respectful(codec, start, first);
    assert Use(codec, start, second) == Emitted(codec, Opened(codec, start), ts, event, fields);
    assert Count(codec, start, second) == 1;
  }

  /** A field that names its own position breaks the chain: one such record, and the
      closed and sealed log never verifies. */
  lemma OverwrittenSeqBreaks(codec: Codec, ts: string, event: string, fields: Record)
    requires Sound(codec) && TrailingBreakOk(codec)
    requires "seq" in fields && fields["seq"] != Number(0)
    ensures var s := Use(codec, FRESH, Visit(ts, event, fields));
      IsSealed(codec, OnDisk(s)) && !IsIntact(codec, OnDisk(s), None)
  {
    hide Sound, Chained, Lines, Count, TrailingBreakOk, Use, Respectful;
    NoLines();
    VisitIs(codec, FRESH, ts, event, fields);
    ClosedLogsVerify(codec, FRESH, Visit(ts, event, fields));
  }

  // ------------------------------------------------------- a line cut short

  /** What stands after the last line break. */
  function Torn(text: string): (part: string)
    ensures |part| <= |text| && text[|text| - |part|..] == part && OneLine(part) && Ended(text[..|text| - |part|])
  {
    if Ended(text) then [] else Torn(text[..|text| - 1]) + [text[|text| - 1]]
  }

  /** A cut-short line is a line of the file, unless it is blank. */
  lemma {:induction false} TornLines(whole: string, part: string)
    requires Ended(whole) && OneLine(part)
    ensures Lines(whole + part) == Lines(whole) + (if IsBlank(part) then [] else [part])
    decreases |whole|
  {
    hide IsBlank, IsBreak, LineEnd, Lines, OneLine;
    if whole == [] {
      assert whole + part == part;
      OnlyLine(part);
      NoLines();
    } else {
      var n := LineEnd(whole);
      FirstLineStays(whole, part);
      EndedTail(whole, n);
      TornLines(whole[n + 1..], part);
      LinesUnfold(whole);
      LinesUnfold(whole + part);
    }
  }

  lemma OnlyLine(part: string)
    requires OneLine(part)
    ensures Lines(part) == if IsBlank(part) then [] else [part]
  {
    hide IsBreak, IsSpace;
    LineEndIs(part, |part|);
    assert part[..|part|] == part;
  }

  /** The lines of a file before and after one more record: it joins what was cut short. */
  lemma AppendJoinsTornLine(text: string, line: string)
    requires OneLine(line) && !IsBlank(line)
    ensures var part := Torn(text); var whole := text[..|text| - |part|];
      && Lines(text) == Lines(whole) + (if IsBlank(part) then [] else [part])
      && Lines(text + line + "\n") == Lines(whole) + [part + line] && Ended(text + line + "\n")
  {
    hide Lines, IsBreak, IsSpace, IsBlank;
    var part := Torn(text);
    var whole := text[..|text| - |part|];
    assert text == whole + part;
    TornLines(whole, part);
    NotBlankWith(part, line);
    assert OneLine(part + line);
    LinesAppend(whole, part + line);
    assert whole + (part + line) + "\n" == text + line + "\n";
  }

  /** Whatever the file held: after one visit that writes a record in its place the
      log verifies exactly when its last line was whole and it was chained before. */
  lemma OneVisitVerifiesIff(codec: Codec, start: Session, ts: string, event: string, fields: Record)
    requires Sound(codec) && TrailingBreakOk(codec) && start.writer.None?
    requires Respectful(codec, start, Visit(ts, event, fields))
    ensures IsIntact(codec, OnDisk(Use(codec, start, Visit(ts, event, fields))), None)
      <==> Whole(start) && Chained(codec, LinesOf(start))
  {
    hide Sound, Chained, Lines, Count, TrailingBreakOk, Use, Respectful, Torn;
    var ops := Visit(ts, event, fields);
    VisitIs(codec, start, ts, event, fields);
    if Whole(start) {
      ClosedLogsVerify(codec, start, ops);
    } else {
      SealFitsIff(codec, start, ops);
      TornVisit(codec, start, ts, event, fields);
    }
  }

  lemma EncodesOnOneLine(codec: Codec, record: Record)
    requires Sound(codec)
    ensures OneLine(codec.encode(record)) && !IsBlank(codec.encode(record))
  {
  }

  /** The writer that opened a torn file and wrote is not in place. */
  lemma TornVisit(codec: Codec, start: Session, ts: string, event: string, fields: Record)
    requires Sound(codec) && start.writer.None? && !Whole(start)
    ensures !InPlace(codec, Emitted(codec, Opened(codec, start), ts, event, fields))
  {
    hide Sound, Lines, IsBlank, OneLine, IsBreak, Torn, MakeRecord;
    var s := Opened(codec, start);
    var record := MakeRecord(s.writer.value.next, s.writer.value.prev, ts, event, fields);
    var line := codec.encode(record);
    EncodesOnOneLine(codec, record);
    AppendJoinsTornLine(start.log.value, line);
    var part := Torn(start.log.value);
    assert |part + line| > |line|;
    HashesDiffer(codec, part + line, line);
  }

  lemma HashesDiffer(codec: Codec, a: string, b: string)
    requires Sound(codec) && a != b
    ensures codec.hash(a) != codec.hash(b)
  {
  }

  /** Nothing but white space can stand before a record on its line and the line
      still be an object: a JSON text holds one value. */
  ghost predicate Unjoinable(codec: Codec) {
    forall part, r :: !IsBlank(part) ==> !codec.decode(part + codec.encode(r)).Object?
  }

  /** The file's last line was cut short. */
  predicate CutShort(s: Session) {
    s.log.Some? && !IsBlank(Torn(s.log.value))
  }

  /** On a file whose last line was cut short the first record breaks the chain for
      good; until then nothing changes. */
  lemma {:induction false} CutShortBreaks(codec: Codec, start: Session, ops: seq<Op>)
    requires Sound(codec) && Unjoinable(codec) && start.writer.None? && CutShort(start)
    ensures var s := Use(codec, start, ops);
      if Count(codec, start, ops) == 0 then s.log == start.log && InPlace(codec, s) && Respectful(codec, start, ops)
      else Whole(s) && s.log.Some? && !Chained(codec, LinesOf(s))
    decreases |ops|
  {
    hide Sound, Unjoinable, Chained, IsBlank, OneLine, Lines, Tip, Torn, Fits;
    if ops != [] {
      var init, op := ops[..|ops| - 1], ops[|ops| - 1];
      CutShortBreaks(codec, start, init);
      var s := Use(codec, start, init);
      if Written(s, op) {
        if Count(codec, start, init) == 0 {
          JoinBreaks(codec, s, op);
        } else {
          BrokenStays(codec, s, op);
        }
      }
    }
  }

  lemma JoinedIsNoObject(codec: Codec, part: string, record: Record)
    requires Unjoinable(codec) && !IsBlank(part)
    ensures !codec.decode(part + codec.encode(record)).Object?
  {
  }

  lemma JoinBreaks(codec: Codec, s: Session, op: Op)
    requires Sound(codec) && Unjoinable(codec) && CutShort(s) && Written(s, op)
    ensures var after := Step(codec, s, op); Whole(after) && !Chained(codec, LinesOf(after))
  {
    hide Sound, Unjoinable, Lines, IsBlank, OneLine, Torn, Fits, Tip;
    var record := MakeRecord(s.writer.value.next, s.writer.value.prev, op.ts, op.event, op.fields);
    EncodesOnOneLine(codec, record);
    AppendJoinsTornLine(s.log.value, codec.encode(record));
    JoinedIsNoObject(codec, Torn(s.log.value), record);
    var lines := LinesOf(Step(codec, s, op));
    assert !LinkOk(codec, lines, |lines| - 1);
  }

  lemma BrokenStays(codec: Codec, s: Session, op: Op)
    requires Sound(codec) && Whole(s) && Written(s, op) && !Chained(codec, LinesOf(s))
    ensures var after := Step(codec, s, op); Whole(after) && !Chained(codec, LinesOf(after))
  {
    hide Chained, Lines, IsBlank, OneLine;
    var line := codec.encode(MakeRecord(s.writer.value.next, s.writer.value.prev, op.ts, op.event, op.fields));
    LinesAppend(s.log.value, line);
    AppendLink(codec, LinesOf(s), line);
  }

  /** From any file, whole or cut short, after any use that ends in a close: the log
      verifies exactly when it was chained to begin with, no field overwrote a
      record's place, and its last line was whole or nothing was written. */
  lemma AnyLogVerifiesIff(codec: Codec, start: Session, ops: seq<Op>)
    requires Sound(codec) && TrailingBreakOk(codec) && Unjoinable(codec) && start.writer.None?
    requires Whole(start) || CutShort(start)
    requires ops != [] && ops[|ops| - 1] == Close && Use(codec, start, ops).writer.Some?
    ensures IsIntact(codec, OnDisk(Use(codec, start, ops)), None) <==>
      && Chained(codec, LinesOf(start)) && Respectful(codec, start, ops)
      && (Whole(start) || Count(codec, start, ops) == 0)
  {
    hide Sound, Chained, Lines, Use, Count, Respectful, Tip, Torn, IsBlank, Unjoinable, TrailingBreakOk;
    if Whole(start) {
      ClosedLogsVerify(codec, start, ops);
    } else {
      CutShortBreaks(codec, start, ops);
      SealFitsIff(codec, start, ops);
    }
  }

  /** A log that verifies but for the line feed of its last record, reopened: not
      after any use that writes a record does it verify again. */
  lemma LostLineFeedBreaks(codec: Codec, start: Session, ops: seq<Op>)
    requires Sound(codec) && TrailingBreakOk(codec) && Unjoinable(codec) && start.writer.None?
    requires IsIntact(codec, OnDisk(start), None) && CutShort(start)
    requires ops != [] && ops[|ops| - 1] == Close && Use(codec, start, ops).writer.Some?
    ensures IsIntact(codec, OnDisk(Use(codec, start, ops)), None) <==> Count(codec, start, ops) == 0
  {
    hide Sound, Chained, Lines, Use, Count, Respectful, Tip, Torn, IsBlank, Unjoinable, TrailingBreakOk;
    assert !Whole(start) by { CutShortIsNotWhole(start); }
    AnyLogVerifiesIff(codec, start, ops);
    CutShortBreaks(codec, start, ops);
  }

  lemma CutShortIsNotWhole(s: Session)
    requires CutShort(s)
    ensures !Whole(s)
  {
  }

  /** White space, as after a line break, may stand before a record and the line still
      be that object. */
  ghost predicate Padded(codec: Codec, part: string) {
    forall r :: codec.decode(part + codec.encode(r)) == Object(r)
  }

  lemma PaddedIs(codec: Codec, part: string, record: Record)
    requires Padded(codec, part)
    ensures codec.decode(part + codec.encode(record)) == Object(record)
  {
  }

  /** Behind a last line of nothing but white space, one visit leaves a log that does
      not verify; opening and closing it once more makes it verify again, exactly when
      it was chained before. */
  lemma ReopeningHealsBlank(codec: Codec, start: Session, ts: string, event: string, fields: Record)
    requires Sound(codec) && TrailingBreakOk(codec) && start.writer.None? && !Whole(start) && !CutShort(start)
    requires Padded(codec, Torn(start.log.value)) && Respectful(codec, start, Visit(ts, event, fields))
    ensures !IsIntact(codec, OnDisk(Use(codec, start, Visit(ts, event, fields))), None)
    ensures IsIntact(codec, OnDisk(Use(codec, start, Visit(ts, event, fields) + [Open, Close])), None)
      <==> Chained(codec, LinesOf(start))
  {
    hide Sound, Chained, Lines, Count, TrailingBreakOk, Use, Respectful, Torn, IsBlank, OneLine, Fits, Tip, Padded,
         MakeRecord;
    var ops := Visit(ts, event, fields);
    OneVisitVerifiesIff(codec, start, ts, event, fields);
    VisitIs(codec, start, ts, event, fields);
    var w := Opened(codec, start).writer.value;
    var record := MakeRecord(w.next, w.prev, ts, event, fields);
    var part := Torn(start.log.value);
    EncodesOnOneLine(codec, record);
    AppendJoinsTornLine(start.log.value, codec.encode(record));
    PaddedIs(codec, part, record);
    AppendLink(codec, LinesOf(start), part + codec.encode(record));
    var lines := LinesOf(start) + [part + codec.encode(record)];
    assert lines[..|LinesOf(start)|] == LinesOf(start);
    assert LinkOk(codec, lines, |LinesOf(start)|) by {
      assert w.next == |LinesOf(start)| && w.prev == Tip(codec, LinesOf(start));
    }
    TwoMore(codec, start, ops);
    var s := Use(codec, start, ops + [Open, Close]);
    assert s.log == Some(start.log.value + codec.encode(record) + "\n");
    assert LinesOf(s) == lines;
    assert InPlace(codec, s);
    SealFitsIff(codec, start, ops + [Open, Close]);
  }

  lemma TwoMore(codec: Codec, start: Session, ops: seq<Op>)
    ensures Use(codec, start, ops + [Open, Close]) == Closed(codec, Opened(codec, Use(codec, start, ops)))
  {
    hide Lines, Tip, Opened, Closed;
    var first, all := ops + [Open], ops + [Open, Close];
    assert first[..|first| - 1] == ops && all[..|all| - 1] == first;
  }
}
