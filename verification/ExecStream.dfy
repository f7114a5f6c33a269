/** The exec result as server-sent events: the bridge's printer and the worker's parser. */
module ExecStream {
  import opened Options
  import opened Strings

  const PAD: CodeUnit := 0x3D

  // ---- Base64 (RFC 4648, section 4) ----

  type Sextet = i: int | 0 <= i < 64

  function Symbol(i: Sextet): CodeUnit {
    if i < 26 then 0x41 + i
    else if i < 52 then 0x61 + i - 26
    else if i < 62 then 0x30 + i - 52
    else if i == 62 then 0x2B else 0x2F
  }

  function SymbolValue(u: CodeUnit): Option<Sextet> {
    if IsUpper(u) then Some(u - 0x41)
    else if IsLower(u) then Some(u - 0x61 + 26)
    else if IsDigit(u) then Some(u - 0x30 + 52)
    else if u == 0x2B then Some(62) else if u == 0x2F then Some(63) else None
  }

  lemma SymbolInverts(i: Sextet)
    ensures SymbolValue(Symbol(i)) == Some(i) && Symbol(i) != PAD && !IsAsciiSpace(Symbol(i))
  {
  }

  // Three bytes x, y, z are the four sextets A(x), B(x, y), C(y, z), D(z); missing bytes count as zero.

  function SextetA(x: Byte): Sextet { x / 4 }

  function SextetB(x: Byte, y: Byte): Sextet { x % 4 * 16 + y / 16 }

  function SextetC(y: Byte, z: Byte): Sextet { y % 16 * 4 + z / 64 }

  function SextetD(z: Byte): Sextet { z % 64 }

  function ByteX(a: Sextet, b: Sextet): Byte { a * 4 + b / 16 }

  function ByteY(b: Sextet, c: Sextet): Byte { b % 16 * 16 + c / 4 }

  function ByteZ(c: Sextet, d: Sextet): Byte { c % 4 * 64 + d }

  lemma BitsInvert(x: Byte, y: Byte, z: Byte)
    ensures ByteX(SextetA(x), SextetB(x, y)) == x
    ensures ByteY(SextetB(x, y), SextetC(y, z)) == y
    ensures ByteZ(SextetC(y, z), SextetD(z)) == z
  {
    assert (x % 4 * 16 + y / 16) / 16 == x % 4 && (x % 4 * 16 + y / 16) % 16 == y / 16;
    assert (y % 16 * 4 + z / 64) / 4 == y % 16 && (y % 16 * 4 + z / 64) % 4 == z / 64;
  }

  /** A byte string in groups of six bits; one or two last bytes are filled up with zero bits. */
  function Sextets(b: seq<Byte>): seq<Sextet> {
    if |b| == 0 then []
    else if |b| == 1 then [SextetA(b[0]), SextetB(b[0], 0)]
    else if |b| == 2 then [SextetA(b[0]), SextetB(b[0], b[1]), SextetC(b[1], 0)]
    else [SextetA(b[0]), SextetB(b[0], b[1]), SextetC(b[1], b[2]), SextetD(b[2])] + Sextets(b[3..])
  }

  function FromSextets(v: seq<Sextet>): Option<seq<Byte>> {
    if |v| == 0 then Some([])
    else if |v| == 1 then None
    else if |v| == 2 then Some([ByteX(v[0], v[1])])
    else if |v| == 3 then Some([ByteX(v[0], v[1]), ByteY(v[1], v[2])])
    else var rest := FromSextets(v[4..]);
         if rest.None? then None
         else Some([ByteX(v[0], v[1]), ByteY(v[1], v[2]), ByteZ(v[2], v[3])] + rest.value)
  }

  lemma {:induction false} SextetsInvert(b: seq<Byte>)
    ensures FromSextets(Sextets(b)) == Some(b)
    ensures |Sextets(b)| % 4 == (if |b| % 3 == 0 then 0 else |b| % 3 + 1)
    decreases |b|
  {
    hide SextetA, SextetB, SextetC, SextetD, ByteX, ByteY, ByteZ;
    if |b| >= 3 {
      BitsInvert(b[0], b[1], b[2]);
      SextetsInvert(b[3..]);
      assert Sextets(b)[4..] == Sextets(b[3..]);
      assert b == [b[0], b[1], b[2]] + b[3..];
    } else if |b| == 2 {
      BitsInvert(b[0], b[1], 0);
      assert b == [b[0], b[1]];
    } else if |b| == 1 {
      BitsInvert(b[0], 0, 0);
      assert b == [b[0]];
    }
  }

  function Symbols(v: seq<Sextet>): (t: Text)
    ensures |t| == |v|
  {
    if v == [] then [] else [Symbol(v[0])] + Symbols(v[1..])
  }

  /** The values of a text's symbols, if all are in the alphabet. */
  function Values(t: Text): Option<seq<Sextet>> {
    if t == [] then Some([])
    else var first, rest := SymbolValue(t[0]), Values(t[1..]);
         if first.None? || rest.None? then None else Some([first.value] + rest.value)
  }

  lemma {:induction false} ValuesInvert(v: seq<Sextet>)
    ensures Values(Symbols(v)) == Some(v)
    ensures forall i :: 0 <= i < |v| ==> Symbols(v)[i] != PAD && !IsAsciiSpace(Symbols(v)[i])
  {
    hide Symbol, SymbolValue, IsAsciiSpace;
    if v != [] {
      SymbolInverts(v[0]);
      ValuesInvert(v[1..]);
      assert Symbols(v)[1..] == Symbols(v[1..]);
      assert v == [v[0]] + v[1..];
    }
  }

  function Padding(n: nat): Text { if n % 3 == 1 then [PAD, PAD] else if n % 3 == 2 then [PAD] else [] }

  function Btoa(b: seq<Byte>): Text { Symbols(Sextets(b)) + Padding(|b|) }

  predicate IsAsciiSpace(u: int) { u == 0x09 || u == 0x0A || u == 0x0C || u == 0x0D || u == 0x20 }

  function WithoutSpaces(t: Text): Text {
    if t == [] then [] else (if IsAsciiSpace(t[0]) then [] else [t[0]]) + WithoutSpaces(t[1..])
  }

  function WithoutPadding(t: Text): Text {
    if |t| % 4 == 0 && |t| > 0 && t[|t| - 1] == PAD then
      if t[|t| - 2] == PAD then t[..|t| - 2] else t[..|t| - 1]
    else t
  }

  /** atob: white space is ignored, padding is optional, anything else outside the alphabet throws. */
  function Atob(t: Text): Option<seq<Byte>> {
    var values := Values(WithoutPadding(WithoutSpaces(t)));
    if values.None? then None else FromSextets(values.value)
  }

  lemma {:induction false} NothingToStrip(t: Text)
    requires forall i :: 0 <= i < |t| ==> !IsAsciiSpace(t[i])
    ensures WithoutSpaces(t) == t
  {
    if t != [] {
      NothingToStrip(t[1..]);
      assert t == [t[0]] + t[1..];
    }
  }

  lemma PaddingStripped(t: Text, n: nat)
    requires PAD !in t && |t| % 4 == (if n % 3 == 0 then 0 else n % 3 + 1)
    ensures WithoutPadding(t + Padding(n)) == t
  {
    var u := t + Padding(n);
    if n % 3 == 0 {
      assert u == t;
      assert t != [] ==> t[|t| - 1] in t;
    } else if n % 3 == 1 {
      assert |u| % 4 == 0 && u[|u| - 1] == PAD && u[|u| - 2] == PAD;
      assert u[..|u| - 2] == t;
    } else {
      assert |u| % 4 == 0 && u[|u| - 1] == PAD && u[|u| - 2] == t[|t| - 1];
      assert u[..|u| - 1] == t;
    }
  }

  lemma NoSpaceInside(t: Text, n: nat)
    requires forall i :: 0 <= i < |t| ==> !IsAsciiSpace(t[i])
    ensures WithoutSpaces(t + Padding(n)) == t + Padding(n)
    ensures NEWLINE !in t + Padding(n)
  {
    var u := t + Padding(n);
    assert !IsAsciiSpace(PAD) && IsAsciiSpace(NEWLINE);
    hide IsAsciiSpace;
    assert forall i :: 0 <= i < |u| ==> !IsAsciiSpace(u[i]);
    NothingToStrip(u);
  }

  /** Base64 round trip, for every byte string; the encoding never contains a newline. */
  lemma Base64RoundTrip(b: seq<Byte>)
    ensures Atob(Btoa(b)) == Some(b)
    ensures NEWLINE !in Btoa(b)
  {
    SextetsInvert(b);
    ValuesInvert(Sextets(b));
    var t := Symbols(Sextets(b));
    hide Sextets, FromSextets, Symbols, Values, WithoutSpaces, WithoutPadding, Padding, IsAsciiSpace;
    PaddingStripped(t, |b|);
    NoSpaceInside(t, |b|);
  }

  // ---- Integers ----

  function Digits(n: nat): (t: Text)
    ensures |t| > 0 && forall i :: 0 <= i < |t| ==> IsDigit(t[i])
  {
    (if n < 10 then [] else Digits(n / 10)) + [0x30 + n % 10]
  }

  function PrintInt(n: int): Text { if n < 0 then [0x2D] + Digits(-n) else Digits(n) }

  predicate AllDigits(t: Text) { forall i :: 0 <= i < |t| ==> IsDigit(t[i]) }

  function DigitsValue(t: Text): nat
    requires AllDigits(t)
  {
    if t == [] then 0 else DigitsValue(t[..|t| - 1]) * 10 + (t[|t| - 1] - 0x30)
  }

  predicate IsNatural(t: Text) { t != [] && AllDigits(t) && (|t| > 1 ==> t[0] != 0x30) }

  /** JSON's integer literals. */
  predicate IsIntegerLiteral(t: Text) { IsNatural(t) || (t != [] && t[0] == 0x2D && IsNatural(t[1..])) }

  function LiteralValue(t: Text): int
    requires IsIntegerLiteral(t)
  {
    if t[0] == 0x2D then 0 - DigitsValue(t[1..]) else DigitsValue(t)
  }

  lemma {:induction false} DigitsInvert(n: nat)
    ensures IsNatural(Digits(n)) && DigitsValue(Digits(n)) == n
    ensures n > 0 ==> Digits(n)[0] != 0x30
  {
    var t := Digits(n);
    if n >= 10 {
      DigitsInvert(n / 10);
      assert t[..|t| - 1] == Digits(n / 10);
      assert t[0] == Digits(n / 10)[0];
    } else {
      assert t == [0x30 + n];
      assert t[..0] == [];
    }
  }

  lemma PrintedStart(n: int)
    ensures var t := PrintInt(n); t != [] && NEWLINE !in t && (t[0] == 0x2D <==> n < 0)
  {
    hide Digits;
    var d := Digits(if n < 0 then -n else n);
    assert IsDigit(d[0]) && NEWLINE !in d;
  }

  /** Integer round trip. */
  lemma IntegerRoundTrip(n: int)
    ensures IsIntegerLiteral(PrintInt(n)) && LiteralValue(PrintInt(n)) == n
    ensures NEWLINE !in PrintInt(n)
  {
    PrintedStart(n);
    DigitsInvert(if n < 0 then -n else n);
    hide Digits, DigitsValue, IsNatural, IsDigit;
    if n < 0 {
      assert PrintInt(n)[1..] == Digits(-n);
    } else {
      assert PrintInt(n) == Digits(n);
    }
  }

  // ---- The exit frame's JSON ----

  /** The JSON text of a number that is not written as an integer, or of null. */
  type OtherNumber = t: Text | !IsIntegerLiteral(t) && NEWLINE !in t

  /** An exit code: an integer, or any other number. */
  datatype ExitCode = Whole(n: int) | NotWhole(text: OtherNumber)

  predicate IsSafe(n: int) { -MAX_SAFE_INTEGER <= n <= MAX_SAFE_INTEGER }

  function NumberText(x: ExitCode): Text { if x.Whole? then PrintInt(x.n) else x.text }

  function ExitHead(): Text { Ascii("{\"exit_code\":") }

  function ExitJson(x: ExitCode): Text { ExitHead() + NumberText(x) + Ascii("}") }

  /** What reading `exit_code` from a JSON text gives. */
  datatype JsonExit = Code(n: int) | NoCode | Throws

  /** JSON.parse of an object of that shape with an integer is spelled out; `other` stands for it on all other texts. */
  function ParseExit(other: Text -> JsonExit, data: Text): JsonExit {
    var head := ExitHead();
    if |data| > |head| && data[..|head|] == head && data[|data| - 1] == UnitOf('}')
       && IsIntegerLiteral(data[|head|..|data| - 1])
    then
      var n := LiteralValue(data[|head|..|data| - 1]);
      if IsSafe(n) then Code(n) else NoCode
    else other(data)
  }

  /** The printed object has the shape the reader looks for. */
  lemma ExitShape(head: Text, number: Text, last: Text)
    requires |last| == 1 && number != []
    ensures var data := head + number + last;
            && |data| > |head| && data[..|head|] == head && data[|data| - 1] == last[0]
            && data[|head|..|data| - 1] == number
  {
  }

  lemma ExitRoundTrip(other: Text -> JsonExit, x: ExitCode)
    requires x.NotWhole? ==> other(ExitJson(x)) == NoCode
    ensures ParseExit(other, ExitJson(x)) == if x.Whole? && IsSafe(x.n) then Code(x.n) else NoCode
    ensures NEWLINE !in ExitJson(x)
  {
    if x.Whole? { IntegerRoundTrip(x.n); }
    HeadPlain();
    hide PrintInt, IsIntegerLiteral, LiteralValue, ExitHead;
    if NumberText(x) != [] {
      ExitShape(ExitHead(), NumberText(x), Ascii("}"));
    } else {
      assert ExitJson(x)[|ExitHead()|..|ExitJson(x)| - 1] == [];
    }
  }

  lemma HeadPlain()
    ensures NEWLINE !in ExitHead() && NEWLINE !in Ascii("}")
  {
  }

  // ---- The printer ----

  datatype ExecResult = ExecResult(stdout: Text, stderr: Text, exitCode: ExitCode)

  function EventPrefix(): Text { Ascii("event: ") }

  function DataPrefix(): Text { Ascii("data: ") }

  function StdoutName(): Text { Ascii("stdout") }

  function StderrName(): Text { Ascii("stderr") }

  function ExitName(): Text { Ascii("exit") }

  function EventLine(name: Text): Text { EventPrefix() + name }

  function DataLine(data: Text): Text { DataPrefix() + data }

  function Frame(name: Text, data: Text): Text { EventLine(name) + [NEWLINE] + DataLine(data) }

  function StdoutFrame(t: Text): Text { Frame(StdoutName(), Btoa(Encode(t))) }

  function StderrFrame(t: Text): Text { Frame(StderrName(), Btoa(Encode(t))) }

  function ExitFrame(x: ExitCode): Text { Frame(ExitName(), ExitJson(x)) }

  function Frames(r: ExecResult): seq<Text> {
    (if r.stdout != [] then [StdoutFrame(r.stdout)] else [])
    + (if r.stderr != [] then [StderrFrame(r.stderr)] else [])
    + [ExitFrame(r.exitCode)]
  }

  /** Frames, each followed by a blank line. */
  function Stream(frames: seq<Text>): Text {
    if frames == [] then [] else frames[0] + [NEWLINE, NEWLINE] + Stream(frames[1..])
  }

  /** The bytes of a text, collected one by one, in base64. */
  method Base64(value: Text) returns (text: Text)
    ensures text == Btoa(Encode(value))
  {
    var bytes := Encode(value);
    var binary: seq<Byte> := [];
    for i := 0 to |bytes|
      invariant binary == bytes[..i]
    {
      binary := binary + [bytes[i]];
    }
    assert binary == bytes;
    return Btoa(binary);
  }

  method ExecSse(result: ExecResult) returns (body: Text)
    ensures body == Stream(Frames(result))
  {
    hide Frame, Btoa, Encode, ExitJson;
    var frames: seq<Text> := [];
    if |result.stdout| > 0 {
      var data := Base64(result.stdout);
      frames := frames + [Frame(StdoutName(), data)];
    }
    if |result.stderr| > 0 {
      var data := Base64(result.stderr);
      frames := frames + [Frame(StderrName(), data)];
    }
    frames := frames + [Frame(ExitName(), ExitJson(result.exitCode))];
    assert frames == Frames(result);
    return Stream(frames);
  }

  // ---- The parser ----

  /** The position of the first blank line's newline pair, or the length. */
  function BlankAt(t: Text): (n: nat)
    ensures n <= |t| && (n < |t| ==> n + 1 < |t| && t[n] == NEWLINE && t[n + 1] == NEWLINE)
  {
    if t == [] then 0
    else if |t| >= 2 && t[0] == NEWLINE && t[1] == NEWLINE then 0
    else 1 + BlankAt(t[1..])
  }

  function SplitBlank(t: Text): seq<Text> {
    var n := BlankAt(t);
    if n == |t| then [t] else [t[..n]] + SplitBlank(t[n + 2..])
  }

  function SplitLines(t: Text): seq<Text>
    decreases |t|
  {
    var n := NewlineAt(t);
    if n == |t| then [t] else [t[..n]] + SplitLines(t[n + 1..])
  }

  /** The first line that starts with `prefix`, without it. */
  function AfterPrefix(lines: seq<Text>, prefix: Text): Option<Text> {
    if lines == [] then None
    else if StartsWith(lines[0], prefix) then Some(lines[0][|prefix|..])
    else AfterPrefix(lines[1..], prefix)
  }

  /** What is collected: the decoded bytes, one character each, and the exit code. */
  datatype Collected = Collected(stdout: Text, exit: Option<int>)

  /** One frame; `None` when decoding throws. */
  function TakeFrame(other: Text -> JsonExit, c: Collected, frame: Text): Option<Collected> {
    var lines := SplitLines(frame);
    var event, data := AfterPrefix(lines, EventPrefix()), AfterPrefix(lines, DataPrefix());
    if event == Some(StdoutName()) && data.Some? then
      var bytes := Atob(data.value);
      if bytes.None? then None else Some(c.(stdout := c.stdout + bytes.value))
    else if event == Some(ExitName()) && data.Some? then
      match ParseExit(other, data.value)
      case Throws => None
      case NoCode => Some(c)
      case Code(n) => Some(c.(exit := Some(n)))
    else Some(c)
  }

  function TakeFrames(other: Text -> JsonExit, c: Collected, frames: seq<Text>): Option<Collected>
    decreases |frames|
  {
    if frames == [] then Some(c)
    else var d := TakeFrame(other, c, frames[0]);
         if d.None? then None else TakeFrames(other, d.value, frames[1..])
  }

  datatype ParseResult = Parsed(exitCode: int, stdout: Text) | TerminalMissing | Threw

  function ParseOf(other: Text -> JsonExit, body: Text): ParseResult {
    var c := TakeFrames(other, Collected([], None), SplitBlank(body));
    if c.None? then Threw
    else if c.value.exit.None? then TerminalMissing
    else Parsed(c.value.exit.value, c.value.stdout)
  }

  method ParseExecResponse(other: Text -> JsonExit, body: Text) returns (result: ParseResult)
    ensures result == ParseOf(other, body)
  {
    hide TakeFrame;
    var frames := SplitBlank(body);
    var c := Collected([], None);
    var i := 0;
    while i < |frames|
      invariant 0 <= i <= |frames|
      invariant TakeFrames(other, Collected([], None), frames) == TakeFrames(other, c, frames[i..])
    {
      var d := TakeFrame(other, c, frames[i]);
      assert frames[i..][1..] == frames[i + 1..];
      if d.None? { return Threw; }
      c := d.value;
      i := i + 1;
    }
    if c.exit.None? { return TerminalMissing; }
    return Parsed(c.exit.value, c.stdout);
  }

  // ---- Printing and parsing ----

  /** Two non-empty lines without newlines of their own. */
  ghost predicate TwoLines(frame: Text, head: Text, tail: Text) {
    frame == head + [NEWLINE] + tail && NEWLINE !in head && NEWLINE !in tail && head != [] && tail != []
  }

  lemma NewlineFound(head: Text, rest: Text)
    requires NEWLINE !in head
    ensures NewlineAt(head + [NEWLINE] + rest) == |head|
    ensures NewlineAt(head) == |head|
  {
    var t := head + [NEWLINE] + rest;
    assert t[..|head|] == head;
    NewlineUnique(t, |head|);
    assert forall i :: 0 <= i < |head| ==> head[i] != NEWLINE;
  }

  lemma LinesFound(frame: Text, head: Text, tail: Text)
    requires TwoLines(frame, head, tail)
    ensures SplitLines(frame) == [head, tail]
  {
    NewlineFound(head, tail);
    NewlineFound(tail, []);
    assert frame[..|head|] == head && frame[|head| + 1..] == tail;
  }

  /** A text without newlines, followed by a blank line, ends there. */
  lemma {:induction false} BlankAfterLine(line: Text, rest: Text)
    requires NEWLINE !in line && line != []
    ensures BlankAt(line + [NEWLINE, NEWLINE] + rest) == |line|
  {
    var t := line + [NEWLINE, NEWLINE] + rest;
    assert t[0] == line[0] && t[1..] == line[1..] + [NEWLINE, NEWLINE] + rest;
    if |line| == 1 {
      assert t[1..][0] == NEWLINE && t[1..][1] == NEWLINE;
    } else {
      BlankAfterLine(line[1..], rest);
    }
  }

  lemma {:induction false} BlankAfterTwo(head: Text, tail: Text, rest: Text)
    requires NEWLINE !in head && NEWLINE !in tail && tail != []
    ensures BlankAt(head + [NEWLINE] + tail + [NEWLINE, NEWLINE] + rest) == |head| + 1 + |tail|
  {
    var t := head + [NEWLINE] + tail + [NEWLINE, NEWLINE] + rest;
    if head == [] {
      assert t[0] == NEWLINE && t[1] == tail[0];
      assert t[1..] == tail + [NEWLINE, NEWLINE] + rest;
      BlankAfterLine(tail, rest);
    } else {
      assert t[0] == head[0] && t[1..] == head[1..] + [NEWLINE] + tail + [NEWLINE, NEWLINE] + rest;
      BlankAfterTwo(head[1..], tail, rest);
    }
  }

  ghost predicate Framed(frame: Text) { exists head, tail :: TwoLines(frame, head, tail) }

  lemma SplitsAt(t: Text, frame: Text, rest: Text)
    requires t == frame + [NEWLINE, NEWLINE] + rest && BlankAt(t) == |frame|
    ensures SplitBlank(t) == [frame] + SplitBlank(rest)
  {
    assert t[..|frame|] == frame && t[|frame| + 2..] == rest;
    hide BlankAt;
  }

  lemma FirstFrame(frame: Text, rest: Text)
    requires Framed(frame)
    ensures SplitBlank(frame + [NEWLINE, NEWLINE] + rest) == [frame] + SplitBlank(rest)
  {
    hide BlankAt, SplitBlank;
    var head, tail :| TwoLines(frame, head, tail);
    BlankAfterTwo(head, tail, rest);
    SplitsAt(frame + [NEWLINE, NEWLINE] + rest, frame, rest);
  }

  /** Splitting the stream gives back its frames, and an empty text after the last blank line. */
  lemma {:induction false} StreamSplits(frames: seq<Text>)
    requires forall i :: 0 <= i < |frames| ==> Framed(frames[i])
    ensures SplitBlank(Stream(frames)) == frames + [[]]
  {
    if frames != [] {
      FirstFrame(frames[0], Stream(frames[1..]));
      StreamSplits(frames[1..]);
      hide SplitBlank, Framed;
      assert frames == [frames[0]] + frames[1..];
    }
  }

  lemma PrefixesDiffer(name: Text, data: Text)
    ensures AfterPrefix([EventLine(name), DataLine(data)], EventPrefix()) == Some(name)
    ensures AfterPrefix([EventLine(name), DataLine(data)], DataPrefix()) == Some(data)
  {
    var e, d := EventPrefix(), DataPrefix();
    assert |e| == 7 && |d| == 6 && e[0] == 0x65 && d[0] == 0x64;
    var lines := [EventLine(name), DataLine(data)];
    assert lines[0][..7] == e && lines[0][7..] == name && lines[0][0] == 0x65;
    assert !StartsWith(lines[0], d) by { assert lines[0][..6][0] == 0x65; }
    assert lines[1..] == [DataLine(data)];
    assert lines[1][..6] == d && lines[1][6..] == data;
  }

  /** What the parser sees in a printed frame. */
  lemma FrameRead(name: Text, data: Text)
    requires NEWLINE !in name && NEWLINE !in data
    ensures Framed(Frame(name, data))
    ensures SplitLines(Frame(name, data)) == [EventLine(name), DataLine(data)]
  {
    assert NEWLINE !in EventPrefix() && NEWLINE !in DataPrefix();
    hide EventPrefix, DataPrefix;
    assert EventLine(name) != [] && DataLine(data) != [] by { PrefixesDiffer(name, data); }
    assert TwoLines(Frame(name, data), EventLine(name), DataLine(data));
    LinesFound(Frame(name, data), EventLine(name), DataLine(data));
  }

  lemma NamesApart()
    ensures StdoutName() != StderrName() && StdoutName() != ExitName() && StderrName() != ExitName()
    ensures NEWLINE !in StdoutName() && NEWLINE !in StderrName() && NEWLINE !in ExitName()
  {
    assert StdoutName()[3] == 0x6F && StderrName()[3] == 0x65;
    assert |StdoutName()| == 6 && |StderrName()| == 6 && |ExitName()| == 4;
  }

  lemma OutputRead(other: Text -> JsonExit, c: Collected, t: Text)
    ensures TakeFrame(other, c, StdoutFrame(t)) == Some(c.(stdout := c.stdout + Encode(t)))
    ensures TakeFrame(other, c, StderrFrame(t)) == Some(c)
  {
    var b := Encode(t);
    NamesApart();
    Base64RoundTrip(b);
    hide EventPrefix, DataPrefix, StdoutName, StderrName, ExitName, Btoa, Atob, Frame, Framed, SplitLines, AfterPrefix,
      EventLine, DataLine, Encode;
    FrameRead(StdoutName(), Btoa(b));
    FrameRead(StderrName(), Btoa(b));
    PrefixesDiffer(StdoutName(), Btoa(b));
    PrefixesDiffer(StderrName(), Btoa(b));
  }

  lemma ExitRead(other: Text -> JsonExit, c: Collected, x: ExitCode)
    requires x.NotWhole? ==> other(ExitJson(x)) == NoCode
    ensures TakeFrame(other, c, ExitFrame(x))
            == Some(if x.Whole? && IsSafe(x.n) then c.(exit := Some(x.n)) else c)
  {
    NamesApart();
    ExitRoundTrip(other, x);
    hide EventPrefix, DataPrefix, StdoutName, StderrName, ExitName, ExitJson, ParseExit, Atob, Frame, Framed,
      SplitLines, AfterPrefix, EventLine, DataLine;
    FrameRead(ExitName(), ExitJson(x));
    PrefixesDiffer(ExitName(), ExitJson(x));
  }

  lemma EmptyFrame(other: Text -> JsonExit, c: Collected)
    ensures TakeFrame(other, c, []) == Some(c)
  {
    assert SplitLines([]) == [[]];
    assert |EventPrefix()| == 7;
    var lines: seq<Text> := [[]];
    assert lines[1..] == [];
  }

  /** At most one frame, with a known effect, before the others. */
  lemma TakePrefix(other: Text -> JsonExit, c: Collected, first: seq<Text>, rest: seq<Text>, d: Collected)
    requires |first| <= 1
    requires if first == [] then d == c else TakeFrame(other, c, first[0]) == Some(d)
    ensures TakeFrames(other, c, first + rest) == TakeFrames(other, d, rest)
  {
    hide TakeFrame;
    if first == [] {
      assert first + rest == rest;
    } else {
      assert (first + rest)[1..] == rest;
    }
  }

  /** The parts of a printed result are read one after the other. */
  lemma TakeParts(other: Text -> JsonExit, start: Collected, outs: seq<Text>, c: Collected, errs: seq<Text>, end: Text,
                  d: Collected)
    requires |outs| <= 1 && |errs| <= 1
    requires if outs == [] then c == start else TakeFrame(other, start, outs[0]) == Some(c)
    requires errs != [] ==> TakeFrame(other, c, errs[0]) == Some(c)
    requires TakeFrame(other, c, end) == Some(d)
    ensures TakeFrames(other, start, outs + errs + [end] + [[]]) == Some(d)
  {
    EmptyFrame(other, d);
    hide TakeFrame;
    var last: seq<Text> := [end, []];
    assert outs + errs + [end] + [[]] == outs + (errs + last);
    TakePrefix(other, start, outs, errs + last, c);
    TakePrefix(other, c, errs, last, c);
    assert last[1..] == [[]] && last[1..][1..] == [];
    assert TakeFrames(other, d, last[1..]) == Some(d);
  }

  lemma OutputFramed(t: Text)
    ensures Framed(StdoutFrame(t)) && Framed(StderrFrame(t))
  {
    NamesApart();
    Base64RoundTrip(Encode(t));
    hide EventPrefix, DataPrefix, StdoutName, StderrName, ExitName, Btoa, Frame, Framed, Encode;
    FrameRead(StdoutName(), Btoa(Encode(t)));
    FrameRead(StderrName(), Btoa(Encode(t)));
  }

  lemma ExitFramed(x: ExitCode)
    ensures Framed(ExitFrame(x))
  {
    NamesApart();
    ExitHasNoNewline(x);
    hide EventPrefix, DataPrefix, StdoutName, StderrName, ExitName, ExitJson, Frame, Framed;
    FrameRead(ExitName(), ExitJson(x));
  }

  lemma ExitHasNoNewline(x: ExitCode)
    ensures NEWLINE !in ExitJson(x)
  {
    if x.Whole? { IntegerRoundTrip(x.n); }
    HeadPlain();
    hide PrintInt, ExitHead, IsIntegerLiteral, LiteralValue;
  }

  /** The parser sees exactly the printed frames. */
  lemma AllFramed(r: ExecResult)
    ensures SplitBlank(Stream(Frames(r))) == Frames(r) + [[]]
  {
    OutputFramed(r.stdout);
    OutputFramed(r.stderr);
    ExitFramed(r.exitCode);
    hide StdoutFrame, StderrFrame, ExitFrame, Framed, SplitBlank, Stream;
    StreamSplits(Frames(r));
  }

  /** What the frames of a result add up to. */
  function Expected(r: ExecResult): Collected {
    Collected(Encode(r.stdout), if r.exitCode.Whole? && IsSafe(r.exitCode.n) then Some(r.exitCode.n) else None)
  }

  lemma FramesTaken(other: Text -> JsonExit, r: ExecResult)
    requires r.exitCode.NotWhole? ==> other(ExitJson(r.exitCode)) == NoCode
    ensures TakeFrames(other, Collected([], None), Frames(r) + [[]]) == Some(Expected(r))
  {
    var start, c := Collected([], None), Collected(Encode(r.stdout), None);
    OutputRead(other, start, r.stdout);
    OutputRead(other, c, r.stderr);
    ExitRead(other, c, r.exitCode);
    assert r.stdout == [] ==> Encode(r.stdout) == [];
    hide StdoutFrame, StderrFrame, ExitFrame, ExitJson, Encode, TakeFrame, TakeFrames, IsSafe;
    assert start.stdout + Encode(r.stdout) == c.stdout;
    var outs := if r.stdout != [] then [StdoutFrame(r.stdout)] else [];
    var errs := if r.stderr != [] then [StderrFrame(r.stderr)] else [];
    TakeParts(other, start, outs, c, errs, ExitFrame(r.exitCode), Expected(r));
  }

  /** Exec stream round trip, for every result: parsing what was printed gives the exit code and exactly the
      UTF-8 bytes of stdout, whatever stderr is; an exit code that is no safe integer is reported missing. */
  lemma ExecRoundTrip(other: Text -> JsonExit, r: ExecResult)
    requires r.exitCode.NotWhole? ==> other(ExitJson(r.exitCode)) == NoCode
    ensures ParseOf(other, Stream(Frames(r)))
            == if r.exitCode.Whole? && -9_007_199_254_740_991 <= r.exitCode.n <= 9_007_199_254_740_991
               then Parsed(r.exitCode.n, Encode(r.stdout)) else TerminalMissing
  {
    AllFramed(r);
    FramesTaken(other, r);
    hide Frames, Stream, SplitBlank, TakeFrames, Encode, ExitJson;
  }

  /** For ASCII output the very same string comes back. */
  lemma AsciiRoundTrip(other: Text -> JsonExit, r: ExecResult)
    requires IsAscii(r.stdout) && r.exitCode.Whole? && IsSafe(r.exitCode.n)
    ensures ParseOf(other, Stream(Frames(r))) == Parsed(r.exitCode.n, r.stdout)
  {
    ExecRoundTrip(other, r);
    EncodeAscii(r.stdout);
  }

  // ---- Reading one output by its name ----

  /** The bytes a frame carries for the output `name`; `None` when decoding throws. */
  function BytesFor(frame: Text, name: Text): Option<seq<Byte>> {
    var lines := SplitLines(frame);
    var event, data := AfterPrefix(lines, Ascii("event: ")), AfterPrefix(lines, Ascii("data: "));
    if event == Some(name) && data.Some? then Atob(data.value) else Some([])
  }

  /** All bytes for the output `name`, over all frames. */
  function OutputOf(frames: seq<Text>, name: Text): Option<seq<Byte>> {
    if frames == [] then Some([])
    else
      var first, rest := BytesFor(frames[0], name), OutputOf(frames[1..], name);
      if first.None? || rest.None? then None else Some(first.value + rest.value)
  }

  lemma FrameGives(frameName: Text, data: Text, name: Text)
    requires NEWLINE !in frameName && NEWLINE !in data
    ensures BytesFor(Frame(frameName, data), name) == if frameName == name then Atob(data) else Some([])
  {
    FrameRead(frameName, data);
    PrefixesDiffer(frameName, data);
    hide Frame, Framed, SplitLines, AfterPrefix, EventLine, DataLine, Atob;
  }

  lemma OutputAppends(a: seq<Text>, frame: Text, name: Text)
    requires OutputOf(a, name).Some? && BytesFor(frame, name).Some?
    ensures OutputOf(a + [frame], name) == Some(OutputOf(a, name).value + BytesFor(frame, name).value)
    decreases |a|
  {
    hide BytesFor;
    if a == [] {
      assert a + [frame] == [frame] && [frame][1..] == [];
      var more := BytesFor(frame, name).value;
      assert OutputOf([frame], name) == Some(more + OutputOf([], name).value);
      assert more + [] == more == [] + more;
    } else {
      assert (a + [frame])[1..] == a[1..] + [frame];
      OutputAppends(a[1..], frame, name);
      var first, rest, more := BytesFor(a[0], name).value, OutputOf(a[1..], name).value, BytesFor(frame, name).value;
      assert first + (rest + more) == first + rest + more;
    }
  }

  lemma FramesGive(r: ExecResult)
    ensures BytesFor(StdoutFrame(r.stdout), Ascii("stdout")) == Some(Encode(r.stdout))
    ensures BytesFor(StdoutFrame(r.stdout), Ascii("stderr")) == Some([])
    ensures BytesFor(StderrFrame(r.stderr), Ascii("stderr")) == Some(Encode(r.stderr))
    ensures BytesFor(StderrFrame(r.stderr), Ascii("stdout")) == Some([])
    ensures BytesFor(ExitFrame(r.exitCode), Ascii("stdout")) == Some([])
    ensures BytesFor(ExitFrame(r.exitCode), Ascii("stderr")) == Some([])
  {
    NamesApart();
    ExitHasNoNewline(r.exitCode);
    Base64RoundTrip(Encode(r.stdout));
    Base64RoundTrip(Encode(r.stderr));
    hide Btoa, Atob, Encode, BytesFor, Frame, ExitJson, Ascii;
    FrameGives(StdoutName(), Btoa(Encode(r.stdout)), Ascii("stdout"));
    FrameGives(StdoutName(), Btoa(Encode(r.stdout)), Ascii("stderr"));
    FrameGives(StderrName(), Btoa(Encode(r.stderr)), Ascii("stdout"));
    FrameGives(StderrName(), Btoa(Encode(r.stderr)), Ascii("stderr"));
    FrameGives(ExitName(), ExitJson(r.exitCode), Ascii("stdout"));
    FrameGives(ExitName(), ExitJson(r.exitCode), Ascii("stderr"));
  }

  lemma EmptyGives(name: Text)
    requires name != []
    ensures BytesFor([], name) == Some([])
  {
    assert SplitLines([]) == [[]];
    assert |Ascii("event: ")| == 7;
    var lines: seq<Text> := [[]];
    assert lines[1..] == [];
  }

  /** The output read by its name from a stream in which it has at most one frame. */
  lemma PartsGive(name: Text, outs: seq<Text>, o: seq<Byte>, errs: seq<Text>, e: seq<Byte>, end: Text)
    requires |outs| <= 1 && |errs| <= 1 && name != []
    requires if outs == [] then o == [] else BytesFor(outs[0], name) == Some(o)
    requires if errs == [] then e == [] else BytesFor(errs[0], name) == Some(e)
    requires BytesFor(end, name) == Some([])
    ensures OutputOf(outs + errs + [end] + [[]], name) == Some(o + e)
  {
    EmptyGives(name);
    hide BytesFor;
    assert OutputOf([], name) == Some([]);
    if outs != [] {
      OutputAppends([], outs[0], name);
      assert [] + [outs[0]] == outs && [] + o == o;
    }
    assert OutputOf(outs, name) == Some(o);
    if errs != [] {
      OutputAppends(outs, errs[0], name);
      assert errs == [errs[0]];
    } else {
      assert outs + errs == outs && o + e == o;
    }
    OutputAppends(outs + errs, end, name);
    OutputAppends(outs + errs + [end], [], name);
    assert o + e + [] + [] == o + e;
  }

  /** Both outputs are on the wire under their own names: whoever reads them by name gets their UTF-8 bytes. */
  lemma BothOutputsCarried(r: ExecResult)
    ensures OutputOf(SplitBlank(Stream(Frames(r))), Ascii("stdout")) == Some(Encode(r.stdout))
    ensures OutputOf(SplitBlank(Stream(Frames(r))), Ascii("stderr")) == Some(Encode(r.stderr))
  {
    AllFramed(r);
    FramesGive(r);
    assert |Ascii("stdout")| == 6 && |Ascii("stderr")| == 6;
    assert r.stdout == [] ==> Encode(r.stdout) == [];
    assert r.stderr == [] ==> Encode(r.stderr) == [];
    hide Stream, SplitBlank, StdoutFrame, StderrFrame, ExitFrame, BytesFor, Encode, Ascii, OutputOf;
    var outs := if r.stdout != [] then [StdoutFrame(r.stdout)] else [];
    var errs := if r.stderr != [] then [StderrFrame(r.stderr)] else [];
    PartsGive(Ascii("stdout"), outs, Encode(r.stdout), errs, [], ExitFrame(r.exitCode));
    PartsGive(Ascii("stderr"), outs, [], errs, Encode(r.stderr), ExitFrame(r.exitCode));
    assert Encode(r.stdout) + [] == Encode(r.stdout) && [] + Encode(r.stderr) == Encode(r.stderr);
  }
}
