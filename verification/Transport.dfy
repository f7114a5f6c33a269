/** The callback transport: newline-delimited JSON events drive tool calls and their results. */
module Transport {
  import opened Options
  import opened Strings

  const MAX_STREAM_BYTES := 2 * 1_048_576
  const MAX_LINE_BYTES := 1_048_576
  const MAX_REPLY_BYTES := 65_536

  // ---- JSON and the runtime ----

  /** A number is a safe integer or any other number. */
  datatype Json =
    | JNull
    | JBool(flag: bool)
    | JInt(n: int)
    | JOther
    | JString(text: Text)
    | JArray(items: seq<Json>)
    | JObject(fields: map<Text, Json>)

  /** JSON.parse, and String() of a value that is neither a string nor absent; both may throw. */
  datatype Runtime = Runtime(parse: Text -> Option<Json>, toText: Json -> Option<Text>)

  /** A property of a parsed value; only objects have the properties the protocol asks for. */
  function Field(v: Json, name: string): Option<Json> {
    if v.JObject? && Ascii(name) in v.fields then Some(v.fields[Ascii(name)]) else None
  }

  predicate IsText(v: Option<Json>, text: Text) { v.Some? && v.value.JString? && v.value.text == text }

  predicate IsObject(v: Option<Json>) { v.Some? && (v.value.JObject? || v.value.JArray?) }

  predicate SafeCount(v: Option<Json>) { v.Some? && v.value.JInt? && 0 <= v.value.n <= MAX_SAFE_INTEGER }

  predicate IsOpaqueIdUnit(u: int) {
    IsUpper(u) || IsLower(u) || IsDigit(u) || u == 0x2E || u == 0x5F || u == 0x3A || u == 0x2D
  }

  predicate ValidId(s: Text) {
    1 <= |s| <= 200 && (forall i :: 0 <= i < |s| ==> IsOpaqueIdUnit(s[i])) && s != [0x2E] && s != [0x2E, 0x2E]
  }

  predicate Blank(s: Text) { forall i :: 0 <= i < |s| ==> IsSpace(s[i]) }

  // ---- Events ----

  datatype ToolCall = ToolCall(callId: Text, name: Text, input: Json)

  datatype Final = Final(rawAnswer: Text, inputTokens: nat, outputTokens: nat, steps: nat)

  datatype Event = Heartbeat | RemoteAccepted | ProposalInvalid | Calls(call: ToolCall) | Finishes(final: Final)

  datatype Code =
    | StreamTooLarge | LineTooLarge | EventInvalid | RunMismatch | ToolCallInvalid | FinalInvalid
    | OrderInvalid | TerminalMissing | OutputInvalid | ResultInvalid | ResultRejected(status: int)

  datatype Phase = StreamRead | ApplicationCallback | CallbackResult

  /** A coded transport error, an error of the runtime named after the phase, or the application's own error. */
  datatype Failure = Coded(code: Code) | RuntimeError(phase: Phase) | ApplicationError

  datatype Parsed = Parsed(event: Event) | Malformed(code: Code) | ParseThrew

  /** String(value ?? ""). */
  function IdText(rt: Runtime, v: Option<Json>): Option<Text> {
    if v.None? || v.value.JNull? then Some([]) else if v.value.JString? then Some(v.value.text) else rt.toText(v.value)
  }

  function ParseCall(rt: Runtime, call: Option<Json>): Parsed {
    if !IsObject(call) then Malformed(ToolCallInvalid)
    else
      var id := IdText(rt, Field(call.value, "call_id"));
      if id.None? then ParseThrew
      else if !ValidId(id.value) then Malformed(ToolCallInvalid)
      else
        var name := IdText(rt, Field(call.value, "name"));
        var input := Field(call.value, "input");
        if name.None? then ParseThrew
        else if !ValidId(name.value) || input.None? then Malformed(ToolCallInvalid)
        else Parsed(Calls(ToolCall(id.value, name.value, input.value)))
  }

  function ParseFinal(event: Json): Parsed {
    var raw, usage := Field(event, "raw_answer"), Field(event, "usage");
    if raw.None? || !raw.value.JString? || !IsObject(usage) then Malformed(FinalInvalid)
    else
      var a, b, c := Field(usage.value, "input_tokens"), Field(usage.value, "output_tokens"),
        Field(usage.value, "steps");
      if !SafeCount(a) || !SafeCount(b) || !SafeCount(c) then Malformed(FinalInvalid)
      else Parsed(Finishes(Final(raw.value.text, a.value.n, b.value.n, c.value.n)))
  }

  function ParseEvent(rt: Runtime, line: Text, runId: Text): Parsed {
    var value := rt.parse(line);
    if value.None? || !IsObject(value) then Malformed(EventInvalid)
    else
      var v := value.value;
      var kind := Field(v, "type");
      if !IsText(Field(v, "run_id"), runId) then Malformed(RunMismatch)
      else if IsText(kind, Ascii("remote_accepted")) then Parsed(RemoteAccepted)
      else if IsText(kind, Ascii("heartbeat")) then Parsed(Heartbeat)
      else if IsText(kind, Ascii("error")) then
        if IsText(Field(v, "code"), Ascii("AIPHABEE_TOOL_PROPOSAL_INVALID")) then Parsed(ProposalInvalid)
        else Malformed(EventInvalid)
      else if IsText(kind, Ascii("tool_call")) then ParseCall(rt, Field(v, "call"))
      else if IsText(kind, Ascii("final")) then ParseFinal(v)
      else Malformed(EventInvalid)
  }

  // ---- Effects and the outside ----

  datatype Effect = Progress | Execute(executed: ToolCall) | Post(posted: ToolCall, output: Json, attempt: nat)

  datatype ToolOutcome = ToolReturned(output: Json) | ToolUnserializable | ToolThrew

  /** One POST of a result: a TypeError, any other throw, or an answer. */
  datatype PostOutcome = NetworkError(aborted: bool) | OtherThrow | Refused(status: int) | Answered(body: Text)

  /** The application and the service, each deciding from everything that happened before. */
  datatype Outside = Outside(
    progressThrows: seq<Effect> -> bool,
    tool: seq<Effect> -> ToolOutcome,
    post: seq<Effect> -> PostOutcome)

  datatype Context = Context(rt: Runtime, runId: Text, outside: Outside)

  // ---- Posting a result ----

  predicate ReplyAccepted(x: Context, body: Text, callId: Text, attempt: nat) {
    && |Encode(body)| <= MAX_REPLY_BYTES
    && var v := x.rt.parse(body);
    && v.Some?
    && IsText(Field(v.value, "status"), Ascii("accepted"))
    && IsText(Field(v.value, "run_id"), x.runId)
    && IsText(Field(v.value, "call_id"), callId)
    && var replayed := Field(v.value, "replayed");
    && (replayed == Some(JBool(false)) || (attempt != 0 && replayed == Some(JBool(true))))
  }

  /** How one attempt ends: `None` is success; the flag asks for another attempt. */
  function AttemptEnd(x: Context, call: ToolCall, attempt: nat, reply: PostOutcome): (Option<Failure>, bool) {
    match reply
    case NetworkError(aborted) => (Some(RuntimeError(CallbackResult)), attempt == 0 && !aborted)
    case OtherThrow => (Some(RuntimeError(CallbackResult)), false)
    case Refused(status) => (Some(Coded(ResultRejected(status))), false)
    case Answered(body) =>
      (if ReplyAccepted(x, body, call.callId, attempt) then None else Some(Coded(ResultInvalid)), false)
  }

  function Posting(x: Context, log: seq<Effect>, call: ToolCall, output: Json): (seq<Effect>, Option<Failure>) {
    var log1 := log + [Post(call, output, 0)];
    var first := AttemptEnd(x, call, 0, x.outside.post(log1));
    if !first.1 then (log1, first.0)
    else var log2 := log1 + [Post(call, output, 1)];
         (log2, AttemptEnd(x, call, 1, x.outside.post(log2)).0)
  }

  method PostToolResult(x: Context, log: seq<Effect>, call: ToolCall, output: Json)
    returns (after: seq<Effect>, failure: Option<Failure>)
    ensures (after, failure) == Posting(x, log, call, output)
  {
    after := log;
    failure := None;
    var attempt := 0;
    while attempt < 2
      invariant 0 <= attempt <= 2
      invariant attempt == 0 ==> after == log && failure.None?
      invariant attempt == 1 ==> after == log + [Post(call, output, 0)]
                                 && AttemptEnd(x, call, 0, x.outside.post(after)) == (failure, true)
      invariant attempt == 2 ==> (after, failure) == Posting(x, log, call, output)
    {
      after := after + [Post(call, output, attempt)];
      var (end, again) := AttemptEnd(x, call, attempt, x.outside.post(after));
      failure := end;
      if !again { return; }
      attempt := attempt + 1;
    }
  }

  /** A result counts as delivered exactly when one of at most two posts was accepted, the second made
      only after a network error, and only the second may answer that it is a replay. */
  lemma PostingExact(x: Context, log: seq<Effect>, call: ToolCall, output: Json)
    ensures var (after, failure) := Posting(x, log, call, output);
            var log1 := log + [Post(call, output, 0)];
            var log2 := log1 + [Post(call, output, 1)];
            var first, second := x.outside.post(log1), x.outside.post(log2);
            && after == (if first == NetworkError(false) then log2 else log1)
            && (failure.None? <==>
                  || (first.Answered? && ReplyAccepted(x, first.body, call.callId, 0))
                  || (first == NetworkError(false) && second.Answered?
                      && ReplyAccepted(x, second.body, call.callId, 1)))
  {
  }

  // ---- One line ----

  datatype State = State(accepted: bool, seen: set<Text>, final: Option<Final>, phase: Phase, log: seq<Effect>)

  const FRESH := State(false, {}, None, StreamRead, [])

  function OnAccepted(x: Context, s: State): (State, Option<Failure>) {
    if s.accepted || s.seen != {} || s.final.Some? then (s, Some(Coded(OrderInvalid)))
    else
      var t := s.(accepted := true, phase := ApplicationCallback, log := s.log + [Progress]);
      (t, if x.outside.progressThrows(t.log) then Some(ApplicationError) else None)
  }

  function OnCall(x: Context, s: State, call: ToolCall): (State, Option<Failure>) {
    if !s.accepted || s.final.Some? || call.callId in s.seen then (s, Some(Coded(OrderInvalid)))
    else
      var t := s.(seen := s.seen + {call.callId}, phase := ApplicationCallback, log := s.log + [Execute(call)]);
      match x.outside.tool(t.log)
      case ToolThrew => (t, Some(ApplicationError))
      case ToolUnserializable => (t.(phase := CallbackResult), Some(Coded(OutputInvalid)))
      case ToolReturned(output) =>
        var (log, failure) := Posting(x, t.log, call, output);
        (t.(log := log, phase := if failure.None? then StreamRead else CallbackResult), failure)
  }

  function OnFinal(s: State, final: Final): (State, Option<Failure>) {
    if !s.accepted || s.final.Some? || final.steps != |s.seen| then (s, Some(Coded(FinalInvalid)))
    else (s.(final := Some(final)), None)
  }

  function OnEvent(x: Context, s: State, e: Event): (State, Option<Failure>) {
    match e
    case RemoteAccepted => OnAccepted(x, s)
    case Heartbeat => (s, if !s.accepted || s.final.Some? then Some(Coded(OrderInvalid)) else None)
    case ProposalInvalid => (s, Some(Coded(ToolCallInvalid)))
    case Calls(call) => OnCall(x, s, call)
    case Finishes(final) => OnFinal(s, final)
  }

  function OnLine(x: Context, s: State, line: Text): (State, Option<Failure>) {
    if |Encode(line)| > MAX_LINE_BYTES then (s, Some(Coded(LineTooLarge)))
    else if Blank(line) then (s, None)
    else
      match ParseEvent(x.rt, line, x.runId)
      case Malformed(code) => (s, Some(Coded(code)))
      case ParseThrew => (s, Some(RuntimeError(s.phase)))
      case Parsed(event) => OnEvent(x, s, event)
  }

  /** The lines in order, until one fails. */
  function Fold(x: Context, s: State, lines: seq<Text>): (State, Option<Failure>)
    decreases |lines|
  {
    if lines == [] then (s, None)
    else var (t, failure) := OnLine(x, s, lines[0]);
         if failure.Some? then (t, failure) else Fold(x, t, lines[1..])
  }

  // ---- Splitting at newlines ----

  /** The newline-terminated lines of a text, without their newlines. */
  function Lines(t: Text): seq<Text>
    decreases |t|
  {
    var n := NewlineAt(t);
    if n == |t| then [] else [t[..n]] + Lines(t[n + 1..])
  }

  /** What follows the last newline. */
  function Rest(t: Text): (r: Text)
    ensures NEWLINE !in r
    decreases |t|
  {
    var n := NewlineAt(t);
    if n == |t| then t else Rest(t[n + 1..])
  }

  /** A text's first line does not depend on what is appended. */
  lemma FirstLine(a: Text, b: Text)
    ensures var n := NewlineAt(a);
            if n == |a| then Lines(a) == [] && Rest(a) == a
            else && Lines(a) == [a[..n]] + Lines(a[n + 1..]) && Rest(a) == Rest(a[n + 1..])
                 && Lines(a + b) == [a[..n]] + Lines(a[n + 1..] + b) && Rest(a + b) == Rest(a[n + 1..] + b)
  {
    var n := NewlineAt(a);
    if n < |a| {
      assert (a + b)[..n] == a[..n] && (a + b)[n] == a[n] && (a + b)[n + 1..] == a[n + 1..] + b;
      NewlineUnique(a + b, n);
    }
  }

  /** Splitting may stop anywhere and go on from the remainder. */
  lemma {:induction false} SplitResumes(a: Text, b: Text)
    ensures Lines(a + b) == Lines(a) + Lines(Rest(a) + b)
    ensures Rest(a + b) == Rest(Rest(a) + b)
    decreases |a|
  {
    FirstLine(a, b);
    hide Lines, Rest;
    var n := NewlineAt(a);
    if n < |a| {
      SplitResumes(a[n + 1..], b);
    }
  }

  lemma {:induction false} FoldResumes(x: Context, s: State, a: seq<Text>, b: seq<Text>)
    ensures var (t, failure) := Fold(x, s, a);
            Fold(x, s, a + b) == if failure.Some? then (t, failure) else Fold(x, t, b)
    decreases |a|
  {
    hide OnLine;
    if a == [] {
      assert a + b == b;
    } else {
      assert (a + b)[0] == a[0] && (a + b)[1..] == a[1..] + b;
      FoldResumes(x, OnLine(x, s, a[0]).0, a[1..], b);
    }
  }

  // ---- The whole stream ----

  /** A decoded chunk and its length on the wire. */
  datatype Chunk = Chunk(byteLength: nat, text: Text)

  /** How reading ends: with the decoder's last output, or by a throw. */
  datatype StreamEnd = StreamDone(flush: Text) | StreamBroken

  datatype Outcome = Answer(final: Final) | Failed(failure: Failure)

  /** What the run makes of a text once reading is over. */
  datatype Ending = Complete | Broken | Excess

  function TotalBytes(chunks: seq<Chunk>): nat {
    if chunks == [] then 0 else chunks[0].byteLength + TotalBytes(chunks[1..])
  }

  function TextOf(chunks: seq<Chunk>): Text {
    if chunks == [] then [] else TextOf(chunks[..|chunks| - 1]) + chunks[|chunks| - 1].text
  }

  /** The reference: split the whole text at newlines, fold the lines, then look at the ending. */
  function Whole(x: Context, text: Text, ending: Ending): (State, Outcome) {
    var (s, failure) := Fold(x, FRESH, Lines(text));
    (s,
     if failure.Some? then Failed(failure.value)
     else if ending.Excess? then Failed(Coded(StreamTooLarge))
     else if ending.Broken? then Failed(RuntimeError(s.phase))
     else if !Blank(Rest(text)) || s.final.None? then Failed(Coded(TerminalMissing))
     else Answer(s.final.value))
  }

  /** The buffer loop: complete lines are taken off the front and handled. */
  method HandleLines(x: Context, s: State, buffer: Text) returns (t: State, failure: Option<Failure>, rest: Text)
    ensures (t, failure) == Fold(x, s, Lines(buffer))
    ensures failure.None? ==> rest == Rest(buffer)
  {
    hide OnLine;
    t, failure, rest := s, None, buffer;
    var newline := NewlineAt(rest);
    while newline < |rest|
      invariant newline == NewlineAt(rest)
      invariant failure.None? && Fold(x, t, Lines(rest)) == Fold(x, s, Lines(buffer)) && Rest(rest) == Rest(buffer)
      decreases |rest|
    {
      var line := rest[..newline];
      assert Lines(rest) == [line] + Lines(rest[newline + 1..]);
      rest := rest[newline + 1..];
      var (u, f) := OnLine(x, t, line);
      assert ([line] + Lines(rest))[1..] == Lines(rest);
      t, failure := u, f;
      if failure.Some? { return; }
      newline := NewlineAt(rest);
    }
    assert Lines(rest) == [];
  }

  /** How many chunks are taken, starting at `n`, before the limit is exceeded. */
  function FitFrom(chunks: seq<Chunk>, n: nat): (k: nat)
    requires n <= |chunks|
    ensures n <= k <= |chunks|
    decreases |chunks| - n
  {
    if n == |chunks| || TotalBytes(chunks[..n + 1]) > MAX_STREAM_BYTES then n else FitFrom(chunks, n + 1)
  }

  /** The outcome as a function of the text that fits and of how reading ended. */
  function StreamOutcome(x: Context, chunks: seq<Chunk>, end: StreamEnd): (State, Outcome) {
    var k := FitFrom(chunks, 0);
    if k < |chunks| then Whole(x, TextOf(chunks[..k]), Excess)
    else if end.StreamDone? then Whole(x, TextOf(chunks) + end.flush, Complete)
    else Whole(x, TextOf(chunks), Broken)
  }

  /** The read loop: incremental splitting gives what splitting the whole text gives. */
  method RunStream(x: Context, chunks: seq<Chunk>, end: StreamEnd) returns (s: State, outcome: Outcome)
    ensures (s, outcome) == StreamOutcome(x, chunks, end)
  {
    hide OnLine, Blank;
    var totalBytes, buffer := 0, [];
    s := FRESH;
    var n := 0;
    while n < |chunks|
      invariant 0 <= n <= |chunks| && totalBytes == TotalBytes(chunks[..n]) <= MAX_STREAM_BYTES
      invariant FitFrom(chunks, 0) == FitFrom(chunks, n)
      invariant Fold(x, FRESH, Lines(TextOf(chunks[..n]))) == (s, None) && buffer == Rest(TextOf(chunks[..n]))
    {
      TotalGrows(chunks, n);
      totalBytes := totalBytes + chunks[n].byteLength;
      if totalBytes > MAX_STREAM_BYTES { return s, Failed(Coded(StreamTooLarge)); }
      ChunkAppends(x, chunks, n);
      var t, failure, rest := HandleLines(x, s, buffer + chunks[n].text);
      if failure.Some? {
        FailureStays(x, chunks, n + 1, end, t, failure.value);
        return t, Failed(failure.value);
      }
      s, buffer := t, rest;
      n := n + 1;
    }
    assert chunks[..n] == chunks;
    if end.StreamBroken? { return s, Failed(RuntimeError(s.phase)); }
    TextAppends(x, TextOf(chunks), end.flush);
    var t, failure, rest := HandleLines(x, s, buffer + end.flush);
    if failure.Some? { return t, Failed(failure.value); }
    if !Blank(rest) || t.final.None? { return t, Failed(Coded(TerminalMissing)); }
    return t, Answer(t.final.value);
  }

  /** More text is handled from the state and the remainder reached. */
  lemma TextAppends(x: Context, text: Text, more: Text)
    ensures var (s, failure) := Fold(x, FRESH, Lines(text));
            && Rest(text + more) == Rest(Rest(text) + more)
            && Fold(x, FRESH, Lines(text + more))
               == if failure.Some? then (s, failure) else Fold(x, s, Lines(Rest(text) + more))
  {
    SplitResumes(text, more);
    FoldResumes(x, FRESH, Lines(text), Lines(Rest(text) + more));
  }

  lemma ChunkAppends(x: Context, chunks: seq<Chunk>, n: nat)
    requires n < |chunks|
    ensures TextOf(chunks[..n + 1]) == TextOf(chunks[..n]) + chunks[n].text
    ensures var (s, failure) := Fold(x, FRESH, Lines(TextOf(chunks[..n])));
            && Rest(TextOf(chunks[..n + 1])) == Rest(Rest(TextOf(chunks[..n])) + chunks[n].text)
            && Fold(x, FRESH, Lines(TextOf(chunks[..n + 1])))
               == if failure.Some? then (s, failure) else Fold(x, s, Lines(Rest(TextOf(chunks[..n])) + chunks[n].text))
  {
    assert chunks[..n + 1][..n] == chunks[..n];
    TextAppends(x, TextOf(chunks[..n]), chunks[n].text);
  }

  /** What follows a failure changes nothing. */
  lemma {:induction false} FailureStays(x: Context, chunks: seq<Chunk>, n: nat, end: StreamEnd, s: State, f: Failure)
    requires n <= |chunks| && n <= FitFrom(chunks, 0)
    requires Fold(x, FRESH, Lines(TextOf(chunks[..n]))) == (s, Some(f))
    ensures StreamOutcome(x, chunks, end) == (s, Failed(f))
    decreases |chunks| - n
  {
    hide Fold, Lines, Rest, Blank, FitFrom;
    var k := FitFrom(chunks, 0);
    if n < k {
      ChunkAppends(x, chunks, n);
      FailureStays(x, chunks, n + 1, end, s, f);
    } else if k == |chunks| {
      assert chunks[..n] == chunks;
      if end.StreamDone? { TextAppends(x, TextOf(chunks), end.flush); }
    }
  }

  lemma {:induction false} FitsAll(chunks: seq<Chunk>, n: nat)
    requires n <= |chunks| && TotalBytes(chunks) <= MAX_STREAM_BYTES
    ensures FitFrom(chunks, n) == |chunks|
    decreases |chunks| - n
  {
    if n < |chunks| {
      TotalGrows(chunks, n);
      FitsAll(chunks, n + 1);
    }
  }

  /** Chunk independence: within the limit, callbacks made, results posted and the outcome depend only on
      the text, however it was cut. */
  lemma ChunkIndependence(x: Context, a: seq<Chunk>, flushA: Text, b: seq<Chunk>, flushB: Text)
    requires TotalBytes(a) <= MAX_STREAM_BYTES && TotalBytes(b) <= MAX_STREAM_BYTES
    requires TextOf(a) + flushA == TextOf(b) + flushB
    ensures StreamOutcome(x, a, StreamDone(flushA)) == StreamOutcome(x, b, StreamDone(flushB))
    ensures StreamOutcome(x, a, StreamDone(flushA)) == Whole(x, TextOf(a) + flushA, Complete)
  {
    FitsAll(a, 0);
    FitsAll(b, 0);
    hide Whole;
  }

  lemma {:induction false} TotalGrows(chunks: seq<Chunk>, n: nat)
    requires n < |chunks|
    ensures TotalBytes(chunks[..n + 1]) == TotalBytes(chunks[..n]) + chunks[n].byteLength
    ensures TotalBytes(chunks[..n + 1]) <= TotalBytes(chunks)
  {
    if n == 0 {
      assert chunks[..1][1..] == [];
    } else {
      TotalGrows(chunks[1..], n - 1);
      assert chunks[1..][..n - 1] == chunks[..n][1..] && chunks[1..][..n] == chunks[..n + 1][1..];
    }
  }

  // ---- The language the run accepts ----

  /** The events of the non-blank lines, if every line is short enough and parses. */
  function EventsOf(x: Context, lines: seq<Text>): Option<seq<Event>>
    decreases |lines|
  {
    if lines == [] then Some([])
    else if |Encode(lines[0])| > MAX_LINE_BYTES then None
    else
      var rest := EventsOf(x, lines[1..]);
      if Blank(lines[0]) then rest
      else
        var parsed := ParseEvent(x.rt, lines[0], x.runId);
        if parsed.Parsed? && rest.Some? then Some([parsed.event] + rest.value) else None
  }

  function FoldEvents(x: Context, s: State, events: seq<Event>): (State, Option<Failure>)
    decreases |events|
  {
    if events == [] then (s, None)
    else var (t, failure) := OnEvent(x, s, events[0]);
         if failure.Some? then (t, failure) else FoldEvents(x, t, events[1..])
  }

  lemma {:induction false} FoldIsFoldEvents(x: Context, s: State, lines: seq<Text>)
    ensures EventsOf(x, lines).Some? ==> Fold(x, s, lines) == FoldEvents(x, s, EventsOf(x, lines).value)
    ensures EventsOf(x, lines).None? ==> Fold(x, s, lines).1.Some?
    decreases |lines|
  {
    hide OnEvent, ParseEvent, Blank, Encode;
    if lines != [] {
      var t := OnLine(x, s, lines[0]).0;
      FoldIsFoldEvents(x, t, lines[1..]);
      var rest := EventsOf(x, lines[1..]);
      var parsed := ParseEvent(x.rt, lines[0], x.runId);
      if parsed.Parsed? && rest.Some? {
        assert ([parsed.event] + rest.value)[1..] == rest.value;
      }
    }
  }

  function CallsOf(events: seq<Event>): seq<ToolCall> {
    if events == [] then []
    else (if events[0].Calls? then [events[0].call] else []) + CallsOf(events[1..])
  }

  /** No call id occurs twice, and none is in `used`. */
  ghost predicate FreshCalls(events: seq<Event>, used: set<Text>) {
    && (forall i :: 0 <= i < |events| && events[i].Calls? ==> events[i].call.callId !in used)
    && (forall i, j :: 0 <= i < j < |events| && events[i].Calls? && events[j].Calls? ==>
          events[i].call.callId != events[j].call.callId)
  }

  /** Heartbeats and tool calls, then one final that counts the calls. */
  ghost predicate Ends(events: seq<Event>, used: set<Text>, final: Final) {
    && events != [] && events[|events| - 1] == Finishes(final)
    && (forall i :: 0 <= i < |events| - 1 ==> events[i].Heartbeat? || events[i].Calls?)
    && FreshCalls(events, used)
    && final.steps == |used| + |CallsOf(events)|
  }

  /** One acceptance, then heartbeats and tool calls with distinct ids, then one final, then nothing. */
  ghost predicate InLanguage(events: seq<Event>, final: Final) {
    events != [] && events[0].RemoteAccepted? && Ends(events[1..], {}, final)
  }

  /** The application and the service do their part, for every call the parser can yield. */
  ghost predicate Obliging(x: Context) {
    && (forall log :: !x.outside.progressThrows(log))
    && (forall log :: x.outside.tool(log).ToolReturned?)
    && (forall log, call: ToolCall, output :: ValidId(call.callId) ==> Posting(x, log, call, output).1.None?)
  }

  /** Failures that only the application or the service can cause. */
  predicate FromOutside(f: Failure) {
    || f.ApplicationError?
    || (f.RuntimeError? && f.phase.CallbackResult?)
    || (f.Coded? && (f.code.OutputInvalid? || f.code.ResultInvalid? || f.code.ResultRejected?))
  }

  predicate ValidCalls(events: seq<Event>) {
    forall i :: 0 <= i < |events| && events[i].Calls? ==> ValidId(events[i].call.callId)
  }

  /** The parser yields only calls with valid ids. */
  lemma {:induction false} ParsedCallsValid(x: Context, lines: seq<Text>)
    ensures EventsOf(x, lines).Some? ==> ValidCalls(EventsOf(x, lines).value)
    decreases |lines|
  {
    hide ValidId, Blank, Encode;
    if lines != [] { ParsedCallsValid(x, lines[1..]); }
  }

  lemma {:induction false} EndsStep(events: seq<Event>, used: set<Text>, final: Final)
    requires events != []
    ensures Ends(events, used, final) <==>
              match events[0]
              case Heartbeat => Ends(events[1..], used, final)
              case Calls(call) => call.callId !in used && Ends(events[1..], used + {call.callId}, final)
              case Finishes(g) => events[1..] == [] && g == final && final.steps == |used|
              case _ => false
  {
    var rest := events[1..];
    assert forall i :: 0 <= i < |rest| ==> rest[i] == events[i + 1];
    assert events == [events[0]] + rest;
    match events[0] {
      case Finishes(g) =>
        if rest == [] { assert CallsOf(events) == []; }
      case Calls(call) =>
        assert forall i :: 0 < i < |events| ==> events[i] == rest[i - 1];
        assert |CallsOf(events)| == 1 + |CallsOf(rest)|;
        assert call.callId !in used ==> |used + {call.callId}| == |used| + 1;
      case Heartbeat =>
        assert forall i :: 0 < i < |events| ==> events[i] == rest[i - 1];
      case _ =>
    }
  }

  /** From an accepted run that has no final yet, only well-ended event lists reach a final, and they do
      unless the outside fails. */
  lemma {:induction false} FoldAccepts(x: Context, s: State, events: seq<Event>, final: Final)
    requires s.accepted && s.final.None?
    ensures var (t, failure) := FoldEvents(x, s, events);
            && (failure.None? && t.final == Some(final) ==> Ends(events, s.seen, final))
            && (Ends(events, s.seen, final) ==>
                  if failure.None? then t.final == Some(final) else FromOutside(failure.value))
    decreases |events|
  {
    if events != [] {
      EndsStep(events, s.seen, final);
      hide Ends;
      var (t, failure) := OnEvent(x, s, events[0]);
      match events[0] {
        case Finishes(g) =>
          if failure.None? { NothingAfterFinal(x, t, events[1..]); }
        case Heartbeat =>
          FoldAccepts(x, t, events[1..], final);
        case Calls(call) =>
          CallFailure(x, s, call);
          hide OnCall;
          if failure.None? { FoldAccepts(x, t, events[1..], final); }
        case _ =>
      }
    }
  }

  /** A call in order fails only through the outside. */
  lemma CallFailure(x: Context, s: State, call: ToolCall)
    ensures var (t, failure) := OnCall(x, s, call);
            if !s.accepted || s.final.Some? || call.callId in s.seen then failure == Some(Coded(OrderInvalid))
            else && t.accepted && t.final.None? && t.seen == s.seen + {call.callId}
                 && (failure.Some? ==> FromOutside(failure.value))
    ensures Obliging(x) && ValidId(call.callId) && OnCall(x, s, call).1.Some? ==>
              !FromOutside(OnCall(x, s, call).1.value)
  {
    hide ReplyAccepted, ValidId;
  }

  /** When both do their part, nothing fails through them. */
  lemma {:induction false} ObligingNeverFails(x: Context, s: State, events: seq<Event>)
    requires Obliging(x) && ValidCalls(events)
    ensures FoldEvents(x, s, events).1.Some? ==> !FromOutside(FoldEvents(x, s, events).1.value)
    decreases |events|
  {
    if events != [] {
      if events[0].Calls? { CallFailure(x, s, events[0].call); }
      hide Posting, OnCall, ValidId;
      assert !x.outside.progressThrows(s.log + [Progress]);
      ObligingNeverFails(x, OnEvent(x, s, events[0]).0, events[1..]);
    }
  }

  /** Every event after the final is an error. */
  lemma NothingAfterFinal(x: Context, s: State, events: seq<Event>)
    requires s.accepted && s.final.Some?
    ensures if events == [] then FoldEvents(x, s, events) == (s, None) else FoldEvents(x, s, events).1.Some?
  {
    hide Posting;
    if events != [] {
      assert OnEvent(x, s, events[0]).1.Some?;
    }
  }

  /** The lines form a whole run that ends with `final`, and only blanks follow them. */
  ghost predicate Conforms(x: Context, text: Text, final: Final) {
    && Blank(Rest(text))
    && EventsOf(x, Lines(text)).Some? && InLanguage(EventsOf(x, Lines(text)).value, final)
  }

  /** Whatever the application and the service do: a run answers only for conforming lines, with their final,
      and for conforming lines it answers unless one of the two fails. */
  lemma LanguageSound(x: Context, text: Text, final: Final)
    ensures var outcome := Whole(x, text, Complete).1;
            && (outcome == Answer(final) ==> Conforms(x, text, final))
            && (Conforms(x, text, final) ==>
                  outcome == Answer(final) || (outcome.Failed? && FromOutside(outcome.failure)))
  {
    FoldIsFoldEvents(x, FRESH, Lines(text));
    if EventsOf(x, Lines(text)).Some? {
      StartAccepts(x, EventsOf(x, Lines(text)).value, final);
    }
    hide Lines, Rest, Fold, FoldEvents, EventsOf, InLanguage, Blank, FromOutside;
  }

  /** With the application and the service doing their part, the run answers exactly for conforming lines,
      and it answers with the final's content. */
  lemma LanguageExact(x: Context, text: Text, final: Final)
    requires Obliging(x)
    ensures Whole(x, text, Complete).1 == Answer(final) <==> Conforms(x, text, final)
  {
    LanguageSound(x, text, final);
    FoldIsFoldEvents(x, FRESH, Lines(text));
    ParsedCallsValid(x, Lines(text));
    if EventsOf(x, Lines(text)).Some? {
      ObligingNeverFails(x, FRESH, EventsOf(x, Lines(text)).value);
    }
    hide Lines, Rest, Fold, FoldEvents, EventsOf, InLanguage, Blank, Obliging, ValidCalls;
  }

  lemma StartAccepts(x: Context, events: seq<Event>, final: Final)
    ensures var (t, failure) := FoldEvents(x, FRESH, events);
            && (failure.None? && t.final == Some(final) ==> InLanguage(events, final))
            && (InLanguage(events, final) ==>
                  if failure.None? then t.final == Some(final) else FromOutside(failure.value))
  {
    if events != [] {
      var (t, failure) := OnEvent(x, FRESH, events[0]);
      if events[0].RemoteAccepted? {
        FoldAccepts(x, t, events[1..], final);
      } else {
        assert failure.Some?;
      }
    }
    hide Ends, Posting;
  }

  // ---- The effects of a run ----

  /** Block after block: a call is executed, then its output is posted, once or, after a network error, twice. */
  ghost predicate InBlocks(x: Context, log: seq<Effect>, calls: seq<ToolCall>)
    decreases |calls|
  {
    if calls == [] then log == [Progress]
    else
      var last, front := calls[|calls| - 1], calls[..|calls| - 1];
      exists n: nat, output: Json :: EndsInBlock(x, log, n, last, output) && InBlocks(x, log[..n], front)
  }

  ghost predicate EndsInBlock(x: Context, log: seq<Effect>, n: nat, call: ToolCall, output: Json) {
    && n < |log| && log[n] == Execute(call)
    && x.outside.tool(log[..n + 1]) == ToolReturned(output)
    && (log[n + 1..] == [Post(call, output, 0)] || log[n + 1..] == [Post(call, output, 0), Post(call, output, 1)])
  }

  /** What a tool call that succeeds adds to the log. */
  lemma CallLog(x: Context, s: State, call: ToolCall) returns (output: Json, posts: seq<Effect>)
    requires OnCall(x, s, call).1.None?
    ensures x.outside.tool(s.log + [Execute(call)]) == ToolReturned(output)
    ensures OnCall(x, s, call).0.log == s.log + [Execute(call)] + posts
    ensures posts == [Post(call, output, 0)] || posts == [Post(call, output, 0), Post(call, output, 1)]
  {
    hide AttemptEnd;
    var log := s.log + [Execute(call)];
    output := x.outside.tool(log).output;
    posts := if Posting(x, log, call, output).0 == log + [Post(call, output, 0)]
             then [Post(call, output, 0)] else [Post(call, output, 0), Post(call, output, 1)];
  }

  lemma BlockAdded(x: Context, log: seq<Effect>, n: nat, call: ToolCall, output: Json, done: seq<ToolCall>)
    requires EndsInBlock(x, log, n, call, output) && InBlocks(x, log[..n], done)
    ensures InBlocks(x, log, done + [call])
  {
    var calls := done + [call];
    assert calls[|calls| - 1] == call && calls[..|calls| - 1] == done;
    hide EndsInBlock;
  }

  lemma CallAddsBlock(x: Context, s: State, call: ToolCall, done: seq<ToolCall>)
    requires InBlocks(x, s.log, done) && OnCall(x, s, call).1.None?
    ensures InBlocks(x, OnCall(x, s, call).0.log, done + [call])
  {
    hide OnCall, InBlocks;
    var output, posts := CallLog(x, s, call);
    var n, log := |s.log|, s.log + [Execute(call)] + posts;
    assert log[..n] == s.log && log[..n + 1] == s.log + [Execute(call)] && log[n + 1..] == posts;
    BlockAdded(x, log, n, call, output, done);
  }

  function CallOf(e: Event): seq<ToolCall> { if e.Calls? then [e.call] else [] }

  lemma EventAddsBlock(x: Context, s: State, e: Event, done: seq<ToolCall>)
    requires s.accepted && InBlocks(x, s.log, done) && OnEvent(x, s, e).1.None?
    ensures OnEvent(x, s, e).0.accepted && InBlocks(x, OnEvent(x, s, e).0.log, done + CallOf(e))
  {
    if e.Calls? {
      CallAddsBlock(x, s, e.call, done);
    } else {
      assert done + CallOf(e) == done;
    }
    hide InBlocks, Posting;
  }

  lemma {:induction false} FoldAddsBlocks(x: Context, s: State, events: seq<Event>, done: seq<ToolCall>)
    requires s.accepted && InBlocks(x, s.log, done) && FoldEvents(x, s, events).1.None?
    ensures InBlocks(x, FoldEvents(x, s, events).0.log, done + CallsOf(events))
    decreases |events|
  {
    hide InBlocks, OnEvent;
    if events == [] {
      assert done + CallsOf(events) == done;
    } else {
      EventAddsBlock(x, s, events[0], done);
      FoldAddsBlocks(x, OnEvent(x, s, events[0]).0, events[1..], done + CallOf(events[0]));
      assert done + CallOf(events[0]) + CallsOf(events[1..]) == done + CallsOf(events);
    }
  }

  /** In a run that answers, the tool calls are executed once each and in order, and each result is
      posted before anything else is done. */
  lemma AnswersInOrder(x: Context, text: Text)
    requires Whole(x, text, Complete).1.Answer?
    ensures EventsOf(x, Lines(text)).Some?
    ensures InBlocks(x, Whole(x, text, Complete).0.log, CallsOf(EventsOf(x, Lines(text)).value))
  {
    FoldIsFoldEvents(x, FRESH, Lines(text));
    var events := EventsOf(x, Lines(text)).value;
    StartsWithAccept(x, events);
    hide InBlocks, Posting, Lines, Rest, Fold, EventsOf, Blank;
  }

  lemma StartsWithAccept(x: Context, events: seq<Event>)
    requires FoldEvents(x, FRESH, events).1.None? && FoldEvents(x, FRESH, events).0.final.Some?
    ensures InBlocks(x, FoldEvents(x, FRESH, events).0.log, CallsOf(events))
  {
    assert events != [] && events[0].RemoteAccepted? by {
      hide Posting, InBlocks;
      assert events != [];
      assert OnEvent(x, FRESH, events[0]).1.None?;
    }
    var t := OnEvent(x, FRESH, events[0]).0;
    assert t.log == [Progress];
    FoldAddsBlocks(x, t, events[1..], []);
    hide InBlocks;
    assert [] + CallsOf(events[1..]) == CallsOf(events);
  }

  /** Between two lines: nothing was done before the acceptance, and only whole blocks since. */
  ghost predicate Steady(x: Context, s: State) {
    if s.accepted then exists calls :: InBlocks(x, s.log, calls) else s.log == []
  }

  /** A block that was broken off: the call without a result, or its result posted once or twice. */
  ghost predicate OpenBlock(x: Context, log: seq<Effect>, n: nat, call: ToolCall) {
    && n < |log| && log[n] == Execute(call)
    && var outcome, posts := x.outside.tool(log[..n + 1]), log[n + 1..];
    || posts == []
    || (outcome.ToolReturned?
        && (posts == [Post(call, outcome.output, 0)]
            || posts == [Post(call, outcome.output, 0), Post(call, outcome.output, 1)]))
  }

  /** Whole blocks, and possibly a last one broken off. */
  ghost predicate Orderly(x: Context, log: seq<Effect>) {
    || log == []
    || (exists calls :: InBlocks(x, log, calls))
    || (exists n: nat, calls: seq<ToolCall>, call: ToolCall ::
          n <= |log| && InBlocks(x, log[..n], calls) && OpenBlock(x, log, n, call))
  }

  lemma CallStaysOrderly(x: Context, s: State, call: ToolCall, calls: seq<ToolCall>)
    requires InBlocks(x, s.log, calls)
    ensures var (t, failure) := OnCall(x, s, call);
            if failure.None? then InBlocks(x, t.log, calls + [call]) else Orderly(x, t.log)
  {
    var (t, failure) := OnCall(x, s, call);
    if failure.None? {
      CallAddsBlock(x, s, call, calls);
    } else if t.log != s.log {
      BrokenCall(x, s, call);
      hide OnCall, InBlocks;
      assert t.log[..|s.log|] == s.log;
    }
  }

  /** What a tool call that fails adds to the log. */
  lemma BrokenCall(x: Context, s: State, call: ToolCall)
    ensures var t := OnCall(x, s, call).0;
            t.log == s.log || (|s.log| <= |t.log| && t.log[..|s.log|] == s.log && OpenBlock(x, t.log, |s.log|, call))
  {
    hide AttemptEnd;
    var n, t := |s.log|, OnCall(x, s, call).0;
    if t.log != s.log {
      var log := s.log + [Execute(call)];
      assert t.log[..n + 1] == log && t.log[..n] == s.log;
      if x.outside.tool(log).ToolReturned? {
        var output := x.outside.tool(log).output;
        assert Posting(x, log, call, output).0 == log + [Post(call, output, 0)]
               || Posting(x, log, call, output).0 == log + [Post(call, output, 0)] + [Post(call, output, 1)];
        assert t.log[n + 1..] == [Post(call, output, 0)]
               || t.log[n + 1..] == [Post(call, output, 0), Post(call, output, 1)];
      } else {
        assert t.log[n + 1..] == [];
      }
    }
  }

  lemma LineStaysOrderly(x: Context, s: State, line: Text)
    requires Steady(x, s)
    ensures var (t, failure) := OnLine(x, s, line);
            if failure.None? then Steady(x, t) else Orderly(x, t.log)
  {
    hide ParseEvent, Blank, Encode, Posting, InBlocks, OpenBlock, OnEvent;
    assert Orderly(x, s.log);
    var parsed := ParseEvent(x.rt, line, x.runId);
    if parsed.Parsed? { EventStaysOrderly(x, s, parsed.event); }
  }

  lemma EventStaysOrderly(x: Context, s: State, e: Event)
    requires Steady(x, s)
    ensures var (t, failure) := OnEvent(x, s, e);
            if failure.None? then Steady(x, t) else Orderly(x, t.log)
  {
    assert InBlocks(x, [Progress], []);
    hide InBlocks, OpenBlock, Posting;
    assert Orderly(x, s.log);
    if e.Calls? && s.accepted {
      var calls :| InBlocks(x, s.log, calls);
      CallStaysOrderly(x, s, e.call, calls);
      CallFailure(x, s, e.call);
    } else if e.RemoteAccepted? && !s.accepted {
      assert s.log + [Progress] == [Progress];
    }
  }

  lemma {:induction false} FoldStaysOrderly(x: Context, s: State, lines: seq<Text>)
    requires Steady(x, s)
    ensures Orderly(x, Fold(x, s, lines).0.log)
    decreases |lines|
  {
    hide OnLine, InBlocks, OpenBlock;
    if lines != [] {
      LineStaysOrderly(x, s, lines[0]);
      var (t, failure) := OnLine(x, s, lines[0]);
      if failure.None? { FoldStaysOrderly(x, t, lines[1..]); }
    }
  }

  lemma WholeOrderly(x: Context, text: Text, ending: Ending)
    ensures Orderly(x, Whole(x, text, ending).0.log)
  {
    FoldStaysOrderly(x, FRESH, Lines(text));
    hide Orderly, Fold, Lines, Rest, Blank;
  }

  /** However the stream is cut and however the run ends: after the acceptance, each call is executed and its
      output posted before the next is executed; only the last call may be left without a delivered result. */
  lemma EffectsInOrder(x: Context, chunks: seq<Chunk>, end: StreamEnd)
    ensures Orderly(x, StreamOutcome(x, chunks, end).0.log)
  {
    var k := FitFrom(chunks, 0);
    WholeOrderly(x, TextOf(chunks[..k]), Excess);
    WholeOrderly(x, TextOf(chunks), Broken);
    if end.StreamDone? { WholeOrderly(x, TextOf(chunks) + end.flush, Complete); }
    hide Whole, Orderly;
  }

  /** The calls executed, in order. */
  function Executed(log: seq<Effect>): seq<ToolCall> {
    if log == [] then []
    else Executed(log[..|log| - 1]) + (if log[|log| - 1].Execute? then [log[|log| - 1].executed] else [])
  }

  ghost predicate Tracks(s: State) {
    && (forall i, j :: 0 <= i < j < |Executed(s.log)| ==> Executed(s.log)[i].callId != Executed(s.log)[j].callId)
    && (forall i :: 0 <= i < |Executed(s.log)| ==> Executed(s.log)[i].callId in s.seen)
  }

  lemma ExecutedAppend(log: seq<Effect>, e: Effect)
    ensures Executed(log + [e]) == Executed(log) + (if e.Execute? then [e.executed] else [])
  {
    assert (log + [e])[..|log|] == log;
  }

  lemma OnLineTracks(x: Context, s: State, line: Text)
    requires Tracks(s)
    ensures Tracks(OnLine(x, s, line).0)
  {
    hide Executed, ParseEvent, Blank, Encode, AttemptEnd;
    ExecutedAppend(s.log, Progress);
    var parsed := ParseEvent(x.rt, line, x.runId);
    if parsed.Parsed? && parsed.event.Calls? {
      var call := parsed.event.call;
      var log := s.log + [Execute(call)];
      ExecutedAppend(s.log, Execute(call));
      if x.outside.tool(log).ToolReturned? {
        var output := x.outside.tool(log).output;
        ExecutedAppend(log, Post(call, output, 0));
        ExecutedAppend(log + [Post(call, output, 0)], Post(call, output, 1));
      }
    }
  }

  lemma {:induction false} FoldTracks(x: Context, s: State, lines: seq<Text>)
    requires Tracks(s)
    ensures Tracks(Fold(x, s, lines).0)
    decreases |lines|
  {
    hide OnLine, Tracks;
    if lines != [] {
      OnLineTracks(x, s, lines[0]);
      FoldTracks(x, OnLine(x, s, lines[0]).0, lines[1..]);
    }
  }

  lemma WholeTracks(x: Context, text: Text, ending: Ending)
    ensures Tracks(Whole(x, text, ending).0)
  {
    FoldTracks(x, FRESH, Lines(text));
    hide Tracks, Fold, Lines, Rest, Blank;
  }

  /** However the stream is cut and however the run ends, no tool call id is executed twice. */
  lemma ExecutedOnce(x: Context, chunks: seq<Chunk>, end: StreamEnd)
    ensures var calls := Executed(StreamOutcome(x, chunks, end).0.log);
            forall i, j :: 0 <= i < j < |calls| ==> calls[i].callId != calls[j].callId
  {
    var k := FitFrom(chunks, 0);
    WholeTracks(x, TextOf(chunks[..k]), Excess);
    WholeTracks(x, TextOf(chunks), Broken);
    if end.StreamDone? { WholeTracks(x, TextOf(chunks) + end.flush, Complete); }
    hide Whole, Executed;
  }

  // ---- A context that does its part ----

  const BRACE: CodeUnit := 0x7B

  const SAMPLE_FINAL := Final(Ascii("hello"), 7, 3, 1)

  function Object(fields: map<Text, Json>): Option<Json> { Some(JObject(fields)) }

  /** The three events of a run with one tool call, and the confirmation of a result. */
  function SampleAccepted(runId: Text): Option<Json> {
    Object(map[Ascii("run_id") := JString(runId), Ascii("type") := JString(Ascii("remote_accepted"))])
  }

  function SampleCallBody(): Json {
    JObject(map[Ascii("call_id") := JString(Ascii("c")), Ascii("name") := JString(Ascii("n")), Ascii("input") := JNull])
  }

  function SampleCall(runId: Text): Option<Json> {
    Object(map[Ascii("run_id") := JString(runId), Ascii("type") := JString(Ascii("tool_call")),
               Ascii("call") := SampleCallBody()])
  }

  function SampleFinal(runId: Text): Option<Json> {
    var usage := JObject(map[Ascii("input_tokens") := JInt(7), Ascii("output_tokens") := JInt(3),
                             Ascii("steps") := JInt(1)]);
    Object(map[Ascii("run_id") := JString(runId), Ascii("type") := JString(Ascii("final")),
               Ascii("raw_answer") := JString(Ascii("hello")), Ascii("usage") := usage])
  }

  function SampleReply(runId: Text, callId: Text): Option<Json> {
    Object(map[Ascii("status") := JString(Ascii("accepted")), Ascii("run_id") := JString(runId),
               Ascii("call_id") := JString(callId), Ascii("replayed") := JBool(false)])
  }

  /** A reading of texts: three of them stand for the events, any other for the confirmation of the call it names. */
  function SampleParse(runId: Text, t: Text): Option<Json> {
    if t == [BRACE, 0x30] then SampleAccepted(runId)
    else if t == [BRACE, 0x31] then SampleCall(runId)
    else if t == [BRACE, 0x32] then SampleFinal(runId)
    else SampleReply(runId, t)
  }

  function SamplePost(log: seq<Effect>): PostOutcome {
    if log != [] && log[|log| - 1].Post? then Answered(log[|log| - 1].posted.callId) else OtherThrow
  }

  function Sample(runId: Text): Context {
    Context(Runtime(t => SampleParse(runId, t), v => None), runId,
            Outside(log => false, log => ToolReturned(JNull), log => SamplePost(log)))
  }

  function SampleText(): Text {
    [BRACE, 0x30, NEWLINE, BRACE, 0x31, NEWLINE, BRACE, 0x32, NEWLINE]
  }

  lemma SamplePostsWell(runId: Text, log: seq<Effect>, call: ToolCall, output: Json)
    requires ValidId(call.callId)
    ensures Posting(Sample(runId), log, call, output).1.None?
  {
    var id := call.callId;
    assert IsAscii(id);
    EncodeAscii(id);
    assert BRACE !in id by { assert !IsOpaqueIdUnit(BRACE); }
    assert id[0] != BRACE;
    SampleReplyAccepted(runId, id);
  }

  lemma SampleReplyAccepted(runId: Text, id: Text)
    requires |Encode(id)| <= MAX_REPLY_BYTES && |id| > 0 && id[0] != BRACE
    ensures ReplyAccepted(Sample(runId), id, id, 0)
  {
    FieldNames();
    hide Encode, Ascii;
  }

  /** The names the protocol uses are different texts. */
  lemma FieldNames()
    ensures Ascii("status") != Ascii("run_id") && Ascii("status") != Ascii("call_id")
            && Ascii("status") != Ascii("replayed") && Ascii("run_id") != Ascii("call_id")
            && Ascii("run_id") != Ascii("replayed") && Ascii("call_id") != Ascii("replayed")
    ensures Ascii("type") != Ascii("run_id") && Ascii("type") != Ascii("call") && Ascii("run_id") != Ascii("call")
    ensures Ascii("call_id") != Ascii("name") && Ascii("call_id") != Ascii("input") && Ascii("name") != Ascii("input")
    ensures Ascii("raw_answer") != Ascii("usage") && Ascii("raw_answer") != Ascii("type")
            && Ascii("raw_answer") != Ascii("run_id") && Ascii("usage") != Ascii("type")
            && Ascii("usage") != Ascii("run_id")
    ensures Ascii("input_tokens") != Ascii("output_tokens") && Ascii("input_tokens") != Ascii("steps")
            && Ascii("output_tokens") != Ascii("steps")
    ensures Ascii("remote_accepted") != Ascii("heartbeat") && Ascii("tool_call") != Ascii("remote_accepted")
            && Ascii("tool_call") != Ascii("heartbeat") && Ascii("tool_call") != Ascii("error")
    ensures Ascii("final") != Ascii("remote_accepted") && Ascii("final") != Ascii("heartbeat")
            && Ascii("final") != Ascii("error") && Ascii("final") != Ascii("tool_call")
  {
    assert |Ascii("status")| == 6 && |Ascii("run_id")| == 6 && Ascii("status")[0] == 0x73 && Ascii("run_id")[0] == 0x72;
    assert |Ascii("raw_answer")| == 10;
    assert |Ascii("name")| == 4 && |Ascii("input")| == 5 && |Ascii("call_id")| == 7 && |Ascii("call")| == 4;
    assert |Ascii("type")| == 4 && Ascii("type")[0] == 0x74 && Ascii("call")[0] == 0x63;
    assert |Ascii("heartbeat")| == 9 && |Ascii("tool_call")| == 9;
    assert Ascii("heartbeat")[0] == 0x68 && Ascii("tool_call")[0] == 0x74;
    assert |Ascii("error")| == 5 && |Ascii("final")| == 5 && Ascii("error")[0] == 0x65 && Ascii("final")[0] == 0x66;
  }

  lemma SampleObliges(runId: Text)
    ensures Obliging(Sample(runId))
  {
    forall log, call: ToolCall, output | ValidId(call.callId)
      ensures Posting(Sample(runId), log, call, output).1.None? {
      SamplePostsWell(runId, log, call, output);
    }
  }

  function SampleEvents(): seq<Event> {
    [RemoteAccepted, Calls(ToolCall(Ascii("c"), Ascii("n"), JNull)), Finishes(SAMPLE_FINAL)]
  }

  lemma SampleParsesAccepted(runId: Text)
    ensures ParseEvent(Sample(runId).rt, [BRACE, 0x30], runId) == Parsed(RemoteAccepted)
  {
    FieldNames();
    hide Ascii, ValidId, SampleCall, SampleFinal, SampleReply, ParseCall, ParseFinal;
  }

  lemma SampleParsesCall(runId: Text)
    ensures ParseEvent(Sample(runId).rt, [BRACE, 0x31], runId) == Parsed(Calls(ToolCall(Ascii("c"), Ascii("n"), JNull)))
  {
    FieldNames();
    SampleParsesCallBody(Sample(runId).rt);
    hide Ascii, SampleAccepted, SampleFinal, SampleReply, ParseCall, ParseFinal;
  }

  lemma SampleParsesCallBody(rt: Runtime)
    ensures ParseCall(rt, Some(SampleCallBody())) == Parsed(Calls(ToolCall(Ascii("c"), Ascii("n"), JNull)))
  {
    FieldNames();
    assert ValidId(Ascii("c")) && ValidId(Ascii("n")) by {
      assert Ascii("c") == [0x63] && Ascii("n") == [0x6E];
    }
    hide Ascii, ValidId;
  }

  lemma SampleParsesFinal(runId: Text)
    ensures ParseEvent(Sample(runId).rt, [BRACE, 0x32], runId) == Parsed(Finishes(SAMPLE_FINAL))
  {
    FieldNames();
    SampleParsesFinalBody(runId);
    hide Ascii, SampleAccepted, SampleCall, SampleReply, ParseCall, ParseFinal;
  }

  lemma SampleParsesFinalBody(runId: Text)
    ensures ParseFinal(SampleFinal(runId).value) == Parsed(Finishes(SAMPLE_FINAL))
  {
    FieldNames();
    hide Ascii;
  }

  lemma SampleReads(x: Context)
    requires ParseEvent(x.rt, [BRACE, 0x30], x.runId) == Parsed(SampleEvents()[0])
    requires ParseEvent(x.rt, [BRACE, 0x31], x.runId) == Parsed(SampleEvents()[1])
    requires ParseEvent(x.rt, [BRACE, 0x32], x.runId) == Parsed(SampleEvents()[2])
    ensures EventsOf(x, Lines(SampleText())) == Some(SampleEvents()) && Blank(Rest(SampleText()))
  {
    hide ParseEvent, Ascii;
    SampleLines();
    hide Lines, Rest, EventsOf;
    OneEventPerLine(x, Lines(SampleText()), SampleEvents());
  }

  lemma SampleConforms(runId: Text)
    ensures EventsOf(Sample(runId), Lines(SampleText())) == Some(SampleEvents())
    ensures Conforms(Sample(runId), SampleText(), SAMPLE_FINAL)
  {
    SampleParsesAccepted(runId);
    SampleParsesCall(runId);
    SampleParsesFinal(runId);
    SampleInLanguage();
    hide ParseEvent, Ascii, SampleParse, Lines, Rest, EventsOf, InLanguage;
    SampleReads(Sample(runId));
  }

  /** The hypothesis of `LanguageExact` can be met: this context answers a stream with a tool call. */
  lemma SampleAnswers(runId: Text)
    ensures Obliging(Sample(runId))
    ensures EventsOf(Sample(runId), Lines(SampleText())) == Some(SampleEvents()) && CallsOf(SampleEvents()) != []
    ensures Whole(Sample(runId), SampleText(), Complete).1 == Answer(SAMPLE_FINAL)
  {
    SampleObliges(runId);
    SampleConforms(runId);
    SampleInLanguage();
    hide *;
    LanguageExact(Sample(runId), SampleText(), SAMPLE_FINAL);
  }

  lemma SampleInLanguage()
    ensures InLanguage(SampleEvents(), SAMPLE_FINAL) && CallsOf(SampleEvents()) != []
  {
    hide Ascii;
    var rest := SampleEvents()[1..];
    EndsStep(rest, {}, SAMPLE_FINAL);
    EndsStep(rest[1..], {Ascii("c")}, SAMPLE_FINAL);
    assert {} + {Ascii("c")} == {Ascii("c")} && |{Ascii("c")}| == 1;
    hide Ends;
  }

  /** Short lines that each parse to an event give those events. */
  lemma {:induction false} OneEventPerLine(x: Context, lines: seq<Text>, events: seq<Event>)
    requires |lines| == |events|
    requires forall i :: 0 <= i < |lines| ==> |lines[i]| == 2 && lines[i][0] == BRACE && lines[i][1] < 0x80
    requires forall i :: 0 <= i < |lines| ==> ParseEvent(x.rt, lines[i], x.runId) == Parsed(events[i])
    ensures EventsOf(x, lines) == Some(events)
    decreases |lines|
  {
    hide ParseEvent;
    if lines != [] {
      OneEventPerLine(x, lines[1..], events[1..]);
      EncodeAscii(lines[0]);
      hide Encode;
      assert !IsSpace(BRACE);
      assert events == [events[0]] + events[1..];
    }
  }

  lemma SampleLines()
    ensures Lines(SampleText()) == [[BRACE, 0x30], [BRACE, 0x31], [BRACE, 0x32]] && Rest(SampleText()) == []
  {
    var t := SampleText();
    NewlineUnique(t, 2);
    NewlineUnique(t[3..], 2);
    NewlineUnique(t[6..], 2);
    assert t[..2] == [BRACE, 0x30] && t[3..][..2] == [BRACE, 0x31] && t[6..][..2] == [BRACE, 0x32];
    assert t[3..][3..] == t[6..] && t[6..][3..] == [];
  }
}
