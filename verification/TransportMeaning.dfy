/** What the callback transport makes of the JSON it reads: which event a line says, and where the answer and
    the executed tool calls come from. */
module TransportMeaning {
  import opened Options
  import opened Strings
  import opened Transport

  /** The property is this text, or a value whose text this is. */
  predicate Reads(rt: Runtime, v: Json, name: string, text: Text) {
    var p := Field(v, name);
    p.Some? && !p.value.JNull? && (p.value == JString(text) || (!p.value.JString? && rt.toText(p.value) == Some(text)))
  }

  /** Up to 200 letters, digits, dots, underscores, colons and hyphens, and not a relative path. */
  predicate OpaqueId(s: Text) {
    && 1 <= |s| <= 200 && s != Ascii(".") && s != Ascii("..")
    && forall i :: 0 <= i < |s| ==>
         || UnitOf('A') <= s[i] <= UnitOf('Z') || UnitOf('a') <= s[i] <= UnitOf('z')
         || UnitOf('0') <= s[i] <= UnitOf('9')
         || s[i] == UnitOf('.') || s[i] == UnitOf('_') || s[i] == UnitOf(':') || s[i] == UnitOf('-')
  }

  lemma IdsExact(s: Text)
    ensures ValidId(s) <==> OpaqueId(s)
  {
    assert Ascii(".") == [UnitOf('.')] && Ascii("..") == [UnitOf('.'), UnitOf('.')];
  }

  predicate SaysCall(rt: Runtime, body: Json, call: ToolCall) {
    && Reads(rt, body, "call_id", call.callId) && OpaqueId(call.callId)
    && Reads(rt, body, "name", call.name) && OpaqueId(call.name)
    && Field(body, "input") == Some(call.input)
  }

  predicate SaysFinal(v: Json, f: Final) {
    && Field(v, "raw_answer") == Some(JString(f.rawAnswer))
    && var usage := Field(v, "usage");
    && usage.Some?
    && Field(usage.value, "input_tokens") == Some(JInt(f.inputTokens)) && f.inputTokens <= MAX_SAFE_INTEGER
    && Field(usage.value, "output_tokens") == Some(JInt(f.outputTokens)) && f.outputTokens <= MAX_SAFE_INTEGER
    && Field(usage.value, "steps") == Some(JInt(f.steps)) && f.steps <= MAX_SAFE_INTEGER
  }

  function TypeOf(e: Event): Text {
    Ascii(match e
          case Heartbeat => "heartbeat"
          case RemoteAccepted => "remote_accepted"
          case ProposalInvalid => "error"
          case Calls(_) => "tool_call"
          case Finishes(_) => "final")
  }

  /** The parsed line says event `e` of the run. */
  predicate Says(rt: Runtime, v: Json, runId: Text, e: Event) {
    && Field(v, "run_id") == Some(JString(runId)) && Field(v, "type") == Some(JString(TypeOf(e)))
    && match e
       case Heartbeat => true
       case RemoteAccepted => true
       case ProposalInvalid => Field(v, "code") == Some(JString(Ascii("AIPHABEE_TOOL_PROPOSAL_INVALID")))
       case Calls(call) => Field(v, "call").Some? && SaysCall(rt, Field(v, "call").value, call)
       case Finishes(f) => SaysFinal(v, f)
  }

  ghost predicate LineSays(rt: Runtime, line: Text, runId: Text, e: Event) {
    rt.parse(line).Some? && Says(rt, rt.parse(line).value, runId, e)
  }

  lemma TypesDiffer()
    ensures Ascii("error") != Ascii("remote_accepted") && Ascii("error") != Ascii("heartbeat")
            && Ascii("error") != Ascii("tool_call") && Ascii("error") != Ascii("final")
    ensures Ascii("remote_accepted") != Ascii("heartbeat") && Ascii("remote_accepted") != Ascii("tool_call")
            && Ascii("remote_accepted") != Ascii("final")
    ensures Ascii("heartbeat") != Ascii("tool_call") && Ascii("heartbeat") != Ascii("final")
            && Ascii("tool_call") != Ascii("final")
  {
    FieldNames();
    assert |Ascii("error")| == 5 && |Ascii("remote_accepted")| == 15 && |Ascii("heartbeat")| == 9;
    hide Ascii;
  }

  lemma CallExact(rt: Runtime, call: Option<Json>, e: Event)
    ensures ParseCall(rt, call) == Parsed(e) <==> e.Calls? && call.Some? && SaysCall(rt, call.value, e.call)
  {
    forall s ensures ValidId(s) <==> OpaqueId(s) { IdsExact(s); }
    hide Ascii, ValidId, OpaqueId;
  }

  lemma FinalExact(v: Json, e: Event)
    ensures ParseFinal(v) == Parsed(e) <==> e.Finishes? && SaysFinal(v, e.final)
  {
    hide Ascii;
  }

  lemma ParseIsSaid(rt: Runtime, line: Text, runId: Text, e: Event)
    requires ParseEvent(rt, line, runId) == Parsed(e)
    ensures LineSays(rt, line, runId, e)
  {
    var v := rt.parse(line).value;
    CallExact(rt, Field(v, "call"), e);
    FinalExact(v, e);
    hide Ascii, ParseCall, ParseFinal, SaysCall, SaysFinal;
  }

  lemma TypeDecides(kind: Option<Json>, e: Event)
    requires kind == Some(JString(TypeOf(e)))
    ensures IsText(kind, Ascii("remote_accepted")) <==> e.RemoteAccepted?
    ensures IsText(kind, Ascii("heartbeat")) <==> e.Heartbeat?
    ensures IsText(kind, Ascii("error")) <==> e.ProposalInvalid?
    ensures IsText(kind, Ascii("tool_call")) <==> e.Calls?
    ensures IsText(kind, Ascii("final")) <==> e.Finishes?
  {
    TypesDiffer();
    hide Ascii;
  }

  lemma SaidIsParsed(rt: Runtime, line: Text, runId: Text, e: Event)
    requires LineSays(rt, line, runId, e)
    ensures ParseEvent(rt, line, runId) == Parsed(e)
  {
    hide Ascii, ParseCall, ParseFinal, SaysCall, SaysFinal, Field, TypeOf;
    var v := rt.parse(line).value;
    TypeDecides(Field(v, "type"), e);
    if e.Calls? { CallExact(rt, Field(v, "call"), e); }
    if e.Finishes? { FinalExact(v, e); }
    assert IsText(Field(v, "run_id"), runId);
    assert IsObject(rt.parse(line)) by { OnlyObjects(v, "type"); }
    assert e.ProposalInvalid? ==> IsText(Field(v, "code"), Ascii("AIPHABEE_TOOL_PROPOSAL_INVALID"));
    hide IsText, IsObject;
  }

  lemma OnlyObjects(v: Json, name: string)
    requires Field(v, name).Some?
    ensures v.JObject?
  {
  }

  /** A line is taken for an event exactly when its JSON says that event of this run. */
  lemma ParseExact(rt: Runtime, line: Text, runId: Text, e: Event)
    ensures ParseEvent(rt, line, runId) == Parsed(e) <==> LineSays(rt, line, runId, e)
  {
    hide ParseEvent, LineSays;
    if ParseEvent(rt, line, runId) == Parsed(e) { ParseIsSaid(rt, line, runId, e); }
    if LineSays(rt, line, runId, e) { SaidIsParsed(rt, line, runId, e); }
  }

  /** What each refusal of a line says about its JSON. */
  ghost predicate Misreads(rt: Runtime, line: Text, runId: Text, code: Code) {
    var v := rt.parse(line);
    var ours := v.Some? && v.value.JObject? && Field(v.value, "run_id") == Some(JString(runId));
    match code
    case EventInvalid =>
      || v.None? || !(v.value.JObject? || v.value.JArray?)
      || (ours && (forall e :: Field(v.value, "type") != Some(JString(TypeOf(e)))))
      || (ours && Field(v.value, "type") == Some(JString(Ascii("error")))
          && Field(v.value, "code") != Some(JString(Ascii("AIPHABEE_TOOL_PROPOSAL_INVALID"))))
    case RunMismatch => v.Some? && (v.value.JObject? || v.value.JArray?) && !ours
    case ToolCallInvalid => ours && Field(v.value, "type") == Some(JString(Ascii("tool_call")))
    case FinalInvalid => ours && Field(v.value, "type") == Some(JString(Ascii("final")))
    case _ => false
  }

  /** A refused line is refused for what its JSON says; only the ids of a tool call can make the parser throw. */
  lemma RefusalNames(rt: Runtime, line: Text, runId: Text)
    ensures var parsed := ParseEvent(rt, line, runId);
            && (parsed.Malformed? ==> Misreads(rt, line, runId, parsed.code))
            && (parsed.ParseThrew? ==>
                  && rt.parse(line).Some?
                  && Field(rt.parse(line).value, "type") == Some(JString(Ascii("tool_call"))))
  {
    hide Ascii, ValidId, SafeCount;
  }

  // ---- How a line fails ----

  /** The phase an error of the runtime is named after, between two lines. */
  ghost predicate PhaseOk(s: State) {
    && s.phase == (if s.accepted && Executed(s.log) == [] then ApplicationCallback else StreamRead)
    && (!s.accepted ==> Executed(s.log) == [] && s.seen == {} && s.final.None?)
  }

  lemma ExecutedGrows(log: seq<Effect>, more: seq<Effect>)
    ensures |Executed(log + more)| >= |Executed(log)|
    decreases |more|
  {
    if more == [] {
      assert log + more == log;
    } else {
      assert (log + more)[..|log + more| - 1] == log + more[..|more| - 1];
      ExecutedGrows(log, more[..|more| - 1]);
    }
  }

  /** A tool call in order is executed, whatever comes of it. */
  lemma CallIsLogged(x: Context, s: State, call: ToolCall)
    ensures s.accepted && s.final.None? && call.callId !in s.seen ==> Executed(OnCall(x, s, call).0.log) != []
  {
    hide AttemptEnd;
    var log, t := s.log + [Execute(call)], OnCall(x, s, call).0;
    if s.accepted && s.final.None? && call.callId !in s.seen {
      assert log <= t.log && t.log == log + t.log[|log|..];
      hide Executed;
      ExecutedAppend(s.log, Execute(call));
      ExecutedGrows(log, t.log[|log|..]);
    }
  }

  /** The failure of a tool call, and the phase it leaves, say who did not do their part. */
  lemma CallFails(x: Context, s: State, call: ToolCall)
    ensures var (t, failure) := OnCall(x, s, call);
            var outcome := x.outside.tool(s.log + [Execute(call)]);
            if !s.accepted || s.final.Some? || call.callId in s.seen then
              t == s && failure == Some(Coded(OrderInvalid))
            else
              && t.accepted && t.final.None?
              && (failure == Some(ApplicationError) <==> outcome.ToolThrew?)
              && (failure == Some(Coded(OutputInvalid)) <==> outcome.ToolUnserializable?)
              && (t.phase.ApplicationCallback? <==> outcome.ToolThrew?)
              && (t.phase.StreamRead? <==> failure.None?)
  {
    hide ReplyAccepted;
  }

  lemma LinePhase(x: Context, s: State, line: Text)
    requires PhaseOk(s) && OnLine(x, s, line).1.None?
    ensures PhaseOk(OnLine(x, s, line).0)
  {
    hide ParseEvent, Blank, Encode, OnCall;
    var parsed := ParseEvent(x.rt, line, x.runId);
    if parsed.Parsed? && parsed.event.Calls? {
      CallFails(x, s, parsed.event.call);
      CallIsLogged(x, s, parsed.event.call);
    }
    ExecutedAppend(s.log, Progress);
    hide Executed;
  }

  lemma {:induction false} FoldPhase(x: Context, s: State, lines: seq<Text>)
    requires PhaseOk(s) && Fold(x, s, lines).1.None?
    ensures PhaseOk(Fold(x, s, lines).0)
    decreases |lines|
  {
    hide OnLine, PhaseOk;
    if lines != [] {
      LinePhase(x, s, lines[0]);
      FoldPhase(x, OnLine(x, s, lines[0]).0, lines[1..]);
    }
  }

  /** What makes a line fail in a state between two lines, by the failure it fails with. */
  ghost predicate FailsFor(x: Context, s: State, line: Text, failure: Failure) {
    var parsed := ParseEvent(x.rt, line, x.runId);
    var short := |Encode(line)| <= 1_048_576;
    var event := short && !Blank(line) && parsed.Parsed?;
    match failure
    case Coded(LineTooLarge) => !short
    case Coded(EventInvalid) => short && !Blank(line) && parsed == Malformed(EventInvalid)
    case Coded(RunMismatch) => short && !Blank(line) && parsed == Malformed(RunMismatch)
    case Coded(ToolCallInvalid) =>
      short && !Blank(line) && (parsed == Malformed(ToolCallInvalid) || parsed == Parsed(ProposalInvalid))
    case Coded(OrderInvalid) =>
      event && (match parsed.event
                case RemoteAccepted => s.accepted || s.seen != {} || s.final.Some?
                case Heartbeat => !s.accepted || s.final.Some?
                case Calls(call) => !s.accepted || s.final.Some? || call.callId in s.seen
                case _ => false)
    case Coded(FinalInvalid) =>
      || (short && !Blank(line) && parsed == Malformed(FinalInvalid))
      || (event && parsed.event.Finishes? && (!s.accepted || s.final.Some? || parsed.event.final.steps != |s.seen|))
    case ApplicationError =>
      event && (match parsed.event
                case RemoteAccepted => x.outside.progressThrows(s.log + [Progress])
                case Calls(call) => x.outside.tool(s.log + [Execute(call)]).ToolThrew?
                case _ => false)
    case Coded(OutputInvalid) =>
      event && parsed.event.Calls? && x.outside.tool(s.log + [Execute(parsed.event.call)]).ToolUnserializable?
    case Coded(ResultInvalid) => event && parsed.event.Calls?
    case Coded(ResultRejected(_)) => event && parsed.event.Calls?
    case RuntimeError(phase) =>
      || (event && parsed.event.Calls? && phase.CallbackResult?)
      || (short && !Blank(line) && parsed.ParseThrew? && phase == s.phase)
    case _ => false
  }

  /** A failure names what was wrong with the line or who did not do their part. */
  lemma LineFailureNames(x: Context, s: State, line: Text)
    ensures var failure := OnLine(x, s, line).1; failure.Some? ==> FailsFor(x, s, line, failure.value)
    ensures |Encode(line)| <= 1_048_576 && !Blank(line) && ParseEvent(x.rt, line, x.runId) == Parsed(RemoteAccepted)
            && x.outside.progressThrows(s.log + [Progress]) ==>
              OnLine(x, s, line).1.Some?
  {
    RefusalNames(x.rt, line, x.runId);
    hide ParseEvent, Blank, Encode, ReplyAccepted;
    var parsed := ParseEvent(x.rt, line, x.runId);
    if parsed.Parsed? && parsed.event.Calls? { CallFails(x, s, parsed.event.call); }
    hide Executed;
  }

  /** A run whose lines were all in order fails for the way it ends: too long, broken off while reading or before the
      first tool call after the acceptance, or without a final and nothing but blanks behind it. */
  lemma EndingNames(x: Context, text: Text, ending: Ending)
    requires Fold(x, FRESH, Lines(text)).1.None?
    ensures var (s, outcome) := Whole(x, text, ending);
            match ending
            case Excess => outcome == Failed(Coded(StreamTooLarge))
            case Broken =>
              outcome == Failed(RuntimeError(if s.accepted && Executed(s.log) == [] then ApplicationCallback
                                             else StreamRead))
            case Complete =>
              if Blank(Rest(text)) && s.final.Some? then outcome == Answer(s.final.value)
              else outcome == Failed(Coded(TerminalMissing))
  {
    hide Fold, Lines, Rest, Blank;
    FoldPhase(x, FRESH, Lines(text));
  }

  lemma {:induction false} FitIsWithin(chunks: seq<Chunk>, n: nat)
    requires n <= |chunks| && TotalBytes(chunks[..n]) <= MAX_STREAM_BYTES
    ensures TotalBytes(chunks[..FitFrom(chunks, n)]) <= MAX_STREAM_BYTES
    decreases |chunks| - n
  {
    if n < |chunks| && TotalBytes(chunks[..n + 1]) <= MAX_STREAM_BYTES { FitIsWithin(chunks, n + 1); }
  }

  /** A run answers only when the stream ended by itself and within two mebibytes. With lines in order, one that is
      longer fails as too long, and one that breaks off as an error of the runtime. */
  lemma StreamEndNames(x: Context, chunks: seq<Chunk>, end: StreamEnd)
    ensures var outcome := StreamOutcome(x, chunks, end).1;
            && (outcome.Answer? ==>
                  && TotalBytes(chunks) <= 2_097_152 && end.StreamDone?
                  && outcome == Whole(x, TextOf(chunks) + end.flush, Complete).1)
            && (TotalBytes(chunks) <= 2_097_152 && end.StreamBroken?
                && Fold(x, FRESH, Lines(TextOf(chunks))).1.None? ==>
                  outcome.Failed? && outcome.failure.RuntimeError? && !outcome.failure.phase.CallbackResult?)
            && (TotalBytes(chunks) > 2_097_152
                && Fold(x, FRESH, Lines(TextOf(chunks[..FitFrom(chunks, 0)]))).1.None? ==>
                  outcome == Failed(Coded(StreamTooLarge)))
  {
    hide Fold, Lines, Rest, Blank, FitFrom, TotalBytes;
    assert TotalBytes(chunks[..0]) == 0 by { EmptyTotal(); assert chunks[..0] == []; }
    FitIsWithin(chunks, 0);
    if TotalBytes(chunks) <= MAX_STREAM_BYTES {
      FitsAll(chunks, 0);
      if Fold(x, FRESH, Lines(TextOf(chunks))).1.None? { EndingNames(x, TextOf(chunks), Broken); }
    } else {
      assert chunks[..|chunks|] == chunks;
    }
  }

  lemma EmptyTotal()
    ensures TotalBytes([]) == 0
  {
  }

  // ---- The answer ----

  /** The line of the last event; only blank lines follow it. */
  lemma {:induction false} LastEventLine(x: Context, lines: seq<Text>) returns (i: nat)
    requires EventsOf(x, lines).Some? && EventsOf(x, lines).value != []
    ensures i < |lines| && forall j :: i < j < |lines| ==> Blank(lines[j])
    ensures var events := EventsOf(x, lines).value;
            ParseEvent(x.rt, lines[i], x.runId) == Parsed(events[|events| - 1])
    decreases |lines|
  {
    hide ParseEvent, Blank, Encode;
    if EventsOf(x, lines[1..]).value == [] {
      OnlyBlanks(x, lines[1..]);
      i := 0;
      assert forall j :: 0 < j < |lines| ==> lines[j] == lines[1..][j - 1];
    } else {
      i := LastEventLine(x, lines[1..]);
      assert forall j :: i < j < |lines[1..]| ==> lines[1..][j] == lines[j + 1];
      i := i + 1;
      assert forall j :: i < j < |lines| ==> lines[j] == lines[1..][j - 1];
    }
  }

  lemma {:induction false} OnlyBlanks(x: Context, lines: seq<Text>)
    requires EventsOf(x, lines) == Some([])
    ensures forall j :: 0 <= j < |lines| ==> Blank(lines[j])
    decreases |lines|
  {
    hide ParseEvent, Blank, Encode;
    if lines != [] {
      OnlyBlanks(x, lines[1..]);
      assert forall j :: 0 < j < |lines| ==> lines[j] == lines[1..][j - 1];
    }
  }

  /** The answer of a run, and its token counts, are what the last line that is not blank says. */
  lemma AnswerIsSaid(x: Context, text: Text, final: Final)
    requires Whole(x, text, Complete).1 == Answer(final)
    ensures exists i :: 0 <= i < |Lines(text)| && LineSays(x.rt, Lines(text)[i], x.runId, Finishes(final))
                        && forall j :: i < j < |Lines(text)| ==> Blank(Lines(text)[j])
  {
    LanguageSound(x, text, final);
    hide Lines, Rest, Whole, ParseEvent, LineSays, Blank, FreshCalls;
    var i := LastEventLine(x, Lines(text));
    hide EventsOf;
    ParseExact(x.rt, Lines(text)[i], x.runId, Finishes(final));
  }

  // ---- The tool calls ----

  lemma LineExecutes(x: Context, s: State, line: Text, call: ToolCall)
    requires Execute(call) in OnLine(x, s, line).0.log && Execute(call) !in s.log
    ensures ParseEvent(x.rt, line, x.runId) == Parsed(Calls(call))
  {
    hide ParseEvent, Blank, Encode, AttemptEnd;
  }

  lemma {:induction false} FoldExecutes(x: Context, s: State, lines: seq<Text>, call: ToolCall)
    requires Execute(call) in Fold(x, s, lines).0.log && Execute(call) !in s.log
    ensures exists i :: 0 <= i < |lines| && LineSays(x.rt, lines[i], x.runId, Calls(call))
    decreases |lines|
  {
    hide OnLine, LineSays;
    var t := OnLine(x, s, lines[0]).0;
    if Execute(call) in t.log {
      LineExecutes(x, s, lines[0], call);
      ParseExact(x.rt, lines[0], x.runId, Calls(call));
    } else {
      FoldExecutes(x, t, lines[1..], call);
      var i :| 0 <= i < |lines[1..]| && LineSays(x.rt, lines[1..][i], x.runId, Calls(call));
      assert lines[i + 1] == lines[1..][i];
    }
  }

  /** Every tool call that is executed, however the run ends, is said by one of its lines. */
  lemma ExecutedIsSaid(x: Context, text: Text, ending: Ending, call: ToolCall)
    requires Execute(call) in Whole(x, text, ending).0.log
    ensures exists i :: 0 <= i < |Lines(text)| && LineSays(x.rt, Lines(text)[i], x.runId, Calls(call))
  {
    hide LineSays, Fold, Lines, Rest, Blank;
    FoldExecutes(x, FRESH, Lines(text), call);
  }

  // ---- Replies to posted results ----

  /** A reply confirms a result exactly if it says so for this call of this run, as new, or on a second attempt as
      replayed. */
  lemma ReplyExact(x: Context, body: Text, callId: Text, attempt: nat)
    ensures ReplyAccepted(x, body, callId, attempt) <==>
              && |Encode(body)| <= 65_536 && x.rt.parse(body).Some?
              && var v := x.rt.parse(body).value;
              && Field(v, "status") == Some(JString(Ascii("accepted")))
              && Field(v, "run_id") == Some(JString(x.runId)) && Field(v, "call_id") == Some(JString(callId))
              && (Field(v, "replayed") == Some(JBool(false))
                  || (attempt > 0 && Field(v, "replayed") == Some(JBool(true))))
  {
    hide Ascii, Encode;
  }

  /** No reply is accepted for two calls or two runs, and a replayed one only after a first attempt. */
  lemma ReplyIsForOne(x: Context, y: Context, body: Text, a: Text, b: Text, m: nat, n: nat)
    requires x.rt == y.rt && ReplyAccepted(x, body, a, m) && ReplyAccepted(y, body, b, n)
    ensures a == b && x.runId == y.runId
    ensures x.rt.parse(body).Some? && Field(x.rt.parse(body).value, "status") == Some(JString(Ascii("accepted")))
    ensures m == 0 ==> Field(x.rt.parse(body).value, "replayed") == Some(JBool(false))
    ensures |Encode(body)| <= MAX_REPLY_BYTES
  {
    hide Ascii, Encode;
  }
}
