/** createClaudeCodeStreamFn (src/claude-code-stream.ts:87-208): the handlers that
    turn a child process's output into assistant message events, and the
    EventStream that drops whatever is pushed after the first terminal event
    (packages/pi-ai/src/utils/event-stream.ts:1-82). */
module Adapter {
  import opened Messages
  import opened ReplyStream
  import opened Lines

  /** What JSON.parse makes of one line of output. */
  datatype Parsed =
    | Unparsable
    | AssistantOutput(text: string)
    | Result(result: Option<string>, isError: bool)
    | Irrelevant

  datatype StreamEvent =
    | Start(partial: Reply)
    | TextDelta(partial: Reply)
    | Finish(message: Reply)
    | Fail(error: Reply)

  predicate Terminal(e: StreamEvent) { e.Finish? || e.Fail? }

  function Carried(e: StreamEvent): Reply {
    match e
    case Start(r) => r
    case TextDelta(r) => r
    case Finish(r) => r
    case Fail(r) => r
  }

  /** makeAssistantMessage, with the fields the handlers set afterwards. */
  function TextReply(text: string, stop: StopReason, errorMessage: Option<string>): Reply {
    Reply([Text(text)], stop, errorMessage)
  }

  /** The closures' variables, and the event stream: what it has delivered and
      whether it is done. */
  datatype Adapter = Adapter(emittedStart: bool, finalized: bool, lastText: string, lineBuf: string, stderr: string,
                             listening: bool, delivered: seq<StreamEvent>, done: bool)

  datatype Signal = NoSignal | Pending | AlreadyAborted

  datatype Input =
    | Stdout(chunk: string)
    | Stderr(chunk: string)
    | Abort
    | ProcessError(message: string)
    | Close(code: string)

  /** EventStream.push */
  function Push(a: Adapter, e: StreamEvent): Adapter {
    if a.done then a else a.(delivered := a.delivered + [e], done := Terminal(e))
  }

  const ABORTED := TextReply("", Aborted, None)

  function Open(signal: Signal): Adapter {
    var a := Adapter(false, false, "", "", "", signal.Pending?, [], false);
    if signal.AlreadyAborted? then Push(a, Fail(ABORTED)) else a
  }

  /** One parsed line. */
  function OnLine(a: Adapter, line: Parsed): Adapter {
    match line
    case Unparsable => a
    case Irrelevant => a
    case AssistantOutput(text) =>
      var last := if text != "" then text else a.lastText;
      var partial := TextReply(last, Stop, None);
      Push(a.(lastText := last, emittedStart := true), if a.emittedStart then TextDelta(partial) else Start(partial))
    case Result(result, isError) =>
      var text := if result.Some? then result.value else a.lastText;
      var msg := if isError then TextReply(text, Error, Some(text)) else TextReply(text, Stop, None);
      var started := if a.emittedStart then a else Push(a.(emittedStart := true), Start(msg));
      Push(started.(finalized := true), if isError then Fail(msg) else Finish(msg))
  }

  function OnLines(a: Adapter, lines: seq<string>, parse: string -> Parsed): Adapter
    decreases |lines|
  {
    if lines == [] then a
    else OnLines(if Blank(lines[0]) then a else OnLine(a, parse(lines[0])), lines[1..], parse)
  }

  function OnClose(a: Adapter, code: string): Adapter {
    if a.finalized then a
    else
      var failed := code != "0";
      var msg := if failed then TextReply(a.lastText, Error, Some("claude exited with code " + code + ": " + a.stderr))
                 else TextReply(a.lastText, Stop, None);
      Push(if a.emittedStart then a else Push(a, Start(msg)), if failed then Fail(msg) else Finish(msg))
  }

  function Handle(a: Adapter, i: Input, parse: string -> Parsed): Adapter {
    match i
    case Stdout(chunk) =>
      var text := a.lineBuf + chunk;
      OnLines(a.(lineBuf := Partial(text)), Complete(text), parse)
    case Stderr(chunk) => a.(stderr := a.stderr + chunk)
    case Abort =>
      if !a.listening then a
      else
        var a' := a.(listening := false);
        if a.emittedStart then a' else Push(a', Fail(ABORTED))
    case ProcessError(message) =>
      var msg := TextReply("", Error, Some(message));
      Push(if a.emittedStart then a else Push(a, Start(msg)), Fail(msg))
    case Close(code) => OnClose(a.(listening := false), code)
  }

  function HandleAll(a: Adapter, inputs: seq<Input>, parse: string -> Parsed): Adapter
    decreases |inputs|
  {
    if inputs == [] then a else HandleAll(Handle(a, inputs[0], parse), inputs[1..], parse)
  }

  // ----- The stream grammar -----

  /** start delta* so far. */
  predicate Opening(d: seq<StreamEvent>) {
    forall k :: 0 <= k < |d| ==> if k == 0 then d[k].Start? else d[k].TextDelta?
  }

  predicate TextOnly(r: Reply) { |r.content| == 1 && r.content[0].Text? }

  predicate AllText(d: seq<StreamEvent>) {
    forall k :: 0 <= k < |d| ==> TextOnly(Carried(d[k]))
  }

  /** (start delta*)? and then, once done, one terminal event; a reply marked aborted
      comes alone. */
  predicate Grammatical(a: Adapter) {
    && AllText(a.delivered)
    && (a.finalized ==> a.done)
    && (if a.done then
          && a.delivered != []
          && var last := |a.delivered| - 1;
          && Terminal(a.delivered[last]) && Opening(a.delivered[..last])
          && (Carried(a.delivered[last]).stop.Aborted? <==> last == 0)
        else
          && Opening(a.delivered)
          && (a.emittedStart <==> a.delivered != []))
  }

  lemma OpeningAppend(d: seq<StreamEvent>, e: StreamEvent)
    requires Opening(d) && AllText(d) && TextOnly(Carried(e))
    requires if d == [] then e.Start? else e.TextDelta?
    ensures Opening(d + [e]) && AllText(d + [e])
  {
  }

  lemma PushOpening(a: Adapter, e: StreamEvent)
    requires Grammatical(a) && !a.done && TextOnly(Carried(e))
    requires if a.emittedStart then e.TextDelta? else e.Start?
    ensures Grammatical(Push(a.(emittedStart := true), e)) && !Push(a.(emittedStart := true), e).done
  {
    hide Opening, AllText;
    OpeningAppend(a.delivered, e);
  }

  lemma PushTerminal(a: Adapter, e: StreamEvent)
    requires Opening(a.delivered) && AllText(a.delivered) && !a.done
    requires Terminal(e) && TextOnly(Carried(e))
    requires Carried(e).stop.Aborted? <==> a.delivered == []
    ensures Grammatical(Push(a, e)) && Push(a, e).done
  {
    assert (a.delivered + [e])[..|a.delivered|] == a.delivered;
  }

  /** start, unless it went out already, and then the terminal event. */
  lemma StartThenTerminal(a: Adapter, msg: Reply, e: StreamEvent)
    requires Grammatical(a) && TextOnly(msg) && !msg.stop.Aborted? && Terminal(e) && Carried(e) == msg
    ensures var r := Push(if a.emittedStart then a else Push(a, Start(msg)), e);
            Grammatical(r) && r.done && r.(delivered := a.delivered, done := a.done) == a
  {
    if !a.done {
      var started := if a.emittedStart then a else Push(a, Start(msg));
      PushTerminal(started, e);
    }
  }

  lemma LineKeepsGrammar(a: Adapter, line: Parsed)
    requires Grammatical(a)
    ensures Grammatical(OnLine(a, line))
  {
    hide Grammatical;
    match line
    case Unparsable =>
    case Irrelevant =>
    case AssistantOutput(text) =>
      AssistantKeepsGrammar(a, text);
    case Result(result, isError) =>
      ResultKeepsGrammar(a, result, isError);
  }

  lemma AssistantKeepsGrammar(a: Adapter, text: string)
    requires Grammatical(a)
    ensures Grammatical(OnLine(a, AssistantOutput(text)))
  {
    var last := if text != "" then text else a.lastText;
    var partial := TextReply(last, Stop, None);
    if !a.done {
      PushOpening(a.(lastText := last), if a.emittedStart then TextDelta(partial) else Start(partial));
    }
  }

  lemma ResultKeepsGrammar(a: Adapter, result: Option<string>, isError: bool)
    requires Grammatical(a)
    ensures Grammatical(OnLine(a, Result(result, isError)))
  {
    var text := if result.Some? then result.value else a.lastText;
    var msg := if isError then TextReply(text, Error, Some(text)) else TextReply(text, Stop, None);
    var e := if isError then Fail(msg) else Finish(msg);
    hide Grammatical, OnLine, Push;
    StartThenTerminal(a, msg, e);
    ResultDelivers(a, result, isError, msg, e);
    SameDelivery(Push(if a.emittedStart then a else Push(a, Start(msg)), e), OnLine(a, Result(result, isError)));
  }

  /** The flags a result sets do not change what is delivered. */
  lemma ResultDelivers(a: Adapter, result: Option<string>, isError: bool, msg: Reply, e: StreamEvent)
    requires var text := if result.Some? then result.value else a.lastText;
             msg == if isError then TextReply(text, Error, Some(text)) else TextReply(text, Stop, None)
    requires e == if isError then Fail(msg) else Finish(msg)
    ensures var before := Push(if a.emittedStart then a else Push(a, Start(msg)), e);
            var r := OnLine(a, Result(result, isError));
            r.delivered == before.delivered && r.done == before.done
  {
  }

  lemma SameDelivery(a: Adapter, b: Adapter)
    requires Grammatical(a) && a.done && a.delivered == b.delivered && a.done == b.done
    ensures Grammatical(b)
  {
  }

  lemma {:induction false} LinesKeepGrammar(a: Adapter, lines: seq<string>, parse: string -> Parsed)
    requires Grammatical(a)
    ensures Grammatical(OnLines(a, lines, parse))
    decreases |lines|
  {
    hide Grammatical, OnLine, Blank;
    if lines != [] {
      LineKeepsGrammar(a, parse(lines[0]));
      LinesKeepGrammar(if Blank(lines[0]) then a else OnLine(a, parse(lines[0])), lines[1..], parse);
    }
  }

  lemma HandleKeepsGrammar(a: Adapter, i: Input, parse: string -> Parsed)
    requires Grammatical(a)
    ensures Grammatical(Handle(a, i, parse))
    ensures i.Close? ==> Handle(a, i, parse).done
    ensures a.done ==> Handle(a, i, parse).done && Handle(a, i, parse).delivered == a.delivered
  {
    match i
    case Stdout(chunk) =>
      var text := a.lineBuf + chunk;
      LinesKeepGrammar(a.(lineBuf := Partial(text)), Complete(text), parse);
      if a.done { DoneStays(a.(lineBuf := Partial(text)), Complete(text), parse); }
    case Stderr(_) =>
    case Abort =>
      if a.listening && !a.emittedStart && !a.done { PushTerminal(a.(listening := false), Fail(ABORTED)); }
    case ProcessError(message) =>
      var msg := TextReply("", Error, Some(message));
      StartThenTerminal(a, msg, Fail(msg));
    case Close(code) =>
      if !a.finalized {
        var a' := a.(listening := false);
        var failed := code != "0";
        var msg := if failed then
                     TextReply(a.lastText, Error, Some("claude exited with code " + code + ": " + a.stderr))
                   else TextReply(a.lastText, Stop, None);
        StartThenTerminal(a', msg, if failed then Fail(msg) else Finish(msg));
      }
  }

  lemma {:induction false} DoneStays(a: Adapter, lines: seq<string>, parse: string -> Parsed)
    requires a.done
    ensures OnLines(a, lines, parse).done && OnLines(a, lines, parse).delivered == a.delivered
    decreases |lines|
  {
    hide Blank;
    if lines != [] {
      DoneStays(if Blank(lines[0]) then a else OnLine(a, parse(lines[0])), lines[1..], parse);
    }
  }

  lemma OpenGrammatical(signal: Signal)
    ensures Grammatical(Open(signal))
  {
    if signal.AlreadyAborted? {
      PushTerminal(Adapter(false, false, "", "", "", false, [], false), Fail(ABORTED));
    }
  }

  lemma {:induction false} AllKeepGrammar(a: Adapter, inputs: seq<Input>, parse: string -> Parsed)
    requires Grammatical(a)
    ensures var r := HandleAll(a, inputs, parse);
            && Grammatical(r)
            && (a.done ==> r.done && r.delivered == a.delivered)
            && ((exists k :: 0 <= k < |inputs| && inputs[k].Close?) ==> r.done)
    decreases |inputs|
  {
    hide Grammatical, Handle;
    if inputs != [] {
      HandleKeepsGrammar(a, inputs[0], parse);
      AllKeepGrammar(Handle(a, inputs[0], parse), inputs[1..], parse);
      if k :| 0 <= k < |inputs| && inputs[k].Close? {
        if k > 0 { assert inputs[1..][k - 1].Close?; }
      }
    }
  }

  /** For every interleaving of output chunks, abort, process error and close: the
      stream delivers (start delta*)? and at most one terminal event, last, all
      text; and the terminal event has come once the process has closed. */
  lemma AdapterFollowsGrammar(signal: Signal, inputs: seq<Input>, parse: string -> Parsed)
    ensures var a := HandleAll(Open(signal), inputs, parse);
            && Grammatical(a)
            && ((exists k :: 0 <= k < |inputs| && inputs[k].Close?) ==> a.done)
  {
    hide Grammatical, HandleAll;
    OpenGrammatical(signal);
    AllKeepGrammar(Open(signal), inputs, parse);
  }

  // ----- Which requests end as aborted -----

  /** The stream ended with a reply marked aborted. */
  predicate EndsAborted(a: Adapter) {
    a.done && a.delivered != [] && Carried(a.delivered[|a.delivered| - 1]).stop.Aborted?
  }

  /** Some abort comes while it is listened for, the stream is open and no start was
      emitted yet. */
  predicate AbortedBeforeOutput(a: Adapter, inputs: seq<Input>, parse: string -> Parsed)
    decreases |inputs|
  {
    inputs != []
    && ((inputs[0].Abort? && a.listening && !a.done && !a.emittedStart)
        || AbortedBeforeOutput(Handle(a, inputs[0], parse), inputs[1..], parse))
  }

  lemma LineNeverAborts(a: Adapter, line: Parsed)
    requires !a.done
    ensures a.delivered <= OnLine(a, line).delivered && !EndsAborted(OnLine(a, line))
  {
  }

  lemma {:induction false} LinesNeverAbort(a: Adapter, lines: seq<string>, parse: string -> Parsed)
    requires !a.done
    ensures a.delivered <= OnLines(a, lines, parse).delivered && !EndsAborted(OnLines(a, lines, parse))
    decreases |lines|
  {
    hide Blank, OnLine, EndsAborted;
    if lines == [] {
      OpenNotAborted(a);
    } else {
      var next := if Blank(lines[0]) then a else OnLine(a, parse(lines[0]));
      LineNeverAborts(a, parse(lines[0]));
      if next.done {
        DoneStays(next, lines[1..], parse);
        SameEnding(next, OnLines(next, lines[1..], parse));
      } else {
        LinesNeverAbort(next, lines[1..], parse);
      }
    }
  }

  lemma OpenNotAborted(a: Adapter)
    requires !a.done
    ensures !EndsAborted(a)
  {
  }

  lemma SameEnding(a: Adapter, b: Adapter)
    requires a.done == b.done && a.delivered == b.delivered
    ensures EndsAborted(a) == EndsAborted(b)
  {
  }

  /** One input ends an open stream as aborted exactly when it is such an abort. */
  lemma StepAborts(a: Adapter, i: Input, parse: string -> Parsed)
    requires !a.done
    ensures a.delivered <= Handle(a, i, parse).delivered
    ensures EndsAborted(Handle(a, i, parse)) <==> i.Abort? && a.listening && !a.emittedStart
  {
    if i.Stdout? {
      hide OnLines, Complete, Partial;
      var text := a.lineBuf + i.chunk;
      LinesNeverAbort(a.(lineBuf := Partial(text)), Complete(text), parse);
    }
  }

  lemma {:induction false} DoneNeverAborts(a: Adapter, inputs: seq<Input>, parse: string -> Parsed)
    requires Grammatical(a) && a.done
    ensures !AbortedBeforeOutput(a, inputs, parse)
    decreases |inputs|
  {
    hide Grammatical, Handle;
    if inputs != [] {
      HandleKeepsGrammar(a, inputs[0], parse);
      DoneNeverAborts(Handle(a, inputs[0], parse), inputs[1..], parse);
    }
  }

  lemma {:induction false} AbortsFrom(a: Adapter, inputs: seq<Input>, parse: string -> Parsed)
    requires Grammatical(a) && !a.done
    ensures EndsAborted(HandleAll(a, inputs, parse)) <==> AbortedBeforeOutput(a, inputs, parse)
    decreases |inputs|
  {
    hide Grammatical, Handle, EndsAborted;
    if inputs == [] {
      OpenNotAborted(a);
    } else {
      var next := Handle(a, inputs[0], parse);
      HandleKeepsGrammar(a, inputs[0], parse);
      StepAborts(a, inputs[0], parse);
      if next.done {
        AllKeepGrammar(next, inputs[1..], parse);
        SameEnding(next, HandleAll(next, inputs[1..], parse));
        DoneNeverAborts(next, inputs[1..], parse);
      } else {
        OpenNotAborted(next);
        AbortsFrom(next, inputs[1..], parse);
      }
    }
  }

  /** A request ends with a reply marked aborted exactly when it was aborted before it
      began, or some abort came before any start was emitted: an abort after the
      first output kills the process but never shows as one. */
  lemma AbortedExactlyWhen(signal: Signal, inputs: seq<Input>, parse: string -> Parsed)
    ensures EndsAborted(HandleAll(Open(signal), inputs, parse))
        <==> signal.AlreadyAborted? || AbortedBeforeOutput(Open(signal), inputs, parse)
  {
    hide HandleAll, AbortedBeforeOutput;
    OpenGrammatical(signal);
    if signal.AlreadyAborted? {
      AllKeepGrammar(Open(signal), inputs, parse);
    } else {
      AbortsFrom(Open(signal), inputs, parse);
    }
  }

  /** The same for one abort at any point: whatever comes later, the reply is marked
      aborted exactly when nothing had been delivered. */
  lemma AbortDecidesAtOnce(a: Adapter, later: seq<Input>, parse: string -> Parsed)
    requires Grammatical(a) && a.listening && !a.done
    ensures EndsAborted(HandleAll(Handle(a, Abort, parse), later, parse)) <==> a.delivered == []
  {
    hide HandleAll;
    var next := Handle(a, Abort, parse);
    HandleKeepsGrammar(a, Abort, parse);
    StepAborts(a, Abort, parse);
    if next.done {
      AllKeepGrammar(next, later, parse);
    } else {
      AbortsFrom(next, later, parse);
      NoSecondAbort(next, later, parse);
    }
  }

  lemma {:induction false} NoSecondAbort(a: Adapter, inputs: seq<Input>, parse: string -> Parsed)
    requires !a.listening
    ensures !AbortedBeforeOutput(a, inputs, parse)
    decreases |inputs|
  {
    hide OnLines;
    if inputs != [] {
      NeverListensAgain(a, inputs[0], parse);
      NoSecondAbort(Handle(a, inputs[0], parse), inputs[1..], parse);
    }
  }

  lemma NeverListensAgain(a: Adapter, i: Input, parse: string -> Parsed)
    requires !a.listening
    ensures !Handle(a, i, parse).listening
  {
    hide OnLines, Complete, Partial;
    if i.Stdout? {
      var text := a.lineBuf + i.chunk;
      LinesKeepListening(a.(lineBuf := Partial(text)), Complete(text), parse);
    }
  }

  lemma {:induction false} LinesKeepListening(a: Adapter, lines: seq<string>, parse: string -> Parsed)
    ensures OnLines(a, lines, parse).listening == a.listening
    decreases |lines|
  {
    hide Blank;
    if lines != [] { LinesKeepListening(if Blank(lines[0]) then a else OnLine(a, parse(lines[0])), lines[1..], parse); }
  }

  /** Such a request: output, then an abort, then the killed process closes; the reply
      is an error that tells of an exit code. */
  lemma AbortAfterOutputShowsAsError(parse: string -> Parsed)
    requires parse("l") == AssistantOutput("hi")
    ensures var a := HandleAll(Open(Pending), [Stdout("l\n"), Abort, Close("null")], parse);
            && a.delivered == [Start(TextReply("hi", Stop, None)),
                               Fail(TextReply("hi", Error, Some("claude exited with code " + "null" + ": " + "")))]
            && a.done && !EndsAborted(a)
  {
    hide HandleAll, OnLines, OnLine, Complete, Lines.Partial;
    FirstOutput(parse);
    HandleThree(Open(Pending), Stdout("l\n"), Abort, Close("null"), parse);
  }

  lemma FirstOutput(parse: string -> Parsed)
    requires parse("l") == AssistantOutput("hi")
    ensures Handle(Open(Pending), Stdout("l\n"), parse)
         == Adapter(true, false, "hi", "", "", true, [Start(TextReply("hi", Stop, None))], false)
  {
    var a := Open(Pending);
    FirstLine("l", "");
    assert "l" + "\n" + "" == "l\n" == a.lineBuf + "l\n";
    assert Complete("") == [] && ["l"] + [] == ["l"] && Lines.Partial("") == "";
    LettersAreNotBlank("l");
    assert ["l"][1..] == [];
    assert OnLines(a, ["l"], parse) == OnLines(OnLine(a, parse("l")), [], parse);
  }

  lemma HandleThree(a: Adapter, i: Input, j: Input, k: Input, parse: string -> Parsed)
    ensures HandleAll(a, [i, j, k], parse) == Handle(Handle(Handle(a, i, parse), j, parse), k, parse)
  {
    hide Handle;
    assert [i, j, k][1..] == [j, k] && [j, k][1..] == [k] && [k][1..] == [];
    var b := Handle(a, i, parse);
    var c := Handle(b, j, parse);
    assert HandleAll(a, [i, j, k], parse) == HandleAll(b, [j, k], parse) == HandleAll(c, [k], parse);
    assert HandleAll(c, [k], parse) == HandleAll(Handle(c, k, parse), [], parse);
  }

  // ----- Chunking -----

  lemma {:induction false} LinesAppend(a: Adapter, x: seq<string>, y: seq<string>, parse: string -> Parsed)
    ensures OnLines(a, x + y, parse) == OnLines(OnLines(a, x, parse), y, parse)
    decreases |x|
  {
    hide Blank, OnLine;
    if x == [] {
      assert x + y == y;
    } else {
      assert (x + y)[1..] == x[1..] + y;
      LinesAppend(if Blank(x[0]) then a else OnLine(a, parse(x[0])), x[1..], y, parse);
    }
  }

  lemma {:induction false} LinesIgnoreBuffer(a: Adapter, lines: seq<string>, buffer: string, parse: string -> Parsed)
    ensures OnLines(a.(lineBuf := buffer), lines, parse) == OnLines(a, lines, parse).(lineBuf := buffer)
    ensures OnLines(a, lines, parse).lineBuf == a.lineBuf
    decreases |lines|
  {
    hide Blank;
    if lines != [] {
      LineIgnoresBuffer(a, parse(lines[0]), buffer);
      LinesIgnoreBuffer(if Blank(lines[0]) then a else OnLine(a, parse(lines[0])), lines[1..], buffer, parse);
    }
  }

  lemma LineIgnoresBuffer(a: Adapter, line: Parsed, buffer: string)
    ensures OnLine(a.(lineBuf := buffer), line) == OnLine(a, line).(lineBuf := buffer)
    ensures OnLine(a, line).lineBuf == a.lineBuf
  {
  }

  /** Where output is cut into chunks makes no difference to the adapter. */
  lemma ChunksCompose(a: Adapter, x: string, y: string, parse: string -> Parsed)
    ensures Handle(Handle(a, Stdout(x), parse), Stdout(y), parse) == Handle(a, Stdout(x + y), parse)
  {
    hide Complete, Partial, OnLines;
    var text := a.lineBuf + x;
    var rest := Partial(text) + y;
    assert a.lineBuf + (x + y) == text + y;
    SplitAppend(text, y);
    LinesAppend(a, Complete(text), Complete(rest), parse);
    LinesIgnoreBuffer(a, Complete(text), Partial(text), parse);
    var mid := OnLines(a, Complete(text), parse);
    LinesIgnoreBuffer(mid, Complete(rest), Partial(rest), parse);
    LinesIgnoreBuffer(a, Complete(text) + Complete(rest), Partial(rest), parse);
  }

  // ----- Which lines it looks at -----

  function OnEvery(a: Adapter, lines: seq<string>, parse: string -> Parsed): Adapter
    decreases |lines|
  {
    if lines == [] then a else OnEvery(OnLine(a, parse(lines[0])), lines[1..], parse)
  }

  /** The loop over lines acts on exactly the lines that are not blank, in order. */
  lemma {:induction false} LinesAreNonBlank(a: Adapter, lines: seq<string>, parse: string -> Parsed)
    ensures OnLines(a, lines, parse) == OnEvery(a, NonBlank(lines), parse)
    decreases |lines|
  {
    hide Blank, OnLine;
    if lines != [] {
      LinesAreNonBlank(if Blank(lines[0]) then a else OnLine(a, parse(lines[0])), lines[1..], parse);
      var rest := NonBlank(lines[1..]);
      assert ([lines[0]] + rest)[0] == lines[0] && ([lines[0]] + rest)[1..] == rest;
    }
  }

  lemma {:induction false} StrippedMakesNoDifference(a: Adapter, lines: seq<string>, parse: string -> Parsed)
    requires forall l :: parse(StripCR(l)) == parse(l)
    ensures OnEvery(a, Stripped(lines), parse) == OnEvery(a, lines, parse)
    decreases |lines|
  {
    hide StripCR, OnLine;
    if lines != [] {
      StrippedMakesNoDifference(OnLine(a, parse(lines[0])), lines[1..], parse);
      var rest := Stripped(lines[1..]);
      assert ([StripCR(lines[0])] + rest)[0] == StripCR(lines[0]) && ([StripCR(lines[0])] + rest)[1..] == rest;
    }
  }

  /** Stripping carriage returns and dropping blank lines first, as drainBuffer does,
      would make no difference to the adapter, a carriage return being white space
      to its parser. */
  lemma AdapterReadsHandledLines(a: Adapter, lines: seq<string>, parse: string -> Parsed)
    requires forall l :: parse(StripCR(l)) == parse(l)
    ensures OnLines(a, Handled(lines), parse) == OnLines(a, lines, parse)
  {
    hide NonBlank, Handled, Stripped, OnLines, OnEvery;
    ReadersAgree(lines);
    LinesAreNonBlank(a, lines, parse);
    LinesAreNonBlank(a, Handled(lines), parse);
    StrippedMakesNoDifference(a, NonBlank(lines), parse);
  }

  // ----- What the final reply says -----

  /** What a request goes through, with output taken line by line. */
  datatype Moment = Line(parsed: Parsed) | Other(input: Input)

  function LinesRead(lines: seq<string>, parse: string -> Parsed): seq<Moment> {
    if lines == [] then []
    else (if Blank(lines[0]) then [] else [Line(parse(lines[0]))]) + LinesRead(lines[1..], parse)
  }

  /** The moments of an input sequence, when `buffer` is the unfinished line. */
  function Moments(buffer: string, inputs: seq<Input>, parse: string -> Parsed): seq<Moment>
    decreases |inputs|
  {
    if inputs == [] then []
    else if inputs[0].Stdout? then
      var text := buffer + inputs[0].chunk;
      LinesRead(Complete(text), parse) + Moments(Lines.Partial(text), inputs[1..], parse)
    else [Other(inputs[0])] + Moments(buffer, inputs[1..], parse)
  }

  /** The latest output that was not empty. */
  function LatestOutput(ms: seq<Moment>): string {
    if ms == [] then ""
    else
      var m := ms[|ms| - 1];
      if m.Line? && m.parsed.AssistantOutput? && m.parsed.text != "" then m.parsed.text
      else LatestOutput(ms[..|ms| - 1])
  }

  predicate SomeOutput(ms: seq<Moment>) {
    exists k :: 0 <= k < |ms| && ms[k].Line? && ms[k].parsed.AssistantOutput?
  }

  /** All of stderr. */
  function ErrorOutput(ms: seq<Moment>): string {
    if ms == [] then ""
    else
      var m := ms[|ms| - 1];
      ErrorOutput(ms[..|ms| - 1]) + (if m.Other? && m.input.Stderr? then m.input.chunk else "")
  }

  /** The reply that moment `m` decides on, if it decides, after the moments `early`. */
  function Decides(signal: Signal, early: seq<Moment>, m: Moment): Option<Reply> {
    match m
    case Line(Result(result, isError)) =>
      var text := if result.Some? then result.value else LatestOutput(early);
      Some(if isError then Reply([Text(text)], Error, Some(text)) else Reply([Text(text)], Stop, None))
    case Other(Abort) => if signal.Pending? && !SomeOutput(early) then Some(Reply([Text("")], Aborted, None)) else None
    case Other(ProcessError(message)) => Some(Reply([Text("")], Error, Some(message)))
    case Other(Close(code)) =>
      Some(if code == "0" then Reply([Text(LatestOutput(early))], Stop, None)
           else Reply([Text(LatestOutput(early))], Error,
                      Some("claude exited with code " + code + ": " + ErrorOutput(early))))
    case _ => None
  }

  /** The first moment that decides decides for good. */
  function Decided(signal: Signal, ms: seq<Moment>): Option<Reply> {
    if signal.AlreadyAborted? then Some(Reply([Text("")], Aborted, None))
    else if ms == [] then None
    else
      var early := ms[..|ms| - 1];
      var before := Decided(signal, early);
      if before.Some? then before else Decides(signal, early, ms[|ms| - 1])
  }

  /** The whole stream: one event with the latest output for each output that comes before
      the decision, the first a start; then the decided reply as the final event, with a
      start of its own if it needs one. */
  function StreamOf(signal: Signal, ms: seq<Moment>): seq<StreamEvent> {
    if signal.AlreadyAborted? then [Fail(Reply([Text("")], Aborted, None))]
    else if ms == [] then []
    else
      var early, m := ms[..|ms| - 1], ms[|ms| - 1];
      var before := StreamOf(signal, early);
      if Decided(signal, early).Some? then before
      else before + Adds(before == [], LatestOutput(ms), m, Decides(signal, early, m))
  }

  /** What one moment adds to the stream. */
  function Adds(first: bool, latest: string, m: Moment, decision: Option<Reply>): seq<StreamEvent> {
    match decision
    case Some(r) =>
      var end := if r.stop.Stop? then Finish(r) else Fail(r);
      if first && !r.stop.Aborted? then [Start(r), end] else [end]
    case None =>
      if m.Line? && m.parsed.AssistantOutput? then
        var partial := Reply([Text(latest)], Stop, None);
        [if first then Start(partial) else TextDelta(partial)]
      else []
  }

  function OnMoment(a: Adapter, m: Moment, parse: string -> Parsed): Adapter {
    match m
    case Line(p) => OnLine(a, p)
    case Other(i) => Handle(a, i, parse)
  }

  function OnMoments(a: Adapter, ms: seq<Moment>, parse: string -> Parsed): Adapter
    decreases |ms|
  {
    if ms == [] then a else OnMoments(OnMoment(a, ms[0], parse), ms[1..], parse)
  }

  lemma {:induction false} MomentsSplit(a: Adapter, x: seq<Moment>, y: seq<Moment>, parse: string -> Parsed)
    ensures OnMoments(a, x + y, parse) == OnMoments(OnMoments(a, x, parse), y, parse)
    decreases |x|
  {
    hide OnMoment;
    if x == [] {
      assert x + y == y;
    } else {
      assert (x + y)[1..] == x[1..] + y;
      MomentsSplit(OnMoment(a, x[0], parse), x[1..], y, parse);
    }
  }

  lemma OneMoment(a: Adapter, early: seq<Moment>, m: Moment, parse: string -> Parsed)
    ensures OnMoments(a, early + [m], parse) == OnMoment(OnMoments(a, early, parse), m, parse)
  {
    hide OnMoment;
    MomentsSplit(a, early, [m], parse);
    assert [m][1..] == [];
    assert OnMoments(OnMoments(a, early, parse), [m], parse)
        == OnMoments(OnMoment(OnMoments(a, early, parse), m, parse), [], parse);
  }

  lemma {:induction false} LinesAreMoments(a: Adapter, lines: seq<string>, parse: string -> Parsed)
    ensures OnLines(a, lines, parse) == OnMoments(a, LinesRead(lines, parse), parse)
    decreases |lines|
  {
    hide Blank, OnLine;
    if lines != [] {
      var rest := LinesRead(lines[1..], parse);
      if Blank(lines[0]) {
        assert [] + rest == rest;
        LinesAreMoments(a, lines[1..], parse);
      } else {
        var m := Line(parse(lines[0]));
        assert ([m] + rest)[1..] == rest;
        LinesAreMoments(OnLine(a, parse(lines[0])), lines[1..], parse);
      }
    }
  }

  function Bufferless(a: Adapter): Adapter { a.(lineBuf := "") }

  lemma OtherIgnoresBuffer(a: Adapter, i: Input, parse: string -> Parsed)
    requires !i.Stdout?
    ensures Bufferless(Handle(a, i, parse)) == Handle(Bufferless(a), i, parse)
    ensures Handle(a, i, parse).lineBuf == a.lineBuf
  {
  }

  lemma OutputIsMoments(a: Adapter, chunk: string, parse: string -> Parsed)
    ensures var text, a' := a.lineBuf + chunk, Handle(a, Stdout(chunk), parse);
            && Bufferless(a') == OnMoments(Bufferless(a), LinesRead(Complete(text), parse), parse)
            && a'.lineBuf == Lines.Partial(text)
  {
    hide OnLines, OnMoments, Complete, Lines.Partial, LinesRead;
    var text := a.lineBuf + chunk;
    LinesIgnoreBuffer(a, Complete(text), Lines.Partial(text), parse);
    LinesIgnoreBuffer(a, Complete(text), "", parse);
    LinesAreMoments(Bufferless(a), Complete(text), parse);
  }

  /** Handling inputs is going through their moments. */
  lemma {:induction false} InputsAreMoments(a: Adapter, inputs: seq<Input>, parse: string -> Parsed)
    ensures Bufferless(HandleAll(a, inputs, parse))
         == OnMoments(Bufferless(a), Moments(a.lineBuf, inputs, parse), parse)
    decreases |inputs|
  {
    hide Handle, Bufferless, LinesRead, Complete, Lines.Partial, OnMoments;
    if inputs == [] {
      NoMoments(Bufferless(a), parse);
    } else {
      var i, rest := inputs[0], inputs[1..];
      var next := Handle(a, i, parse);
      InputsAreMoments(next, rest, parse);
      var later := Moments(next.lineBuf, rest, parse);
      if i.Stdout? {
        OutputIsMoments(a, i.chunk, parse);
        MomentsSplit(Bufferless(a), LinesRead(Complete(a.lineBuf + i.chunk), parse), later, parse);
      } else {
        OtherIgnoresBuffer(a, i, parse);
        MomentsSplit(Bufferless(a), [Other(i)], later, parse);
        JustOther(Bufferless(a), i, parse);
      }
    }
  }

  lemma NoMoments(a: Adapter, parse: string -> Parsed)
    ensures OnMoments(a, [], parse) == a
  {
  }

  lemma JustOther(a: Adapter, i: Input, parse: string -> Parsed)
    ensures OnMoments(a, [Other(i)], parse) == Handle(a, i, parse)
  {
    hide Handle;
    OneMoment(a, [], Other(i), parse);
    assert [] + [Other(i)] == [Other(i)];
  }

  /** The adapter after these moments: done with what was decided, or waiting with the
      latest output and all of stderr. */
  predicate Stands(signal: Signal, ms: seq<Moment>, a: Adapter) {
    var d := Decided(signal, ms);
    && (a.done <==> d.Some?)
    && (a.done ==> a.delivered != [] && Carried(a.delivered[|a.delivered| - 1]) == d.value)
    && a.delivered == StreamOf(signal, ms)
    && (!a.done ==>
          && (a.delivered != [] <==> SomeOutput(ms))
          && !a.finalized && a.lastText == LatestOutput(ms) && a.stderr == ErrorOutput(ms)
          && (a.emittedStart <==> SomeOutput(ms))
          && (signal.Pending? && !SomeOutput(ms) ==> a.listening) && (!signal.Pending? ==> !a.listening))
  }

  lemma ReadingMore(early: seq<Moment>, m: Moment)
    ensures LatestOutput(early + [m])
         == if m.Line? && m.parsed.AssistantOutput? && m.parsed.text != "" then m.parsed.text else LatestOutput(early)
    ensures ErrorOutput(early + [m]) == ErrorOutput(early) + (if m.Other? && m.input.Stderr? then m.input.chunk else "")
    ensures SomeOutput(early + [m]) <==> SomeOutput(early) || (m.Line? && m.parsed.AssistantOutput?)
  {
    assert (early + [m])[..|early|] == early;
    var ms := early + [m];
    assert ms[|early|] == m && forall k :: 0 <= k < |early| ==> ms[k] == early[k];
  }

  lemma DecidedMore(signal: Signal, early: seq<Moment>, m: Moment)
    ensures Decided(signal, early + [m])
         == if Decided(signal, early).Some? then Decided(signal, early) else Decides(signal, early, m)
  {
    hide Decides;
    assert (early + [m])[..|early|] == early;
  }

  lemma StreamMore(signal: Signal, early: seq<Moment>, m: Moment)
    ensures var before := StreamOf(signal, early);
            StreamOf(signal, early + [m])
            == if Decided(signal, early).Some? then before
               else before + Adds(before == [], LatestOutput(early + [m]), m, Decides(signal, early, m))
  {
    hide Decides, Decided, LatestOutput, Adds;
    assert (early + [m])[..|early|] == early;
    if signal.AlreadyAborted? { assert Decided(signal, early).Some? by { DecidedAtOnce(signal, early); } }
  }

  lemma DecidedAtOnce(signal: Signal, ms: seq<Moment>)
    requires signal.AlreadyAborted?
    ensures Decided(signal, ms).Some?
  {
  }

  lemma DoneForGood(a: Adapter, m: Moment, parse: string -> Parsed)
    requires a.done && (m.Other? ==> !m.input.Stdout?)
    ensures OnMoment(a, m, parse).done && OnMoment(a, m, parse).delivered == a.delivered
  {
  }

  lemma LineStands(signal: Signal, early: seq<Moment>, p: Parsed, a: Adapter)
    requires Stands(signal, early, a) && !a.done
    ensures Stands(signal, early + [Line(p)], OnLine(a, p))
  {
    hide Decided, LatestOutput, ErrorOutput, SomeOutput, StreamOf;
    DecidedMore(signal, early, Line(p));
    StreamMore(signal, early, Line(p));
    ReadingMore(early, Line(p));
  }

  lemma OtherStands(signal: Signal, early: seq<Moment>, i: Input, a: Adapter, parse: string -> Parsed)
    requires Stands(signal, early, a) && !a.done && !i.Stdout?
    ensures Stands(signal, early + [Other(i)], Handle(a, i, parse))
  {
    hide Decided, LatestOutput, ErrorOutput, SomeOutput, StreamOf;
    DecidedMore(signal, early, Other(i));
    StreamMore(signal, early, Other(i));
    ReadingMore(early, Other(i));
  }

  lemma MomentStands(signal: Signal, early: seq<Moment>, m: Moment, a: Adapter, parse: string -> Parsed)
    requires Stands(signal, early, a) && (m.Other? ==> !m.input.Stdout?)
    ensures Stands(signal, early + [m], OnMoment(a, m, parse))
  {
    hide Decided, LatestOutput, ErrorOutput, SomeOutput, StreamOf, OnLine, Handle;
    if a.done {
      DecidedMore(signal, early, m);
      StreamMore(signal, early, m);
      DoneForGood(a, m, parse);
    } else {
      match m
      case Line(p) => LineStands(signal, early, p, a);
      case Other(i) => OtherStands(signal, early, i, a, parse);
    }
  }

  lemma {:induction false} MomentsStand(signal: Signal, ms: seq<Moment>, parse: string -> Parsed)
    requires forall m :: m in ms && m.Other? ==> !m.input.Stdout?
    ensures Stands(signal, ms, OnMoments(Open(signal), ms, parse))
    decreases |ms|
  {
    hide Stands, OnMoment, OnMoments, Open;
    if ms == [] {
      NoMoments(Open(signal), parse);
      OpenStands(signal);
    } else {
      var early, m := ms[..|ms| - 1], ms[|ms| - 1];
      assert ms == early + [m] && m in ms;
      MomentsStand(signal, early, parse);
      OneMoment(Open(signal), early, m, parse);
      MomentStands(signal, early, m, OnMoments(Open(signal), early, parse), parse);
    }
  }

  lemma OpenStands(signal: Signal)
    ensures Stands(signal, [], Open(signal))
  {
  }

  lemma {:induction false} NoChunks(buffer: string, inputs: seq<Input>, parse: string -> Parsed)
    ensures forall m :: m in Moments(buffer, inputs, parse) && m.Other? ==> !m.input.Stdout?
    decreases |inputs|
  {
    hide Complete, Lines.Partial;
    if inputs != [] {
      if inputs[0].Stdout? {
        var text := buffer + inputs[0].chunk;
        OnlyLines(Complete(text), parse);
        NoChunks(Lines.Partial(text), inputs[1..], parse);
      } else {
        NoChunks(buffer, inputs[1..], parse);
      }
    }
  }

  lemma {:induction false} OnlyLines(lines: seq<string>, parse: string -> Parsed)
    ensures forall m :: m in LinesRead(lines, parse) ==> m.Line?
  {
    hide Blank;
    if lines != [] { OnlyLines(lines[1..], parse); }
  }

  /** The final reply of a request, for every interleaving of output, aborts, process
      errors and close: that of the first moment that decides.  A result decides, with
      its text or the latest output; so does an abort before any output, a process
      error, and close, by its code, with the latest output and all of stderr.  Until
      then there is no final reply, and nothing later changes it.  Up to then the stream
      has one event for each output, showing the latest text. */
  lemma FinalReplyIs(signal: Signal, inputs: seq<Input>, parse: string -> Parsed)
    ensures var a, d := HandleAll(Open(signal), inputs, parse), Decided(signal, Moments("", inputs, parse));
            && (a.done <==> d.Some?)
            && (a.done ==> a.delivered != [] && Carried(a.delivered[|a.delivered| - 1]) == d.value)
            && a.delivered == StreamOf(signal, Moments("", inputs, parse))
  {
    hide HandleAll, Moments, OnMoments, Decided, LatestOutput, ErrorOutput, SomeOutput, StreamOf;
    InputsAreMoments(Open(signal), inputs, parse);
    NoChunks("", inputs, parse);
    MomentsStand(signal, Moments("", inputs, parse), parse);
  }

  /** The request counts as finalized from its first result on. */
  lemma {:induction false} ResultsFinalize(a: Adapter, ms: seq<Moment>, parse: string -> Parsed)
    requires forall m :: m in ms && m.Other? ==> !m.input.Stdout?
    ensures OnMoments(a, ms, parse).finalized
       <==> a.finalized || exists k :: 0 <= k < |ms| && ms[k].Line? && ms[k].parsed.Result?
    decreases |ms|
  {
    if ms != [] {
      var m, rest := ms[0], ms[1..];
      assert m in ms && forall x :: x in rest ==> x in ms;
      ResultsFinalize(OnMoment(a, m, parse), rest, parse);
      OneFinalizes(a, m, parse);
      assert ms == [m] + rest;
    }
  }

  lemma OneFinalizes(a: Adapter, m: Moment, parse: string -> Parsed)
    requires m.Other? ==> !m.input.Stdout?
    ensures OnMoment(a, m, parse).finalized <==> a.finalized || (m.Line? && m.parsed.Result?)
  {
  }

  // ----- The abort handler -----

  /** An abort is listened for until there is one, or the process has closed. */
  lemma {:induction false} Listens(a: Adapter, inputs: seq<Input>, parse: string -> Parsed)
    ensures HandleAll(a, inputs, parse).listening
       <==> a.listening && forall k :: 0 <= k < |inputs| ==> !inputs[k].Abort? && !inputs[k].Close?
    decreases |inputs|
  {
    hide OnLines, Complete, Partial;
    if inputs != [] {
      var next, rest := Handle(a, inputs[0], parse), inputs[1..];
      if inputs[0].Stdout? {
        var text := a.lineBuf + inputs[0].chunk;
        LinesKeepListening(a.(lineBuf := Partial(text)), Complete(text), parse);
      }
      Listens(next, rest, parse);
      assert inputs == [inputs[0]] + rest;
    }
  }

  // ----- As a provider of the run loop -----

  function AsProvided(d: seq<StreamEvent>): (evs: seq<ProviderEvent>)
    ensures |evs| == |d|
  {
    seq(|d|, k requires 0 <= k < |d| =>
      if Terminal(d[k]) then Finished else if d[k].Start? then Started(Carried(d[k])) else Delta(Carried(d[k])))
  }

  /** What the run loop sees of a finished request. */
  function ProviderOf(a: Adapter): Provider
    requires a.delivered != []
  {
    Provider(AsProvided(a.delivered), Carried(a.delivered[|a.delivered| - 1]), Exhausted)
  }

  lemma {:induction false} DeltasThenFinish(evs: seq<ProviderEvent>)
    requires evs != [] && evs[|evs| - 1].Finished?
    requires forall k :: 0 <= k < |evs| - 1 ==> evs[k].Delta?
    ensures Finishes(evs) && Starts(evs) == 0
  {
    if |evs| > 1 { DeltasThenFinish(evs[1..]); }
  }

  /** The adapter satisfies the stream contract of the run loop: every finished
      request is a conforming provider whose reply holds one text and no call. */
  lemma AdapterConforms(a: Adapter)
    requires Grammatical(a) && a.done
    ensures Conforming(ProviderOf(a)) && Calls(ProviderOf(a).final.content) == []
  {
    var d, evs := a.delivered, AsProvided(a.delivered);
    var last := |d| - 1;
    assert evs[last].Finished?;
    forall k | 0 < k < last ensures evs[k].Delta? {
      assert d[..last][k] == d[k];
    }
    if last > 0 {
      assert d[..last][0] == d[0];
      assert evs[0].Started?;
      DeltasThenFinish(evs[1..]);
    } else {
      DeltasThenFinish(evs);
    }
    var content := ProviderOf(a).final.content;
    assert content[1..] == [];
  }

  // ----- The handlers as imperative code -----

  class ClaudeCodeStream {
    const parse: string -> Parsed
    var emittedStart: bool
    var finalized: bool
    var lastText: string
    var lineBuf: string
    var stderr: string
    var listening: bool
    /** The event stream. */
    var delivered: seq<StreamEvent>
    var done: bool

    function Now(): Adapter
      reads this
    {
      Adapter(emittedStart, finalized, lastText, lineBuf, stderr, listening, delivered, done)
    }

    constructor (signal: Signal, parse: string -> Parsed)
      ensures Now() == Open(signal) && this.parse == parse
    {
      this.parse := parse;
      emittedStart, finalized, lastText, lineBuf, stderr := false, false, "", "", "";
      listening, delivered, done := signal.Pending?, [], false;
      new;
      if signal.AlreadyAborted? { PushEvent(Fail(ABORTED)); }
    }

    method PushEvent(e: StreamEvent)
      modifies this`delivered, this`done
      ensures Now() == Push(old(Now()), e)
    {
      if done { return; }
      if Terminal(e) { done := true; }
      delivered := delivered + [e];
    }

    method OnData(chunk: string)
      modifies this
      ensures Now() == Handle(old(Now()), Stdout(chunk), parse)
    {
      hide Complete, Partial, Blank, OnLine;
      lineBuf := lineBuf + chunk;
      var lines := Split(lineBuf);
      SplitThenPop(lineBuf);
      lineBuf := lines[|lines| - 1];
      lines := lines[..|lines| - 1];
      for i := 0 to |lines|
        invariant OnLines(Now(), lines[i..], parse) == Handle(old(Now()), Stdout(chunk), parse)
      {
        assert lines[i..][0] == lines[i] && lines[i..][1..] == lines[i + 1..];
        if Blank(lines[i]) { continue; }
        HandleLine(parse(lines[i]));
      }
    }

    method HandleLine(line: Parsed)
      modifies this
      ensures Now() == OnLine(old(Now()), line)
    {
      match line {
        case Unparsable =>
        case Irrelevant =>
        case AssistantOutput(text) =>
          if text != "" { lastText := text; }
          if !emittedStart {
            emittedStart := true;
            PushEvent(Start(TextReply(lastText, Stop, None)));
          } else {
            PushEvent(TextDelta(TextReply(lastText, Stop, None)));
          }
        case Result(result, isError) =>
          HandleResult(result, isError);
      }
    }

    method HandleResult(result: Option<string>, isError: bool)
      modifies this
      ensures Now() == OnLine(old(Now()), Result(result, isError))
    {
      var resultText := if result.Some? then result.value else lastText;
      var msg := if isError then TextReply(resultText, Error, Some(resultText)) else TextReply(resultText, Stop, None);
      if !emittedStart {
        emittedStart := true;
        PushEvent(Start(msg));
      }
      finalized := true;
      if isError {
        PushEvent(Fail(msg));
      } else {
        PushEvent(Finish(msg));
      }
    }

    method OnAbort()
      modifies this
      ensures Now() == Handle(old(Now()), Abort, parse)
    {
      if listening {
        listening := false;
        if !emittedStart { PushEvent(Fail(ABORTED)); }
      }
    }

    method OnProcessError(message: string)
      modifies this
      ensures Now() == Handle(old(Now()), ProcessError(message), parse)
    {
      var msg := TextReply("", Error, Some(message));
      if !emittedStart { PushEvent(Start(msg)); }
      PushEvent(Fail(msg));
    }

    method OnProcessClose(code: string)
      modifies this
      ensures Now() == Handle(old(Now()), Close(code), parse)
    {
      listening := false;
      if finalized { return; }
      var msg := TextReply(lastText, Stop, None);
      if code != "0" {
        msg := TextReply(lastText, Error, Some("claude exited with code " + code + ": " + stderr));
      }
      if !emittedStart { PushEvent(Start(msg)); }
      if code != "0" {
        PushEvent(Fail(msg));
      } else {
        PushEvent(Finish(msg));
      }
    }
  }
}
