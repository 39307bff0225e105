/** streamProxy as imperative code: one partial message updated in place. */
module ProxyMethods {
  import opened Messages
  import opened Lines
  import opened Proxy

  class ProxyStream {
    const parse: string -> Data
    /** The fields of `partial`. */
    var content: map<nat, Slot>
    var stopReason: StopReason
    var errorMessage: Option<string>
    var usage: nat
    /** The event stream. */
    var delivered: seq<Pushed>
    var done: bool

    function Message(): Proxy.Partial
      reads this
    {
      Proxy.Partial(content, stopReason, errorMessage, usage)
    }

    function State(error: Option<string>): Reading
      reads this
    {
      Reading(Message(), delivered, done, error)
    }

    constructor (parse: string -> Data)
      ensures State(None) == IDLE && this.parse == parse
    {
      this.parse, content, stopReason, errorMessage, usage := parse, map[], Stop, None, 0;
      delivered, done := [], false;
    }

    method PushEvent(x: Pushed)
      modifies this`delivered, this`done
      ensures State(None) == Push(old(State(None)), x)
    {
      if done { return; }
      delivered := delivered + [x];
      if x.Finishes? || x.Fails? { done := true; }
    }

    method ProcessProxyEvent(e: ProxyEvent) returns (pushed: Option<Pushed>, thrown: Option<string>)
      modifies this`content, this`stopReason, this`errorMessage, this`usage
      ensures Did(Process(old(Message()), e), old(Message()), pushed, thrown)
    {
      pushed, thrown := None, None;
      match e {
        case Start => pushed := Some(Opens);
        case TextStart(i) =>
          content := content[i := TextSlot("", None)];
          pushed := Some(OpensText(i));
        case ThinkingStart(i) =>
          content := content[i := ThinkingSlot("", None)];
          pushed := Some(OpensThinking(i));
        case ToolStart(i, id, name) =>
          content := content[i := ToolSlot(id, name, NoArguments, Some(""))];
          pushed := Some(OpensTool(i));
        case Done(reason, u) =>
          stopReason, usage := reason, u;
          pushed := Some(Finishes(reason));
        case Failed(reason, m, u) =>
          stopReason, errorMessage, usage := reason, m, u;
          pushed := Some(Fails(reason));
        case TextDelta(_, _) => pushed, thrown := ProcessTextEvent(e);
        case TextEnd(_, _) => pushed, thrown := ProcessTextEvent(e);
        case ThinkingDelta(_, _) => pushed, thrown := ProcessThinkingEvent(e);
        case ThinkingEnd(_, _) => pushed, thrown := ProcessThinkingEvent(e);
        case ToolDelta(_, _) => pushed, thrown := ProcessToolEvent(e);
        case ToolEnd(_) => pushed, thrown := ProcessToolEvent(e);
      }
    }

    /** What a processed event did. */
    ghost predicate Did(r: Processed, before: Proxy.Partial, pushed: Option<Pushed>, thrown: Option<string>)
      reads this
    {
      match r
      case Pushes(x, p) => pushed == Some(x) && thrown == None && Message() == p
      case Silent(p) => pushed == None && thrown == None && Message() == p
      case Throws(error) => pushed == None && thrown == Some(error) && Message() == before
    }

    method ProcessTextEvent(e: ProxyEvent) returns (pushed: Option<Pushed>, thrown: Option<string>)
      requires e.TextDelta? || e.TextEnd?
      modifies this`content
      ensures Did(Process(old(Message()), e), old(Message()), pushed, thrown)
    {
      pushed, thrown := None, None;
      var i := e.index;
      if i in content && content[i].TextSlot? {
        match e {
          case TextDelta(_, d) =>
            content := content[i := content[i].(text := content[i].text + d)];
            pushed := Some(SaysText(i, d));
          case TextEnd(_, signature) =>
            content := content[i := content[i].(textSignature := signature)];
            pushed := Some(ClosesText(i, content[i].text));
        }
      } else {
        thrown := Some(if e.TextDelta? then "Received text_delta for non-text content"
                       else "Received text_end for non-text content");
      }
    }

    method ProcessThinkingEvent(e: ProxyEvent) returns (pushed: Option<Pushed>, thrown: Option<string>)
      requires e.ThinkingDelta? || e.ThinkingEnd?
      modifies this`content
      ensures Did(Process(old(Message()), e), old(Message()), pushed, thrown)
    {
      pushed, thrown := None, None;
      var i := e.index;
      if i in content && content[i].ThinkingSlot? {
        match e {
          case ThinkingDelta(_, d) =>
            content := content[i := content[i].(thinking := content[i].thinking + d)];
            pushed := Some(SaysThinking(i, d));
          case ThinkingEnd(_, signature) =>
            content := content[i := content[i].(thinkingSignature := signature)];
            pushed := Some(ClosesThinking(i, content[i].thinking));
        }
      } else {
        thrown := Some(if e.ThinkingDelta? then "Received thinking_delta for non-thinking content"
                       else "Received thinking_end for non-thinking content");
      }
    }

    method ProcessToolEvent(e: ProxyEvent) returns (pushed: Option<Pushed>, thrown: Option<string>)
      requires e.ToolDelta? || e.ToolEnd?
      modifies this`content
      ensures Did(Process(old(Message()), e), old(Message()), pushed, thrown)
    {
      pushed, thrown := None, None;
      var i := e.index;
      if i in content && content[i].ToolSlot? {
        match e {
          case ToolDelta(_, d) =>
            var json := AppendJson(content[i].partialJson, d);
            content := content[i := content[i].(partialJson := Some(json), arguments := ParseOf(json))];
            pushed := Some(SaysTool(i, d));
          case ToolEnd(_) =>
            content := content[i := content[i].(partialJson := None)];
            pushed := Some(ClosesTool(i, content[i]));
        }
      } else if e.ToolDelta? {
        thrown := Some("Received toolcall_delta for non-toolCall content");
      }
    }

    method ProcessLine(line: string) returns (thrown: Option<string>)
      modifies this
      ensures State(thrown) == OnLine(old(State(None)), line, parse)
    {
      hide Process, PayloadOf;
      thrown := None;
      var payload := PayloadOf(line);
      if payload == [] { return; }
      match parse(payload[0]) {
        case Malformed(error) => thrown := Some(error);
        case Event(e) =>
          var pushed;
          pushed, thrown := ProcessProxyEvent(e);
          if pushed.Some? { PushEvent(pushed.value); }
      }
    }

    /** The loop over the lines of one chunk; an exception leaves it. */
    method ProcessLines(lines: seq<string>) returns (thrown: Option<string>)
      modifies this
      ensures State(thrown) == OnLines(old(State(None)), lines, parse)
    {
      hide OnLine;
      thrown := None;
      for i := 0 to |lines|
        invariant thrown == None
        invariant OnLines(State(None), lines[i..], parse) == OnLines(old(State(None)), lines, parse)
      {
        assert lines[i..][0] == lines[i] && lines[i..][1..] == lines[i + 1..];
        thrown := ProcessLine(lines[i]);
        if thrown.Some? {
          IdleAfterError(State(thrown), lines[i + 1..], parse);
          return;
        }
      }
    }

    /** The body of streamProxy: `received` are the chunks read before the response
        ended, an abort was noticed, or fetching or reading failed. */
    method StreamProxy(received: seq<string>, failure: Option<string>, aborted: bool)
      requires State(None) == IDLE
      modifies this
      ensures var end := Conclude(ReadChunks(IDLE, "", received, parse), failure, aborted); State(end.error) == end
    {
      hide OnLines, Complete, Lines.Partial;
      var buffer, thrown: Option<string> := "", None;
      for i := 0 to |received|
        invariant thrown == None
        invariant ReadChunks(State(None), buffer, received[i..], parse) == ReadChunks(IDLE, "", received, parse)
      {
        assert received[i..][0] == received[i] && received[i..][1..] == received[i + 1..];
        buffer := buffer + received[i];
        var lines := Split(buffer);
        SplitThenPop(buffer);
        buffer := lines[|lines| - 1];
        lines := lines[..|lines| - 1];
        thrown := ProcessLines(lines);
        if thrown.Some? {
          NothingAfterError(State(thrown), buffer, received[i + 1..], parse);
          break;
        }
      }
      assert State(thrown) == ReadChunks(IDLE, "", received, parse);
      ghost var r := State(thrown);
      if thrown.None? {
        thrown := if failure.Some? then failure else if aborted then Some("Request aborted by user") else None;
      }
      if thrown.Some? {
        stopReason, errorMessage := if aborted then Aborted else Error, thrown;
        PushEvent(Fails(stopReason));
      }
      assert State(r.error) == Conclude(r, failure, aborted);
    }
  }
}
