/** The values that flow through an agent run: messages, tool calls and the
    events a run emits.  Timestamps, usage counters and image blocks carry no
    control flow and are not represented. */
module Messages {

  datatype Option<+T> = None | Some(value: T)

  datatype StopReason = Stop | Length | ToolUse | Error | Aborted

  datatype Call = Call(id: string, name: string, args: string)

  datatype Block = Text(text: string) | Thinking(thinking: string) | ToolCall(call: Call) | ServerSide

  /** An AssistantMessage. */
  datatype Reply = Reply(content: seq<Block>, stop: StopReason, errorMessage: Option<string>)

  /** An AgentToolResult together with its error flag. */
  datatype Outcome = Outcome(content: string, details: string, isError: bool)

  datatype Message =
    | User(text: string)
    | Custom(text: string)
    | Assistant(reply: Reply)
    | ToolResult(callId: string, toolName: string, outcome: Outcome)

  datatype Event =
    | AgentStart
    | AgentEnd(messages: seq<Message>)
    | TurnStart
    | TurnEnd(reply: Reply, results: seq<Message>)
    | MessageStart(message: Message)
    | MessageUpdate(message: Message)
    | MessageEnd(message: Message)
    | ToolStart(call: Call)
    | ToolUpdate(call: Call, partial: string)
    | ToolEnd(call: Call, outcome: Outcome)

  /** The tool calls of a reply, in source order. */
  function Calls(blocks: seq<Block>): seq<Call> {
    if blocks == [] then []
    else if blocks[0].ToolCall? then [blocks[0].call] + Calls(blocks[1..])
    else Calls(blocks[1..])
  }

  function Ids(calls: seq<Call>): seq<string> {
    seq(|calls|, i requires 0 <= i < |calls| => calls[i].id)
  }

  predicate Distinct<T(==)>(s: seq<T>) {
    forall i, j :: 0 <= i < j < |s| ==> s[i] != s[j]
  }

  /** One block is one call, if it is a tool call. */
  lemma CallsOfOne(b: Block)
    ensures Calls([b]) == if b.ToolCall? then [b.call] else []
  {
    assert [b][1..] == [];
  }

  lemma {:induction false} CallsAppend(a: seq<Block>, b: seq<Block>)
    ensures Calls(a + b) == Calls(a) + Calls(b)
  {
    if a == [] {
      assert a + b == b;
    } else {
      assert (a + b)[1..] == a[1..] + b;
      CallsAppend(a[1..], b);
    }
  }

  /** The calls of a reply are its tool-call blocks, all of them and nothing else, in
      order: block `k`, if it is one, comes right after the calls of the blocks before. */
  lemma CallBlocks(blocks: seq<Block>, k: nat)
    requires k < |blocks|
    ensures blocks[k].ToolCall? ==> Calls(blocks[..k]) + [blocks[k].call] <= Calls(blocks)
    ensures |Calls(blocks[..k + 1])| == |Calls(blocks[..k])| + (if blocks[k].ToolCall? then 1 else 0)
    ensures Calls(blocks[..0]) == [] && Calls(blocks[..|blocks|]) == Calls(blocks)
  {
    hide Calls;
    var early, b, late := blocks[..k], blocks[k], blocks[k + 1..];
    assert blocks[..k + 1] == early + [b] && blocks == (early + [b]) + late;
    CallsAppend(early, [b]);
    CallsAppend(early + [b], late);
    CallsOfOne(b);
    assert blocks[..0] == [] && Calls([]) == [] by { NoCalls(); }
    assert blocks[..|blocks|] == blocks;
  }

  lemma NoCalls()
    ensures Calls([]) == []
  {
  }

  /** Every call comes from such a block. */
  lemma {:induction false} CallsComeFromBlocks(blocks: seq<Block>, c: Call)
    ensures c in Calls(blocks) <==> ToolCall(c) in blocks
  {
    if blocks != [] {
      CallsComeFromBlocks(blocks[1..], c);
      assert blocks == [blocks[0]] + blocks[1..];
    }
  }
}

/** What a consumer reads out of an event log: the transcript it rebuilds, the
    tool calls it believes are running, and whether the log is well bracketed. */
module Events {
  import opened Messages

  /** emitMessagePair for each message in turn. */
  function Pairs(ms: seq<Message>): seq<Event> {
    if ms == [] then [] else [MessageStart(ms[0]), MessageEnd(ms[0])] + Pairs(ms[1..])
  }

  /** The messages a log commits, in order: one per message_end. */
  function Transcript(es: seq<Event>): seq<Message> {
    if es == [] then []
    else if es[0].MessageEnd? then [es[0].message] + Transcript(es[1..])
    else Transcript(es[1..])
  }

  function StartedCalls(es: seq<Event>): seq<Call> {
    if es == [] then []
    else if es[0].ToolStart? then [es[0].call] + StartedCalls(es[1..])
    else StartedCalls(es[1..])
  }

  function EndedCalls(es: seq<Event>): seq<Call> {
    if es == [] then []
    else if es[0].ToolEnd? then [es[0].call] + EndedCalls(es[1..])
    else EndedCalls(es[1..])
  }

  function StripUpdates(es: seq<Event>): seq<Event> {
    if es == [] then []
    else if es[0].ToolUpdate? then StripUpdates(es[1..])
    else [es[0]] + StripUpdates(es[1..])
  }

  /** _updatePendingToolCalls on one event. */
  function UpdatePending(open: set<string>, e: Event): set<string> {
    match e
    case ToolStart(c) => open + {c.id}
    case ToolEnd(c, _) => open - {c.id}
    case _ => open
  }

  /** The Agent's pendingToolCalls set after consuming `es`. */
  function PendingIds(open: set<string>, es: seq<Event>): set<string>
    decreases |es|
  {
    if es == [] then open else PendingIds(UpdatePending(open, es[0]), es[1..])
  }

  /** Strict pairing: a start opens an id that is not open, an end closes one
      that is. */
  predicate Pairable(open: set<string>, e: Event) {
    && (e.ToolStart? ==> e.call.id !in open)
    && (e.ToolEnd? ==> e.call.id in open)
  }

  predicate Paired(open: set<string>, es: seq<Event>)
    decreases |es|
  {
    es == [] || (Pairable(open, es[0]) && Paired(UpdatePending(open, es[0]), es[1..]))
  }

  /** Where a well-bracketed log stands. */
  datatype Place = Before | Opened | Between | InTurn | InMessage(open: Message) | Closed | Broken

  function Move(p: Place, e: Event): Place {
    match p
    case Before => if e.AgentStart? then Opened else Broken
    case Opened => if e.TurnStart? then InTurn else Broken
    case Between =>
      if e.TurnStart? then InTurn else if e.AgentEnd? then Closed else Broken
    case InTurn =>
      if e.MessageStart? then InMessage(e.message)
      else if e.TurnEnd? then Between
      else if e.ToolStart? || e.ToolUpdate? || e.ToolEnd? then InTurn
      else Broken
    case InMessage(m) =>
      if e.MessageUpdate? && m.Assistant? && e.message.Assistant? then p
      else if e.MessageEnd? && (e.message == m || (m.Assistant? && e.message.Assistant?)) then InTurn
      else Broken
    case Closed => Broken
    case Broken => Broken
  }

  function Scan(p: Place, es: seq<Event>): Place
    decreases |es|
  {
    if es == [] then p else Scan(Move(p, es[0]), es[1..])
  }

  /** agent_start, bracketed turns (at least one), one final agent_end; every
      message closed before the next opens. */
  predicate WellBracketed(es: seq<Event>) {
    Scan(Before, es) == Closed
  }

  // ----- All of these readings distribute over concatenation. -----

  lemma {:induction false} TranscriptSplit(a: seq<Event>, b: seq<Event>)
    ensures Transcript(a + b) == Transcript(a) + Transcript(b)
  {
    if a == [] {
      assert a + b == b;
    } else {
      assert (a + b)[1..] == a[1..] + b;
      TranscriptSplit(a[1..], b);
    }
  }

  lemma {:induction false} StartedSplit(a: seq<Event>, b: seq<Event>)
    ensures StartedCalls(a + b) == StartedCalls(a) + StartedCalls(b)
  {
    if a == [] {
      assert a + b == b;
    } else {
      assert (a + b)[1..] == a[1..] + b;
      StartedSplit(a[1..], b);
    }
  }

  lemma {:induction false} EndedSplit(a: seq<Event>, b: seq<Event>)
    ensures EndedCalls(a + b) == EndedCalls(a) + EndedCalls(b)
  {
    if a == [] {
      assert a + b == b;
    } else {
      assert (a + b)[1..] == a[1..] + b;
      EndedSplit(a[1..], b);
    }
  }

  lemma {:induction false} StripSplit(a: seq<Event>, b: seq<Event>)
    ensures StripUpdates(a + b) == StripUpdates(a) + StripUpdates(b)
  {
    if a == [] {
      assert a + b == b;
    } else {
      assert (a + b)[1..] == a[1..] + b;
      StripSplit(a[1..], b);
    }
  }

  lemma {:induction false} ScanSplit(p: Place, a: seq<Event>, b: seq<Event>)
    ensures Scan(p, a + b) == Scan(Scan(p, a), b)
    decreases |a|
  {
    if a == [] {
      assert a + b == b;
    } else {
      assert (a + b)[1..] == a[1..] + b;
      ScanSplit(Move(p, a[0]), a[1..], b);
    }
  }

  lemma {:induction false} PendingSplit(open: set<string>, a: seq<Event>, b: seq<Event>)
    ensures PendingIds(open, a + b) == PendingIds(PendingIds(open, a), b)
    ensures Paired(open, a + b) <==> Paired(open, a) && Paired(PendingIds(open, a), b)
    decreases |a|
  {
    if a == [] {
      assert a + b == b;
    } else {
      assert (a + b)[1..] == a[1..] + b;
      PendingSplit(UpdatePending(open, a[0]), a[1..], b);
    }
  }

  lemma {:induction false} BrokenStays(es: seq<Event>)
    ensures Scan(Broken, es) == Broken
  {
    if es != [] { BrokenStays(es[1..]); }
  }

  lemma {:induction false} PairsFacts(ms: seq<Message>, open: set<string>)
    ensures Transcript(Pairs(ms)) == ms
    ensures StartedCalls(Pairs(ms)) == [] && EndedCalls(Pairs(ms)) == []
    ensures Scan(InTurn, Pairs(ms)) == InTurn
    ensures PendingIds(open, Pairs(ms)) == open && Paired(open, Pairs(ms))
  {
    if ms != [] {
      PairsFacts(ms[1..], open);
      PairFacts(ms[0], open);
      var two := [MessageStart(ms[0]), MessageEnd(ms[0])];
      TranscriptSplit(two, Pairs(ms[1..]));
      StartedSplit(two, Pairs(ms[1..]));
      EndedSplit(two, Pairs(ms[1..]));
      ScanSplit(InTurn, two, Pairs(ms[1..]));
      PendingSplit(open, two, Pairs(ms[1..]));
    }
  }

  lemma PairFacts(m: Message, open: set<string>)
    ensures var two := [MessageStart(m), MessageEnd(m)];
            && Transcript(two) == [m] && StartedCalls(two) == [] && EndedCalls(two) == []
            && Scan(InTurn, two) == InTurn
            && PendingIds(open, two) == open && Paired(open, two)
  {
    var two := [MessageStart(m), MessageEnd(m)];
    var last := two[1..];
    assert last == [MessageEnd(m)] && last[1..] == [];
    assert Transcript(last[1..]) == [] && StartedCalls(last[1..]) == [] && EndedCalls(last[1..]) == [];
    assert Transcript(last) == [m] && StartedCalls(last) == [] && EndedCalls(last) == [];
    assert Scan(InMessage(m), last) == InTurn;
    assert PendingIds(open, last) == open && Paired(open, last);
  }

  lemma {:induction false} NoTools(es: seq<Event>, open: set<string>)
    requires StartedCalls(es) == [] && EndedCalls(es) == []
    ensures PendingIds(open, es) == open && Paired(open, es)
  {
    if es != [] { NoTools(es[1..], open); }
  }

  /** Under strict pairing every id in the Agent's set has one more start than
      ends, and every other id has as many ends as starts. */
  lemma {:induction false} PendingIsStartedNotEnded(open: set<string>, es: seq<Event>, id: string)
    requires Paired(open, es)
    ensures Count(StartedCalls(es), id) + (if id in open then 1 else 0)
         == Count(EndedCalls(es), id) + (if id in PendingIds(open, es) then 1 else 0)
    decreases |es|
  {
    if es != [] {
      PendingIsStartedNotEnded(UpdatePending(open, es[0]), es[1..], id);
      var s, e := StartedCalls(es[1..]), EndedCalls(es[1..]);
      if es[0].ToolStart? { assert ([es[0].call] + s)[1..] == s; }
      if es[0].ToolEnd? { assert ([es[0].call] + e)[1..] == e; }
    }
  }

  function Count(cs: seq<Call>, id: string): nat {
    if cs == [] then 0 else (if cs[0].id == id then 1 else 0) + Count(cs[1..], id)
  }

  // ----- Pieces of a turn -----

  /** A piece of a turn: it starts and ends between messages, and these are the
      calls it starts and ends and the messages it commits. */
  predicate Piece(es: seq<Event>, started: seq<Call>, ended: seq<Call>, ms: seq<Message>) {
    && Scan(InTurn, es) == InTurn
    && StartedCalls(es) == started && EndedCalls(es) == ended
    && Transcript(es) == ms
  }

  lemma JoinPieces(a: seq<Event>, s: seq<Call>, e: seq<Call>, m: seq<Message>,
                   b: seq<Event>, s': seq<Call>, e': seq<Call>, m': seq<Message>,
                   s'': seq<Call>, e'': seq<Call>, m'': seq<Message>)
    requires Piece(a, s, e, m) && Piece(b, s', e', m')
    requires s'' == s + s' && e'' == e + e' && m'' == m + m'
    ensures Piece(a + b, s'', e'', m'')
  {
    ScanSplit(InTurn, a, b);
    StartedSplit(a, b);
    EndedSplit(a, b);
    TranscriptSplit(a, b);
  }
}
