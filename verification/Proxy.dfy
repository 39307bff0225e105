/** processProxyEvent and the read loop of streamProxy
    (packages/pi-agent-core/src/proxy.ts:85-334): a partial message rebuilt from
    events that carry only deltas.

    `arguments` of a tool call are the streaming parse of some text; the parser
    itself is not modelled, only the text it is given. */
module Proxy {
  import opened Messages
  import opened Lines

  datatype Arguments = NoArguments | ParseOf(json: string)

  /** One entry of partial.content; `partialJson` is None once deleted. */
  datatype Slot =
    | TextSlot(text: string, textSignature: Option<string>)
    | ThinkingSlot(thinking: string, thinkingSignature: Option<string>)
    | ToolSlot(id: string, name: string, arguments: Arguments, partialJson: Option<string>)

  datatype ProxyEvent =
    | Start
    | TextStart(index: nat)
    | TextDelta(index: nat, delta: string)
    | TextEnd(index: nat, signature: Option<string>)
    | ThinkingStart(index: nat)
    | ThinkingDelta(index: nat, delta: string)
    | ThinkingEnd(index: nat, signature: Option<string>)
    | ToolStart(index: nat, id: string, name: string)
    | ToolDelta(index: nat, delta: string)
    | ToolEnd(index: nat)
    | Done(reason: StopReason, usage: nat)
    | Failed(reason: StopReason, errorMessage: Option<string>, usage: nat)

  /** `usage` stands for the record of token counts. */
  datatype Partial = Partial(content: map<nat, Slot>, stop: StopReason, errorMessage: Option<string>, usage: nat)

  /** An event pushed to the stream, with its own fields; every one also refers to the
      one partial message. */
  datatype Pushed =
    | Opens
    | OpensText(index: nat)
    | SaysText(index: nat, delta: string)
    | ClosesText(index: nat, content: string)
    | OpensThinking(index: nat)
    | SaysThinking(index: nat, delta: string)
    | ClosesThinking(index: nat, content: string)
    | OpensTool(index: nat)
    | SaysTool(index: nat, delta: string)
    | ClosesTool(index: nat, toolCall: Slot)
    | Finishes(reason: StopReason)
    | Fails(reason: StopReason)

  datatype Processed = Pushes(pushed: Pushed, partial: Partial) | Silent(partial: Partial) | Throws(error: string)

  const EMPTY := Partial(map[], Stop, None, 0)

  function SetSlot(p: Partial, i: nat, s: Slot): Partial { p.(content := p.content[i := s]) }

  /** What `partialJson += delta` gives: a deleted field reads as undefined. */
  function AppendJson(json: Option<string>, delta: string): string {
    (if json.Some? then json.value else "undefined") + delta
  }

  predicate IsText(p: Partial, i: nat) { i in p.content && p.content[i].TextSlot? }
  predicate IsThinking(p: Partial, i: nat) { i in p.content && p.content[i].ThinkingSlot? }
  predicate IsTool(p: Partial, i: nat) { i in p.content && p.content[i].ToolSlot? }

  function Process(p: Partial, e: ProxyEvent): Processed {
    match e
    case Start => Pushes(Opens, p)
    case TextStart(i) => Pushes(OpensText(i), SetSlot(p, i, TextSlot("", None)))
    case TextDelta(i, d) =>
      if IsText(p, i) then Pushes(SaysText(i, d), SetSlot(p, i, p.content[i].(text := p.content[i].text + d)))
      else Throws("Received text_delta for non-text content")
    case TextEnd(i, sig) =>
      if IsText(p, i) then
        Pushes(ClosesText(i, p.content[i].text), SetSlot(p, i, p.content[i].(textSignature := sig)))
      else Throws("Received text_end for non-text content")
    case ThinkingStart(i) => Pushes(OpensThinking(i), SetSlot(p, i, ThinkingSlot("", None)))
    case ThinkingDelta(i, d) =>
      if IsThinking(p, i) then
        Pushes(SaysThinking(i, d), SetSlot(p, i, p.content[i].(thinking := p.content[i].thinking + d)))
      else Throws("Received thinking_delta for non-thinking content")
    case ThinkingEnd(i, sig) =>
      if IsThinking(p, i) then
        Pushes(ClosesThinking(i, p.content[i].thinking), SetSlot(p, i, p.content[i].(thinkingSignature := sig)))
      else Throws("Received thinking_end for non-thinking content")
    case ToolStart(i, id, name) => Pushes(OpensTool(i), SetSlot(p, i, ToolSlot(id, name, NoArguments, Some(""))))
    case ToolDelta(i, d) =>
      if IsTool(p, i) then
        var json := AppendJson(p.content[i].partialJson, d);
        Pushes(SaysTool(i, d), SetSlot(p, i, p.content[i].(partialJson := Some(json), arguments := ParseOf(json))))
      else Throws("Received toolcall_delta for non-toolCall content")
    case ToolEnd(i) =>
      if IsTool(p, i) then
        var ended := p.content[i].(partialJson := None);
        Pushes(ClosesTool(i, ended), SetSlot(p, i, ended))
      else Silent(p)
    case Done(reason, usage) => Pushes(Finishes(reason), p.(stop := reason, usage := usage))
    case Failed(reason, m, usage) => Pushes(Fails(reason), p.(stop := reason, errorMessage := m, usage := usage))
  }

  /** A pushed event, and the partial message as it stood then. */
  datatype Seen = Seen(pushed: Pushed, partial: Partial)

  /** Processing in turn; None when some event throws. */
  function ProcessAll(p: Partial, es: seq<ProxyEvent>): Option<(Partial, seq<Seen>)> {
    if es == [] then Some((p, []))
    else
      match ProcessAll(p, es[..|es| - 1])
      case None => None
      case Some((q, seen)) =>
        match Process(q, es[|es| - 1])
        case Pushes(x, r) => Some((r, seen + [Seen(x, r)]))
        case Silent(r) => Some((r, seen))
        case Throws(_) => None
  }

  // ----- What was said about one content index -----

  datatype Kind = TextKind | ThinkingKind | ToolKind(id: string, name: string)

  /** A delta or an end. */
  datatype Piece = Said(delta: string) | Ended(signature: Option<string>)

  /** The kind of the latest start at an index, and the pieces since. */
  datatype Story = Untold | Story(kind: Kind, pieces: seq<Piece>)

  function Tell(s: Story, i: nat, e: ProxyEvent): Story {
    match e
    case TextStart(j) => if i == j then Story(TextKind, []) else s
    case ThinkingStart(j) => if i == j then Story(ThinkingKind, []) else s
    case ToolStart(j, id, name) => if i == j then Story(ToolKind(id, name), []) else s
    case TextDelta(j, d) => More(s, i == j, Said(d))
    case ThinkingDelta(j, d) => More(s, i == j, Said(d))
    case ToolDelta(j, d) => More(s, i == j, Said(d))
    case TextEnd(j, sig) => More(s, i == j, Ended(sig))
    case ThinkingEnd(j, sig) => More(s, i == j, Ended(sig))
    case ToolEnd(j) => if s.Story? && s.kind.ToolKind? then More(s, i == j, Ended(None)) else s
    case _ => s
  }

  function More(s: Story, here: bool, piece: Piece): Story {
    if here && s.Story? then s.(pieces := s.pieces + [piece]) else s
  }

  function StoryOf(es: seq<ProxyEvent>, i: nat): Story {
    if es == [] then Untold else Tell(StoryOf(es[..|es| - 1], i), i, es[|es| - 1])
  }

  /** Everything said, joined. */
  function AllSaid(pieces: seq<Piece>): string {
    if pieces == [] then ""
    else
      var last := pieces[|pieces| - 1];
      AllSaid(pieces[..|pieces| - 1]) + (if last.Said? then last.delta else "")
  }

  function LastSignature(pieces: seq<Piece>): Option<string> {
    if pieces == [] then None
    else
      var last := pieces[|pieces| - 1];
      if last.Ended? then last.signature else LastSignature(pieces[..|pieces| - 1])
  }

  predicate SaidSomething(pieces: seq<Piece>) {
    exists k :: 0 <= k < |pieces| && pieces[k].Said?
  }

  /** The text the arguments are parsed from: an end makes the next delta start
      again from the word undefined. */
  function JsonOf(pieces: seq<Piece>): string {
    if pieces == [] then ""
    else
      var early, last := pieces[..|pieces| - 1], pieces[|pieces| - 1];
      JsonThen(early, JsonOf(early), last)
  }

  /** The text once `x` is said too, when it was `json`. */
  function JsonThen(pieces: seq<Piece>, json: string, x: Piece): string {
    if x.Ended? then json
    else (if pieces != [] && pieces[|pieces| - 1].Ended? then "undefined" else json) + x.delta
  }

  /** The slot a story amounts to. */
  function SlotOf(kind: Kind, pieces: seq<Piece>): Slot {
    match kind
    case TextKind => TextSlot(AllSaid(pieces), LastSignature(pieces))
    case ThinkingKind => ThinkingSlot(AllSaid(pieces), LastSignature(pieces))
    case ToolKind(id, name) =>
      ToolSlot(id, name, if SaidSomething(pieces) then ParseOf(JsonOf(pieces)) else NoArguments,
               if pieces != [] && pieces[|pieces| - 1].Ended? then None else Some(JsonOf(pieces)))
  }

  lemma OneMorePiece(pieces: seq<Piece>, x: Piece)
    ensures AllSaid(pieces + [x]) == AllSaid(pieces) + (if x.Said? then x.delta else "")
    ensures LastSignature(pieces + [x]) == if x.Ended? then x.signature else LastSignature(pieces)
    ensures SaidSomething(pieces + [x]) <==> SaidSomething(pieces) || x.Said?
    ensures JsonOf(pieces + [x])
         == if x.Ended? then JsonOf(pieces)
            else (if pieces != [] && pieces[|pieces| - 1].Ended? then "undefined" else JsonOf(pieces)) + x.delta
  {
    assert (pieces + [x])[..|pieces|] == pieces;
    if SaidSomething(pieces) {
      var k :| 0 <= k < |pieces| && pieces[k].Said?;
      assert (pieces + [x])[k].Said?;
    }
    if x.Said? { assert (pieces + [x])[|pieces|].Said?; }
  }

  lemma StoryStep(es: seq<ProxyEvent>, e: ProxyEvent, i: nat)
    ensures StoryOf(es + [e], i) == Tell(StoryOf(es, i), i, e)
  {
    assert (es + [e])[..|es|] == es;
  }

  /** The content index an event is about. */
  function IndexOfEvent(e: ProxyEvent): Option<nat> {
    match e
    case TextStart(i) => Some(i)
    case TextDelta(i, _) => Some(i)
    case TextEnd(i, _) => Some(i)
    case ThinkingStart(i) => Some(i)
    case ThinkingDelta(i, _) => Some(i)
    case ThinkingEnd(i, _) => Some(i)
    case ToolStart(i, _, _) => Some(i)
    case ToolDelta(i, _) => Some(i)
    case ToolEnd(i) => Some(i)
    case _ => None
  }

  /** An accepted event leaves every other index alone. */
  lemma OthersUntouched(p: Partial, e: ProxyEvent, s: Story, i: nat)
    requires !Process(p, e).Throws? && IndexOfEvent(e) != Some(i)
    ensures var q := Process(p, e).partial;
            && (i in q.content <==> i in p.content) && (i in p.content ==> q.content[i] == p.content[i])
            && Tell(s, i, e) == s
  {
  }

  /** The slot agrees with the story. */
  predicate Agrees(content: map<nat, Slot>, i: nat, s: Story) {
    if s.Story? then i in content && content[i] == SlotOf(s.kind, s.pieces) else i !in content
  }

  lemma TextAgrees(p: Partial, e: ProxyEvent, i: nat, s: Story)
    requires Agrees(p.content, i, s) && IndexOfEvent(e) == Some(i) && !Process(p, e).Throws?
    requires e.TextDelta? || e.TextEnd? || e.ThinkingDelta? || e.ThinkingEnd?
    ensures Agrees(Process(p, e).partial.content, i, Tell(s, i, e))
  {
    hide AllSaid, JsonOf, LastSignature, SaidSomething;
    assert s.Story?;
    match e
    case TextDelta(_, d) => OneMorePiece(s.pieces, Said(d));
    case TextEnd(_, sig) => OneMorePiece(s.pieces, Ended(sig));
    case ThinkingDelta(_, d) => OneMorePiece(s.pieces, Said(d));
    case ThinkingEnd(_, sig) => OneMorePiece(s.pieces, Ended(sig));
  }

  lemma ToolAgrees(p: Partial, e: ProxyEvent, i: nat, s: Story)
    requires Agrees(p.content, i, s) && IndexOfEvent(e) == Some(i) && !Process(p, e).Throws?
    requires e.ToolDelta? || e.ToolEnd?
    ensures Agrees(Process(p, e).partial.content, i, Tell(s, i, e))
  {
    hide AllSaid, JsonOf, LastSignature, SaidSomething;
    if s.Story? {
      match e
      case ToolDelta(_, d) => OneMorePiece(s.pieces, Said(d));
      case ToolEnd(_) => OneMorePiece(s.pieces, Ended(None));
    }
  }

  lemma StartAgrees(p: Partial, e: ProxyEvent, i: nat, s: Story)
    requires IndexOfEvent(e) == Some(i) && (e.TextStart? || e.ThinkingStart? || e.ToolStart?)
    ensures Process(p, e).Pushes? && Agrees(Process(p, e).partial.content, i, Tell(s, i, e))
  {
    NothingSaid();
  }

  /** One accepted event changes the slots as it changes the stories. */
  lemma StepAgrees(p: Partial, es: seq<ProxyEvent>, e: ProxyEvent, i: nat)
    requires Agrees(p.content, i, StoryOf(es, i)) && !Process(p, e).Throws?
    ensures Agrees(Process(p, e).partial.content, i, StoryOf(es + [e], i))
  {
    hide Agrees, Process, Tell, StoryOf;
    var s := StoryOf(es, i);
    StoryStep(es, e, i);
    if IndexOfEvent(e) != Some(i) {
      OthersUntouched(p, e, s, i);
      SameSlot(p.content, Process(p, e).partial.content, i, s);
    } else if e.TextStart? || e.ThinkingStart? || e.ToolStart? {
      StartAgrees(p, e, i, s);
    } else if e.ToolDelta? || e.ToolEnd? {
      ToolAgrees(p, e, i, s);
    } else {
      TextAgrees(p, e, i, s);
    }
  }

  lemma SameSlot(a: map<nat, Slot>, b: map<nat, Slot>, i: nat, s: Story)
    requires Agrees(a, i, s) && (i in b <==> i in a) && (i in a ==> b[i] == a[i])
    ensures Agrees(b, i, s)
  {
  }

  lemma NothingSaid()
    ensures AllSaid([]) == "" && JsonOf([]) == "" && LastSignature([]) == None && !SaidSomething([])
  {
  }

  /** Reconstruction: after any accepted sequence of events every content index
      holds the kind of its latest start and exactly what was said since: the
      joined deltas, or for a tool call their parse. */
  lemma {:induction false} EventsRebuildContent(es: seq<ProxyEvent>, i: nat)
    requires ProcessAll(EMPTY, es).Some?
    ensures Agrees(ProcessAll(EMPTY, es).value.0.content, i, StoryOf(es, i))
    decreases |es|
  {
    hide Agrees, Process;
    if es == [] {
      NothingYet(i);
    } else {
      var early, e := es[..|es| - 1], es[|es| - 1];
      assert early + [e] == es;
      EventsRebuildContent(early, i);
      StepAgrees(ProcessAll(EMPTY, early).value.0, early, e, i);
    }
  }

  lemma NothingYet(i: nat)
    ensures Agrees(EMPTY.content, i, Untold)
  {
  }

  /** A sequence is accepted exactly when every delta, and every text or thinking
      end, follows a start of its own kind at its index with no other start
      between. */
  predicate Fits(s: Story, e: ProxyEvent) {
    match e
    case TextDelta(_, _) => s.Story? && s.kind.TextKind?
    case TextEnd(_, _) => s.Story? && s.kind.TextKind?
    case ThinkingDelta(_, _) => s.Story? && s.kind.ThinkingKind?
    case ThinkingEnd(_, _) => s.Story? && s.kind.ThinkingKind?
    case ToolDelta(_, _) => s.Story? && s.kind.ToolKind?
    case _ => true
  }

  predicate Consistent(es: seq<ProxyEvent>) {
    forall k :: 0 <= k < |es| && IndexOfEvent(es[k]).Some? ==>
      Fits(StoryOf(es[..k], IndexOfEvent(es[k]).value), es[k])
  }

  lemma FitsExactlyWhen(p: Partial, e: ProxyEvent, i: nat, s: Story)
    requires IndexOfEvent(e) == Some(i) && Agrees(p.content, i, s)
    ensures Process(p, e).Throws? <==> !Fits(s, e)
  {
    hide AllSaid, JsonOf, LastSignature, SaidSomething;
  }

  lemma IndexlessNeverThrows(p: Partial, e: ProxyEvent)
    requires IndexOfEvent(e).None?
    ensures !Process(p, e).Throws?
  {
  }

  lemma ConsistentMore(es: seq<ProxyEvent>, e: ProxyEvent)
    ensures Consistent(es + [e])
        <==> Consistent(es) && (IndexOfEvent(e).Some? ==> Fits(StoryOf(es, IndexOfEvent(e).value), e))
  {
    hide Fits, StoryOf, IndexOfEvent;
    var all := es + [e];
    assert all[..|es|] == es && all[|es|] == e;
    assert forall k :: 0 <= k < |es| ==> all[..k] == es[..k] && all[k] == es[k];
  }

  lemma {:induction false} AcceptedExactlyWhen(es: seq<ProxyEvent>)
    ensures ProcessAll(EMPTY, es).Some? <==> Consistent(es)
    decreases |es|
  {
    hide ProcessAll, Consistent;
    if es == [] {
      NothingAccepted();
    } else {
      var early, e := es[..|es| - 1], es[|es| - 1];
      AcceptedExactlyWhen(early);
      AcceptedMore(early, e);
      assert es == early + [e];
    }
  }

  lemma NothingAccepted()
    ensures ProcessAll(EMPTY, []).Some? && Consistent([])
  {
  }

  lemma ProcessMore(p: Partial, es: seq<ProxyEvent>, e: ProxyEvent)
    ensures ProcessAll(p, es + [e]).Some?
        <==> ProcessAll(p, es).Some? && !Process(ProcessAll(p, es).value.0, e).Throws?
  {
    hide Process;
    assert (es + [e])[..|es|] == es;
  }

  lemma AcceptedMore(early: seq<ProxyEvent>, e: ProxyEvent)
    requires ProcessAll(EMPTY, early).Some? <==> Consistent(early)
    ensures ProcessAll(EMPTY, early + [e]).Some? <==> Consistent(early + [e])
  {
    hide ProcessAll, Process, Fits, StoryOf, Agrees, Consistent, IndexOfEvent;
    ConsistentMore(early, e);
    ProcessMore(EMPTY, early, e);
    if ProcessAll(EMPTY, early).Some? {
      var p, i := ProcessAll(EMPTY, early).value.0, IndexOfEvent(e);
      if i.None? {
        IndexlessNeverThrows(p, e);
      } else {
        EventsRebuildContent(early, i.value);
        FitsExactlyWhen(p, e, i.value, StoryOf(early, i.value));
      }
    }
  }

  // ----- When the rebuilt text is the joined deltas -----

  /** The pieces up to the last end that a later delta follows, and those after it. */
  datatype Parts = Parts(before: seq<Piece>, after: seq<Piece>, reopened: bool)

  function PartsOf(pieces: seq<Piece>): (p: Parts)
    ensures pieces == p.before + p.after && (!p.reopened ==> p.before == [])
  {
    if pieces == [] then Parts([], [], false)
    else
      var early, last := pieces[..|pieces| - 1], pieces[|pieces| - 1];
      if last.Said? && early != [] && early[|early| - 1].Ended? then Parts(early, [last], true)
      else
        var p := PartsOf(early);
        Parts(p.before, p.after + [last], p.reopened)
  }

  lemma SaidMore(pieces: seq<Piece>, x: Piece)
    ensures AllSaid(pieces + [x]) == AllSaid(pieces) + (if x.Said? then x.delta else "")
  {
    assert (pieces + [x])[..|pieces|] == pieces;
  }

  lemma JsonMore(pieces: seq<Piece>, x: Piece)
    ensures JsonOf(pieces + [x])
         == if x.Ended? then JsonOf(pieces)
            else (if pieces != [] && pieces[|pieces| - 1].Ended? then "undefined" else JsonOf(pieces)) + x.delta
  {
    hide JsonOf;
    JsonUnfolds(pieces + [x]);
    assert (pieces + [x])[..|pieces|] == pieces;
  }

  lemma JsonUnfolds(pieces: seq<Piece>)
    requires pieces != []
    ensures var early, last := pieces[..|pieces| - 1], pieces[|pieces| - 1];
            JsonOf(pieces) == JsonThen(early, JsonOf(early), last)
  {
    hide JsonThen;
  }

  lemma PartsMore(pieces: seq<Piece>, x: Piece)
    ensures PartsOf(pieces + [x])
         == if x.Said? && pieces != [] && pieces[|pieces| - 1].Ended? then Parts(pieces, [x], true)
            else var p := PartsOf(pieces); Parts(p.before, p.after + [x], p.reopened)
  {
    assert (pieces + [x])[..|pieces|] == pieces;
  }

  function Lead(p: Parts): string { if p.reopened then "undefined" else "" }

  /** The text a tool call's arguments are parsed from is the text before its last
      reopening replaced by the word undefined, and then what was said since. */
  predicate JsonSplits(pieces: seq<Piece>) {
    var p := PartsOf(pieces);
    && AllSaid(pieces) == AllSaid(p.before) + AllSaid(p.after)
    && JsonOf(pieces) == Lead(p) + AllSaid(p.after)
  }

  lemma {:induction false} JsonIs(pieces: seq<Piece>)
    ensures JsonSplits(pieces)
    decreases |pieces|
  {
    hide JsonSplits;
    if pieces == [] {
      JsonStarts();
    } else {
      var early, last := pieces[..|pieces| - 1], pieces[|pieces| - 1];
      JsonIs(early);
      JsonGrows(early, last);
      assert pieces == early + [last];
    }
  }

  lemma JsonStarts()
    ensures JsonSplits([])
  {
    assert PartsOf([]) == Parts([], [], false);
    NothingSaid();
  }

  lemma JsonGrows(early: seq<Piece>, last: Piece)
    requires JsonSplits(early)
    ensures JsonSplits(early + [last])
  {
    hide AllSaid, JsonOf, PartsOf;
    var p := PartsOf(early);
    var d := if last.Said? then last.delta else "";
    PartsMore(early, last);
    SaidMore(early, last);
    JsonMore(early, last);
    if last.Said? && early != [] && early[|early| - 1].Ended? {
      SaidAlone(last);
    } else {
      SaidMore(p.after, last);
      Regroup(AllSaid(p.before), AllSaid(p.after), d);
      Regroup(Lead(p), AllSaid(p.after), d);
    }
  }

  lemma SaidAlone(x: Piece)
    requires x.Said?
    ensures AllSaid([x]) == x.delta
  {
    assert [x][..0] == [];
    assert AllSaid([x]) == AllSaid([]) + x.delta;
  }

  /** The arguments are the parse of exactly the joined deltas if and only if no
      delta came after an end, or what came before the last such end was the
      word undefined itself. */
  lemma ArgumentsExactlyWhen(pieces: seq<Piece>)
    ensures JsonOf(pieces) == AllSaid(pieces) <==> Intact(pieces)
  {
    hide AllSaid, JsonOf, PartsOf;
    JsonIs(pieces);
    var p := PartsOf(pieces);
    if p.reopened {
      if JsonOf(pieces) == AllSaid(pieces) { SameTail("undefined", AllSaid(p.before), AllSaid(p.after)); }
    } else {
      NothingSaid();
    }
  }

  predicate Intact(pieces: seq<Piece>) {
    var p := PartsOf(pieces);
    !p.reopened || AllSaid(p.before) == "undefined"
  }

  lemma SameTail(a: string, b: string, tail: string)
    requires a + tail == b + tail
    ensures a == b
  {
    assert |a| == |b|;
    assert (a + tail)[..|a|] == a && (b + tail)[..|b|] == b;
  }

  /** What an index holds once a start named it, for every accepted sequence. */
  lemma ContentIsWhatWasSaid(es: seq<ProxyEvent>, i: nat)
    requires ProcessAll(EMPTY, es).Some? && StoryOf(es, i).Story?
    ensures var content, s := ProcessAll(EMPTY, es).value.0.content, StoryOf(es, i);
            && i in content
            && match s.kind
               case TextKind => content[i].TextSlot? && content[i].text == AllSaid(s.pieces)
               case ThinkingKind => content[i].ThinkingSlot? && content[i].thinking == AllSaid(s.pieces)
               case ToolKind(id, name) =>
                 && content[i].ToolSlot? && content[i].id == id && content[i].name == name
                 && (!SaidSomething(s.pieces) ==> content[i].arguments == NoArguments)
                 && (SaidSomething(s.pieces) ==>
                       (content[i].arguments == ParseOf(AllSaid(s.pieces)) <==> Intact(s.pieces)))
  {
    hide AllSaid, JsonOf, LastSignature, SaidSomething, StoryOf, ProcessAll, Intact;
    EventsRebuildContent(es, i);
    ArgumentsExactlyWhen(StoryOf(es, i).pieces);
  }

  lemma ProcessNext(p: Partial, es: seq<ProxyEvent>, e: ProxyEvent)
    requires ProcessAll(p, es).Some?
    ensures ProcessAll(p, es + [e])
         == match Process(ProcessAll(p, es).value.0, e)
            case Pushes(x, r) => Some((r, ProcessAll(p, es).value.1 + [Seen(x, r)]))
            case Silent(r) => Some((r, ProcessAll(p, es).value.1))
            case Throws(_) => None
  {
    hide Process;
    assert (es + [e])[..|es|] == es;
  }

  /** A delta after an end does spoil the arguments: an accepted sequence that says
      "{}" and a blank about its one tool call leaves the parse of another text. */
  lemma DeltaAfterEndSpoils()
    ensures var es := [ProxyEvent.ToolStart(0, "a", "b"), ToolDelta(0, "{}"), ProxyEvent.ToolEnd(0), ToolDelta(0, " ")];
            && ProcessAll(EMPTY, es).Some?
            && 0 in ProcessAll(EMPTY, es).value.0.content
            && ProcessAll(EMPTY, es).value.0.content[0]
               == ToolSlot("a", "b", ParseOf("undefined "), Some("undefined "))
            && AllSaid([Said("{}"), Ended(None), Said(" ")]) == "{} "
            && "undefined " != "{} "
  {
    var a, b, c, d := ProxyEvent.ToolStart(0, "a", "b"), ToolDelta(0, "{}"), ProxyEvent.ToolEnd(0), ToolDelta(0, " ");
    hide ProcessAll, AllSaid;
    assert ProcessAll(EMPTY, []) == Some((EMPTY, [])) by { ProcessNothing(EMPTY); }
    ProcessNext(EMPTY, [], a);
    ProcessNext(EMPTY, [] + [a], b);
    ProcessNext(EMPTY, [] + [a] + [b], c);
    ProcessNext(EMPTY, [] + [a] + [b] + [c], d);
    assert [] + [a] + [b] + [c] + [d] == [a, b, c, d];
    assert "" + "{}" == "{}" && "undefined" + " " == "undefined ";
    SaidInAll();
  }

  lemma ProcessNothing(p: Partial)
    ensures ProcessAll(p, []) == Some((p, []))
  {
  }

  lemma SaidInAll()
    ensures AllSaid([Said("{}"), Ended(None), Said(" ")]) == "{} "
  {
    hide AllSaid;
    SaidMore([], Said("{}"));
    SaidMore([Said("{}")], Ended(None));
    SaidMore([Said("{}"), Ended(None)], Said(" "));
    assert [] + [Said("{}")] == [Said("{}")];
    assert [Said("{}")] + [Ended(None)] == [Said("{}"), Ended(None)];
    assert [Said("{}"), Ended(None)] + [Said(" ")] == [Said("{}"), Ended(None), Said(" ")];
    NothingSaid();
  }

  // ----- The read loop -----

  /** What JSON.parse makes of a payload. */
  datatype Data = Event(event: ProxyEvent) | Malformed(error: string)

  /** The variables of streamProxy; the stream drops pushes once it is done. */
  datatype Reading = Reading(partial: Partial, delivered: seq<Pushed>, done: bool, error: Option<string>)

  const IDLE := Reading(EMPTY, [], false, None)

  function Push(r: Reading, x: Pushed): Reading {
    if r.done then r else r.(delivered := r.delivered + [x], done := x.Finishes? || x.Fails?)
  }

  function OnData(r: Reading, data: Data): Reading {
    if r.error.Some? then r
    else match data
      case Malformed(error) => r.(error := Some(error))
      case Event(e) =>
        match Process(r.partial, e)
        case Pushes(x, p) => Push(r.(partial := p), x)
        case Silent(p) => r.(partial := p)
        case Throws(error) => r.(error := Some(error))
  }

  /** A line without a payload is passed over. */
  function OnLine(r: Reading, line: string, parse: string -> Data): Reading {
    if PayloadOf(line) == [] then r else OnData(r, parse(PayloadOf(line)[0]))
  }

  function OnLines(r: Reading, lines: seq<string>, parse: string -> Data): Reading
    decreases |lines|
  {
    if lines == [] then r else OnLines(OnLine(r, lines[0], parse), lines[1..], parse)
  }

  function OnPayloads(r: Reading, payloads: seq<string>, parse: string -> Data): Reading
    decreases |payloads|
  {
    if payloads == [] then r else OnPayloads(OnData(r, parse(payloads[0])), payloads[1..], parse)
  }

  /** The loop over lines acts on exactly the payloads, in order. */
  lemma {:induction false} LinesArePayloads(r: Reading, lines: seq<string>, parse: string -> Data)
    ensures OnLines(r, lines, parse) == OnPayloads(r, Payloads(lines), parse)
    decreases |lines|
  {
    hide PayloadOf, OnData;
    if lines != [] {
      LinesArePayloads(OnLine(r, lines[0], parse), lines[1..], parse);
      AtMostOnePayload(lines[0]);
      var x, rest := PayloadOf(lines[0]), Payloads(lines[1..]);
      assert x == [] ==> x + rest == rest;
      assert x != [] ==> (x + rest)[0] == x[0] && (x + rest)[1..] == rest;
    }
  }

  lemma AtMostOnePayload(line: string)
    ensures |PayloadOf(line)| <= 1
  {
  }

  /** Stripping carriage returns and dropping blank lines first, as drainBuffer does,
      would make no difference to the proxy. */
  lemma ProxyReadsHandledLines(r: Reading, lines: seq<string>, parse: string -> Data)
    ensures OnLines(r, Handled(lines), parse) == OnLines(r, lines, parse)
  {
    hide Payloads, Handled, OnLines, OnPayloads;
    ReadersAgree(lines);
    LinesArePayloads(r, lines, parse);
    LinesArePayloads(r, Handled(lines), parse);
  }

  /** Reading chunk after chunk; an exception leaves the loop, which OnLine shows as
      doing nothing more. */
  function ReadChunks(r: Reading, buffer: string, chunks: seq<string>, parse: string -> Data): Reading
    decreases |chunks|
  {
    if chunks == [] then r
    else
      var text := buffer + chunks[0];
      ReadChunks(OnLines(r, Complete(text), parse), Lines.Partial(text), chunks[1..], parse)
  }

  /** The end of streamProxy: an exception, from a line, from fetching or reading, or
      for an abort, becomes an error event. */
  function Conclude(r: Reading, failure: Option<string>, aborted: bool): Reading {
    var error :=
      if r.error.Some? then r.error
      else if failure.Some? then failure
      else if aborted then Some("Request aborted by user") else None;
    if error.None? then r
    else
      var reason := if aborted then Aborted else Error;
      Push(r.(partial := r.partial.(stop := reason, errorMessage := error)), Fails(reason))
  }

  lemma {:induction false} LinesAppend(r: Reading, x: seq<string>, y: seq<string>, parse: string -> Data)
    ensures OnLines(r, x + y, parse) == OnLines(OnLines(r, x, parse), y, parse)
    decreases |x|
  {
    hide OnLine;
    if x == [] {
      assert x + y == y;
    } else {
      assert (x + y)[1..] == x[1..] + y;
      LinesAppend(OnLine(r, x[0], parse), x[1..], y, parse);
    }
  }

  lemma NoLines(r: Reading, parse: string -> Data)
    ensures OnLines(r, [], parse) == r
  {
  }

  /** The result of reading depends on the text, not on how it was cut. */
  lemma {:induction false} ReadingIgnoresChunks(r: Reading, buffer: string, chunks: seq<string>, parse: string -> Data)
    requires '\n' !in buffer
    ensures ReadChunks(r, buffer, chunks, parse) == OnLines(r, Complete(buffer + Joined(chunks)), parse)
    decreases |chunks|
  {
    hide Complete, Lines.Partial, OnLine, OnLines;
    if chunks == [] {
      WholeText(buffer);
      assert buffer + Joined(chunks) == buffer;
      NoLines(r, parse);
    } else {
      var text := buffer + chunks[0];
      SplitRebuilds(text);
      ReadingIgnoresChunks(OnLines(r, Complete(text), parse), Lines.Partial(text), chunks[1..], parse);
      SplitAppend(text, Joined(chunks[1..]));
      LinesAppend(r, Complete(text), Complete(Lines.Partial(text) + Joined(chunks[1..])), parse);
      assert buffer + Joined(chunks) == text + Joined(chunks[1..]);
    }
  }

  lemma {:induction false} NothingAfterError(r: Reading, buffer: string, chunks: seq<string>, parse: string -> Data)
    requires r.error.Some?
    ensures ReadChunks(r, buffer, chunks, parse) == r
    decreases |chunks|
  {
    hide Complete, Lines.Partial, OnLines;
    if chunks != [] {
      IdleAfterError(r, Complete(buffer + chunks[0]), parse);
      NothingAfterError(r, Lines.Partial(buffer + chunks[0]), chunks[1..], parse);
    }
  }

  lemma {:induction false} IdleAfterError(r: Reading, lines: seq<string>, parse: string -> Data)
    requires r.error.Some?
    ensures OnLines(r, lines, parse) == r
    decreases |lines|
  {
    hide PayloadOf;
    if lines != [] { IdleAfterError(r, lines[1..], parse); }
  }
}
