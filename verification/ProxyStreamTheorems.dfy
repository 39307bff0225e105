/** What streamProxy pushes, against what it receives
    (packages/pi-agent-core/src/proxy.ts:205-334). */
module ProxyStreamTheorems {
  import opened Messages
  import opened Proxy
  import opened Lines

  // ----- What is pushed, from the stories alone -----

  /** An end for something that is not a tool call. */
  predicate Passed(early: seq<ProxyEvent>, e: ProxyEvent) {
    e.ToolEnd? && !(StoryOf(early, e.index).Story? && StoryOf(early, e.index).kind.ToolKind?)
  }

  /** The received events that are pushed: all but those. */
  function Audible(es: seq<ProxyEvent>): seq<ProxyEvent> {
    if es == [] then []
    else
      var early, e := es[..|es| - 1], es[|es| - 1];
      if Passed(early, e) then Audible(early) else Audible(early) + [e]
  }

  /** The story at the index of an event. */
  function StoryAt(early: seq<ProxyEvent>, e: ProxyEvent): Story {
    match IndexOfEvent(e)
    case None => Untold
    case Some(i) => StoryOf(early, i)
  }

  /** The pushed event that belongs to a received one, given what was said before at
      its index: type, index and delta are its own; an end of text or thinking
      carries what was said; an end of a tool call carries the call. */
  function PushOf(s: Story, e: ProxyEvent): Pushed {
    var pieces := if s.Story? then s.pieces else [];
    match e
    case Start => Opens
    case TextStart(i) => OpensText(i)
    case TextDelta(i, d) => SaysText(i, d)
    case TextEnd(i, _) => ClosesText(i, AllSaid(pieces))
    case ThinkingStart(i) => OpensThinking(i)
    case ThinkingDelta(i, d) => SaysThinking(i, d)
    case ThinkingEnd(i, _) => ClosesThinking(i, AllSaid(pieces))
    case ToolStart(i, _, _) => OpensTool(i)
    case ToolDelta(i, d) => SaysTool(i, d)
    case ToolEnd(i) => ClosesTool(i, SlotOf(if s.Story? then s.kind else TextKind, pieces + [Ended(None)]))
    case Done(reason, _) => Finishes(reason)
    case Failed(reason, _, _) => Fails(reason)
  }

  /** The stream a received sequence calls for. */
  function Told(es: seq<ProxyEvent>): seq<Pushed> {
    if es == [] then []
    else
      var early, e := es[..|es| - 1], es[|es| - 1];
      if Passed(early, e) then Told(early) else Told(early) + [PushOf(StoryAt(early, e), e)]
  }

  /** The pushed events without the partial messages they refer to. */
  function Stripped(seen: seq<Seen>): seq<Pushed> {
    if seen == [] then [] else Stripped(seen[..|seen| - 1]) + [seen[|seen| - 1].pushed]
  }

  lemma StrippedMore(seen: seq<Seen>, x: Seen)
    ensures Stripped(seen + [x]) == Stripped(seen) + [x.pushed]
  {
    assert (seen + [x])[..|seen|] == seen;
  }

  lemma ToldMore(es: seq<ProxyEvent>, e: ProxyEvent)
    ensures Told(es + [e]) == if Passed(es, e) then Told(es) else Told(es) + [PushOf(StoryAt(es, e), e)]
    ensures Audible(es + [e]) == if Passed(es, e) then Audible(es) else Audible(es) + [e]
  {
    assert (es + [e])[..|es|] == es;
  }

  /** One accepted event: silent exactly when passed over, else pushed as told. */
  lemma IndexedPush(p: Partial, e: ProxyEvent, i: nat, s: Story)
    requires IndexOfEvent(e) == Some(i) && Agrees(p.content, i, s) && !Process(p, e).Throws?
    ensures Process(p, e).Silent? <==> e.ToolEnd? && !(s.Story? && s.kind.ToolKind?)
    ensures Process(p, e).Pushes? ==> Process(p, e).pushed == PushOf(s, e)
  {
    hide AllSaid, JsonOf, LastSignature, SaidSomething;
    if e.ToolEnd? && s.Story? { OneMorePiece(s.pieces, Ended(None)); }
  }

  lemma PlainPush(p: Partial, e: ProxyEvent)
    requires IndexOfEvent(e).None?
    ensures Process(p, e).Pushes? && Process(p, e).pushed == PushOf(Untold, e)
  {
  }

  /** For every accepted sequence, what is pushed is what the sequence calls for. */
  lemma {:induction false} PushedAsTold(es: seq<ProxyEvent>)
    requires ProcessAll(EMPTY, es).Some?
    ensures Stripped(ProcessAll(EMPTY, es).value.1) == Told(es)
    decreases |es|
  {
    hide ProcessAll, Told, Stripped;
    if es == [] {
      NothingPushed();
    } else {
      var early, e := es[..|es| - 1], es[|es| - 1];
      assert es == early + [e];
      ProcessMore(EMPTY, early, e);
      PushedAsTold(early);
      OneMorePushed(early, e);
    }
  }

  lemma NothingPushed()
    ensures ProcessAll(EMPTY, []).Some? && Stripped(ProcessAll(EMPTY, []).value.1) == [] == Told([])
  {
  }

  lemma OneMorePushed(early: seq<ProxyEvent>, e: ProxyEvent)
    requires ProcessAll(EMPTY, early).Some? && !Process(ProcessAll(EMPTY, early).value.0, e).Throws?
    requires Stripped(ProcessAll(EMPTY, early).value.1) == Told(early)
    ensures ProcessAll(EMPTY, early + [e]).Some?
    ensures Stripped(ProcessAll(EMPTY, early + [e]).value.1) == Told(early + [e])
  {
    hide ProcessAll, Process, Told, Stripped, StoryOf, PushOf, Agrees, IndexOfEvent;
    var p := ProcessAll(EMPTY, early).value.0;
    ProcessNext(EMPTY, early, e);
    ToldMore(early, e);
    PushStep(p, early, e);
    var r := Process(p, e);
    if r.Pushes? { StrippedMore(ProcessAll(EMPTY, early).value.1, Seen(r.pushed, r.partial)); }
  }

  lemma PushStep(p: Partial, early: seq<ProxyEvent>, e: ProxyEvent)
    requires ProcessAll(EMPTY, early).Some? && p == ProcessAll(EMPTY, early).value.0 && !Process(p, e).Throws?
    ensures Process(p, e).Silent? <==> Passed(early, e)
    ensures Process(p, e).Pushes? ==> Process(p, e).pushed == PushOf(StoryAt(early, e), e)
  {
    hide ProcessAll, Process, StoryOf, PushOf, Agrees;
    match IndexOfEvent(e)
    case None => PlainPush(p, e);
    case Some(i) =>
      EventsRebuildContent(early, i);
      IndexedPush(p, e, i, StoryOf(early, i));
  }

  // ----- Event by event -----

  /** Same type, and where there is one the same index, delta and reason. */
  predicate Corresponds(x: Pushed, e: ProxyEvent) {
    match x
    case Opens => e.Start?
    case OpensText(i) => e == TextStart(i)
    case SaysText(i, d) => e == TextDelta(i, d)
    case ClosesText(i, _) => e.TextEnd? && e.index == i
    case OpensThinking(i) => e == ThinkingStart(i)
    case SaysThinking(i, d) => e == ThinkingDelta(i, d)
    case ClosesThinking(i, _) => e.ThinkingEnd? && e.index == i
    case OpensTool(i) => e.ToolStart? && e.index == i
    case SaysTool(i, d) => e == ProxyEvent.ToolDelta(i, d)
    case ClosesTool(i, _) => e == ProxyEvent.ToolEnd(i)
    case Finishes(reason) => e.Done? && e.reason == reason
    case Fails(reason) => e.Failed? && e.reason == reason
  }

  /** The pushed events are, one for one and in order, the received ones that are not
      passed over: same type, index and delta. */
  lemma {:induction false} PushedMatchesReceived(es: seq<ProxyEvent>)
    ensures |Told(es)| == |Audible(es)|
    ensures forall k :: 0 <= k < |Audible(es)| ==> Corresponds(Told(es)[k], Audible(es)[k])
    decreases |es|
  {
    hide StoryOf, AllSaid, SlotOf;
    if es != [] { PushedMatchesReceived(es[..|es| - 1]); }
  }

  // ----- Getting the received event back -----

  /** The event a consumer reads out of a pushed one and the partial message it refers
      to: id and name, signature, error message and usage are only there. */
  function Recovered(x: Seen): ProxyEvent {
    var p := x.partial;
    match x.pushed
    case Opens => Start
    case OpensText(i) => TextStart(i)
    case SaysText(i, d) => TextDelta(i, d)
    case ClosesText(i, _) => TextEnd(i, if IsText(p, i) then p.content[i].textSignature else None)
    case OpensThinking(i) => ThinkingStart(i)
    case SaysThinking(i, d) => ThinkingDelta(i, d)
    case ClosesThinking(i, _) => ThinkingEnd(i, if IsThinking(p, i) then p.content[i].thinkingSignature else None)
    case OpensTool(i) =>
      if IsTool(p, i) then ProxyEvent.ToolStart(i, p.content[i].id, p.content[i].name)
      else ProxyEvent.ToolStart(i, "", "")
    case SaysTool(i, d) => ProxyEvent.ToolDelta(i, d)
    case ClosesTool(i, _) => ProxyEvent.ToolEnd(i)
    case Finishes(reason) => Done(reason, p.usage)
    case Fails(reason) => Failed(reason, p.errorMessage, p.usage)
  }

  function AllRecovered(seen: seq<Seen>): seq<ProxyEvent> {
    if seen == [] then [] else AllRecovered(seen[..|seen| - 1]) + [Recovered(seen[|seen| - 1])]
  }

  lemma RecoverOne(p: Partial, e: ProxyEvent)
    requires Process(p, e).Pushes?
    ensures Recovered(Seen(Process(p, e).pushed, Process(p, e).partial)) == e
  {
  }

  lemma RecoveredMore(seen: seq<Seen>, x: Seen)
    ensures AllRecovered(seen + [x]) == AllRecovered(seen) + [Recovered(x)]
  {
    assert (seen + [x])[..|seen|] == seen;
  }

  /** The round trip: from the pushed events, each with the partial message as it stood,
      every received event that was not passed over can be read back whole. */
  lemma {:induction false} ReadingBackUndoesRebuilding(es: seq<ProxyEvent>)
    requires ProcessAll(EMPTY, es).Some?
    ensures AllRecovered(ProcessAll(EMPTY, es).value.1) == Audible(es)
    decreases |es|
  {
    hide ProcessAll, Audible, AllRecovered;
    if es == [] {
      NothingRecovered();
    } else {
      var early, e := es[..|es| - 1], es[|es| - 1];
      assert es == early + [e];
      ProcessMore(EMPTY, early, e);
      ReadingBackUndoesRebuilding(early);
      OneMoreRecovered(early, e);
    }
  }

  lemma NothingRecovered()
    ensures ProcessAll(EMPTY, []).Some? && AllRecovered(ProcessAll(EMPTY, []).value.1) == [] == Audible([])
  {
  }

  lemma OneMoreRecovered(early: seq<ProxyEvent>, e: ProxyEvent)
    requires ProcessAll(EMPTY, early).Some? && !Process(ProcessAll(EMPTY, early).value.0, e).Throws?
    requires AllRecovered(ProcessAll(EMPTY, early).value.1) == Audible(early)
    ensures ProcessAll(EMPTY, early + [e]).Some?
    ensures AllRecovered(ProcessAll(EMPTY, early + [e]).value.1) == Audible(early + [e])
  {
    hide ProcessAll, Process, Audible, AllRecovered, StoryOf, PushOf, Passed, Recovered;
    var p := ProcessAll(EMPTY, early).value.0;
    ProcessNext(EMPTY, early, e);
    ToldMore(early, e);
    PushStep(p, early, e);
    var r := Process(p, e);
    if r.Pushes? {
      RecoverOne(p, e);
      RecoveredMore(ProcessAll(EMPTY, early).value.1, Seen(r.pushed, r.partial));
    }
  }

  // ----- Which sequences give the same stripped stream -----

  /** An event without what only the partial message shows. */
  function Bare(e: ProxyEvent): ProxyEvent {
    match e
    case TextEnd(i, _) => TextEnd(i, None)
    case ThinkingEnd(i, _) => ThinkingEnd(i, None)
    case ToolStart(i, _, _) => ProxyEvent.ToolStart(i, "", "")
    case Done(reason, _) => Done(reason, 0)
    case Failed(reason, _, _) => Failed(reason, None, 0)
    case _ => e
  }

  /** The same bare event, and for the end of a tool call the same id and name. */
  predicate AlikeAt(xs: seq<ProxyEvent>, e: ProxyEvent, ys: seq<ProxyEvent>, f: ProxyEvent) {
    Bare(e) == Bare(f) && (e.ToolEnd? ==> Named(StoryAt(xs, e)) == Named(StoryAt(ys, f)))
  }

  function Named(s: Story): Option<(string, string)> {
    if s.Story? && s.kind.ToolKind? then Some((s.kind.id, s.kind.name)) else None
  }

  predicate Alike(xs: seq<ProxyEvent>, ys: seq<ProxyEvent>) {
    if xs == [] || ys == [] then xs == ys
    else
      var x, y := xs[..|xs| - 1], ys[..|ys| - 1];
      Alike(x, y) && AlikeAt(x, xs[|xs| - 1], y, ys[|ys| - 1])
  }

  /** No end is passed over. */
  predicate AllAudible(xs: seq<ProxyEvent>) {
    xs == [] || (AllAudible(xs[..|xs| - 1]) && !Passed(xs[..|xs| - 1], xs[|xs| - 1]))
  }

  /** Dropping what is passed over changes no story, and no stream. */
  lemma {:induction false} PassedTellNothing(es: seq<ProxyEvent>, i: nat)
    ensures StoryOf(Audible(es), i) == StoryOf(es, i)
    decreases |es|
  {
    if es != [] {
      hide Tell;
      var early, e := es[..|es| - 1], es[|es| - 1];
      PassedTellNothing(early, i);
      if Passed(early, e) {
        PassedTells(early, e, i);
      } else {
        StoryStep(Audible(early), e, i);
      }
    }
  }

  lemma PassedTells(early: seq<ProxyEvent>, e: ProxyEvent, i: nat)
    requires Passed(early, e)
    ensures Tell(StoryOf(early, i), i, e) == StoryOf(early, i)
  {
    hide StoryOf;
  }

  lemma {:induction false} AudibleStands(es: seq<ProxyEvent>)
    ensures AllAudible(Audible(es)) && Told(Audible(es)) == Told(es)
    decreases |es|
  {
    if es != [] {
      hide StoryOf, PushOf, Told;
      var early, e := es[..|es| - 1], es[|es| - 1];
      assert es == early + [e];
      AudibleStands(early);
      ToldMore(early, e);
      ToldMore(Audible(early), e);
      SamePassed(early, e);
      if !Passed(early, e) { AllAudibleMore(Audible(early), e); }
    }
  }

  lemma AllAudibleMore(xs: seq<ProxyEvent>, e: ProxyEvent)
    requires AllAudible(xs) && !Passed(xs, e)
    ensures AllAudible(xs + [e])
  {
    assert (xs + [e])[..|xs|] == xs;
  }

  lemma SamePassed(early: seq<ProxyEvent>, e: ProxyEvent)
    ensures Passed(Audible(early), e) <==> Passed(early, e)
    ensures StoryAt(Audible(early), e) == StoryAt(early, e)
  {
    hide StoryOf, Audible;
    if IndexOfEvent(e).Some? { PassedTellNothing(early, IndexOfEvent(e).value); }
  }

  /** The same deltas and ends. */
  predicate SamePieces(a: seq<Piece>, b: seq<Piece>) {
    if a == [] || b == [] then a == b
    else
      var x, y := a[|a| - 1], b[|b| - 1];
      SamePieces(a[..|a| - 1], b[..|b| - 1]) && x.Said? == y.Said? && (x.Said? ==> x.delta == y.delta)
  }

  lemma SamePiecesMore(a: seq<Piece>, b: seq<Piece>, x: Piece, y: Piece)
    requires SamePieces(a, b) && x.Said? == y.Said? && (x.Said? ==> x.delta == y.delta)
    ensures SamePieces(a + [x], b + [y])
  {
    assert (a + [x])[..|a|] == a && (b + [y])[..|b|] == b;
  }

  lemma {:induction false} SamePiecesSay(a: seq<Piece>, b: seq<Piece>)
    requires SamePieces(a, b)
    ensures AllSaid(a) == AllSaid(b) && JsonOf(a) == JsonOf(b) && SaidSomething(a) == SaidSomething(b)
    ensures (a != [] && a[|a| - 1].Ended?) == (b != [] && b[|b| - 1].Ended?)
    decreases |a|
  {
    if a != [] && b != [] {
      hide AllSaid, JsonOf, LastSignature, SaidSomething;
      var x, y := a[..|a| - 1], b[..|b| - 1];
      assert a == x + [a[|a| - 1]] && b == y + [b[|b| - 1]];
      SamePiecesSay(x, y);
      OneMorePiece(x, a[|a| - 1]);
      OneMorePiece(y, b[|b| - 1]);
    }
  }

  /** Stories alike but for ids, names and signatures. */
  predicate SameStory(s: Story, t: Story) {
    if s.Story? && t.Story? then
      && s.kind.TextKind? == t.kind.TextKind? && s.kind.ThinkingKind? == t.kind.ThinkingKind?
      && SamePieces(s.pieces, t.pieces)
    else s == t
  }

  lemma TellAlike(s: Story, t: Story, i: nat, e: ProxyEvent, f: ProxyEvent)
    requires SameStory(s, t) && Bare(e) == Bare(f)
    ensures SameStory(Tell(s, i, e), Tell(t, i, f))
  {
    hide SamePieces;
    NoPieces();
    if s.Story? && t.Story? {
      match e
      case TextDelta(_, d) => SamePiecesMore(s.pieces, t.pieces, Said(d), Said(d));
      case ThinkingDelta(_, d) => SamePiecesMore(s.pieces, t.pieces, Said(d), Said(d));
      case ToolDelta(_, d) => SamePiecesMore(s.pieces, t.pieces, Said(d), Said(d));
      case TextEnd(_, sig) => SamePiecesMore(s.pieces, t.pieces, Ended(sig), Ended(f.signature));
      case ThinkingEnd(_, sig) => SamePiecesMore(s.pieces, t.pieces, Ended(sig), Ended(f.signature));
      case ToolEnd(_) => SamePiecesMore(s.pieces, t.pieces, Ended(None), Ended(None));
      case _ =>
    }
  }

  lemma NoPieces()
    ensures SamePieces([], [])
  {
  }

  lemma {:induction false} AlikeTellAlike(xs: seq<ProxyEvent>, ys: seq<ProxyEvent>, i: nat)
    requires Alike(xs, ys)
    ensures SameStory(StoryOf(xs, i), StoryOf(ys, i))
    decreases |xs|
  {
    if xs != [] && ys != [] {
      hide Tell, SameStory;
      AlikeTellAlike(xs[..|xs| - 1], ys[..|ys| - 1], i);
      TellAlike(StoryOf(xs[..|xs| - 1], i), StoryOf(ys[..|ys| - 1], i), i, xs[|xs| - 1], ys[|ys| - 1]);
    }
  }

  /** With the same story at its index, a pushed event shows the bare event, and at the
      end of a tool call its id and name, and nothing else. */
  lemma PushShows(s: Story, e: ProxyEvent, t: Story, f: ProxyEvent)
    requires e.ToolEnd? ==> s.Story? && s.kind.ToolKind?
    requires f.ToolEnd? ==> t.Story? && t.kind.ToolKind?
    requires SameStory(s, t)
    ensures PushOf(s, e) == PushOf(t, f)
        <==> Bare(e) == Bare(f) && (e.ToolEnd? ==> Named(s) == Named(t))
  {
    hide AllSaid, JsonOf, LastSignature, SaidSomething, SamePieces;
    if s.Story? && t.Story? {
      SamePiecesSay(s.pieces, t.pieces);
      OneMorePiece(s.pieces, Ended(None));
      OneMorePiece(t.pieces, Ended(None));
    }
  }

  lemma NotPassed(early: seq<ProxyEvent>, e: ProxyEvent)
    requires !Passed(early, e) && e.ToolEnd?
    ensures StoryAt(early, e).Story? && StoryAt(early, e).kind.ToolKind?
  {
  }

  lemma StoriesAt(xs: seq<ProxyEvent>, e: ProxyEvent, ys: seq<ProxyEvent>, f: ProxyEvent)
    requires Alike(xs, ys) && IndexOfEvent(e) == IndexOfEvent(f)
    ensures SameStory(StoryAt(xs, e), StoryAt(ys, f))
  {
    hide StoryOf;
    if IndexOfEvent(e).Some? { AlikeTellAlike(xs, ys, IndexOfEvent(e).value); }
  }

  lemma BareIndex(e: ProxyEvent, f: ProxyEvent)
    ensures Bare(e) == Bare(f) ==> IndexOfEvent(e) == IndexOfEvent(f)
  {
  }

  lemma PushedIndex(s: Story, e: ProxyEvent, t: Story, f: ProxyEvent)
    requires PushOf(s, e) == PushOf(t, f)
    ensures Bare(e) == Bare(f)
  {
    hide AllSaid, SlotOf;
  }

  lemma OneMoreAlike(xs: seq<ProxyEvent>, e: ProxyEvent, ys: seq<ProxyEvent>, f: ProxyEvent)
    requires Alike(xs, ys) && !Passed(xs, e) && !Passed(ys, f)
    ensures PushOf(StoryAt(xs, e), e) == PushOf(StoryAt(ys, f), f) <==> AlikeAt(xs, e, ys, f)
  {
    hide PushOf, Bare, StoryAt, Alike, IndexOfEvent, Passed;
    if e.ToolEnd? { NotPassed(xs, e); }
    if f.ToolEnd? { NotPassed(ys, f); }
    BareIndex(e, f);
    if PushOf(StoryAt(xs, e), e) == PushOf(StoryAt(ys, f), f) { PushedIndex(StoryAt(xs, e), e, StoryAt(ys, f), f); }
    if Bare(e) == Bare(f) {
      StoriesAt(xs, e, ys, f);
      PushShows(StoryAt(xs, e), e, StoryAt(ys, f), f);
    }
  }

  lemma ToldLast(xs: seq<ProxyEvent>)
    requires xs != [] && AllAudible(xs)
    ensures var x, e := xs[..|xs| - 1], xs[|xs| - 1];
            Told(xs) == Told(x) + [PushOf(StoryAt(x, e), e)] && AllAudible(x) && !Passed(x, e)
  {
    hide PushOf, StoryAt, Passed;
  }

  lemma {:induction false} AudibleStreamsEqual(xs: seq<ProxyEvent>, ys: seq<ProxyEvent>)
    requires AllAudible(xs) && AllAudible(ys)
    ensures Told(xs) == Told(ys) <==> Alike(xs, ys)
    decreases |xs|
  {
    hide Told, AllAudible, AlikeAt, PushOf, StoryAt, Passed;
    if xs == [] || ys == [] {
      NothingTold(xs);
      NothingTold(ys);
    } else {
      var x, y := xs[..|xs| - 1], ys[..|ys| - 1];
      ToldLast(xs);
      ToldLast(ys);
      AudibleStreamsEqual(x, y);
      LastTwo(Told(x), PushOf(StoryAt(x, xs[|xs| - 1]), xs[|xs| - 1]), Told(y),
        PushOf(StoryAt(y, ys[|ys| - 1]), ys[|ys| - 1]));
      if Alike(x, y) { OneMoreAlike(x, xs[|xs| - 1], y, ys[|ys| - 1]); }
    }
  }

  lemma LastTwo(a: seq<Pushed>, x: Pushed, b: seq<Pushed>, y: Pushed)
    ensures a + [x] == b + [y] <==> a == b && x == y
  {
    if a + [x] == b + [y] {
      assert |a| == |b|;
      assert (a + [x])[..|a|] == a && (b + [y])[..|b|] == b;
      assert (a + [x])[|a|] == x && (b + [y])[|b|] == y;
    }
  }

  lemma NothingTold(xs: seq<ProxyEvent>)
    requires AllAudible(xs)
    ensures Told(xs) == [] <==> xs == []
  {
    if xs != [] { ToldLast(xs); }
  }

  /** Two accepted sequences push the same stripped stream exactly when, leaving out
      what is passed over, they agree in type, index, delta and reason one by one,
      and in id and name wherever a tool call ends: signatures, usage, error messages
      and the ids and names of calls that never end are lost. */
  lemma StreamsEqualExactlyWhen(a: seq<ProxyEvent>, b: seq<ProxyEvent>)
    requires ProcessAll(EMPTY, a).Some? && ProcessAll(EMPTY, b).Some?
    ensures Stripped(ProcessAll(EMPTY, a).value.1) == Stripped(ProcessAll(EMPTY, b).value.1)
        <==> Alike(Audible(a), Audible(b))
  {
    hide ProcessAll, Told, Stripped, Audible, Alike, AllAudible;
    PushedAsTold(a);
    PushedAsTold(b);
    AudibleStands(a);
    AudibleStands(b);
    AudibleStreamsEqual(Audible(a), Audible(b));
  }

  /** Stripping does lose something: a call that never ends does not show its id. */
  lemma UnendedCallsLookAlike(id: string, other: string, name: string)
    ensures var a, b := [ProxyEvent.ToolStart(0, id, name)], [ProxyEvent.ToolStart(0, other, name)];
            && ProcessAll(EMPTY, a).Some? && ProcessAll(EMPTY, b).Some?
            && Stripped(ProcessAll(EMPTY, a).value.1) == Stripped(ProcessAll(EMPTY, b).value.1)
  {
    ProcessNothing(EMPTY);
    ProcessNext(EMPTY, [], ProxyEvent.ToolStart(0, id, name));
    ProcessNext(EMPTY, [], ProxyEvent.ToolStart(0, other, name));
    assert [] + [ProxyEvent.ToolStart(0, id, name)] == [ProxyEvent.ToolStart(0, id, name)];
    assert [] + [ProxyEvent.ToolStart(0, other, name)] == [ProxyEvent.ToolStart(0, other, name)];
    StrippedMore([], ProcessAll(EMPTY, [ProxyEvent.ToolStart(0, id, name)]).value.1[0]);
    StrippedMore([], ProcessAll(EMPTY, [ProxyEvent.ToolStart(0, other, name)]).value.1[0]);
  }

  // ----- What reading a response gives -----

  predicate Final(x: Pushed) { x.Finishes? || x.Fails? }

  /** `d` is what a stream keeps of the pushes `xs`: all up to the first final one. */
  predicate KeptOf(xs: seq<Pushed>, d: seq<Pushed>, done: bool) {
    && d <= xs
    && (forall k :: 0 <= k < |d| ==> (Final(d[k]) <==> done && k == |d| - 1))
    && (done ==> d != []) && (!done ==> d == xs)
  }

  lemma KeptMore(xs: seq<Pushed>, x: Pushed, r: Reading)
    requires KeptOf(xs, r.delivered, r.done)
    ensures var q := Push(r, x); KeptOf(xs + [x], q.delivered, q.done)
  {
  }

  /** The state after these events, all accepted. */
  predicate HasRead(es: seq<ProxyEvent>, r: Reading) {
    var all := ProcessAll(EMPTY, es);
    all.Some? && r.error == None && r.partial == all.value.0 && KeptOf(Stripped(all.value.1), r.delivered, r.done)
  }

  lemma ReadMore(es: seq<ProxyEvent>, e: ProxyEvent, r: Reading)
    requires HasRead(es, r) && ProcessAll(EMPTY, es + [e]).Some?
    ensures HasRead(es + [e], OnData(r, Event(e)))
  {
    hide ProcessAll, Process, Stripped, KeptOf;
    ProcessMore(EMPTY, es, e);
    ProcessNext(EMPTY, es, e);
    var seen := ProcessAll(EMPTY, es).value.1;
    match Process(r.partial, e)
    case Pushes(x, p) =>
      StrippedMore(seen, Seen(x, p));
      KeptMore(Stripped(seen), x, r.(partial := p));
    case _ =>
  }

  lemma {:induction false} PayloadsSplit(r: Reading, a: seq<string>, b: seq<string>, parse: string -> Data)
    ensures OnPayloads(r, a + b, parse) == OnPayloads(OnPayloads(r, a, parse), b, parse)
    decreases |a|
  {
    hide OnData;
    if a == [] {
      assert a + b == b;
    } else {
      assert (a + b)[1..] == a[1..] + b;
      PayloadsSplit(OnData(r, parse(a[0])), a[1..], b, parse);
    }
  }

  lemma OnePayload(r: Reading, payload: string, parse: string -> Data)
    ensures OnPayloads(r, [payload], parse) == OnData(r, parse(payload))
  {
    hide OnData;
    assert [payload][1..] == [];
  }

  predicate Holds(payloads: seq<string>, es: seq<ProxyEvent>, parse: string -> Data) {
    |payloads| == |es| && forall k :: 0 <= k < |es| ==> parse(payloads[k]) == Event(es[k])
  }

  lemma EarlierAccepted(es: seq<ProxyEvent>, e: ProxyEvent)
    requires ProcessAll(EMPTY, es + [e]).Some?
    ensures ProcessAll(EMPTY, es).Some?
  {
    hide Process;
    assert (es + [e])[..|es|] == es;
  }

  /** Reading payloads that hold these events, all accepted: the partial message is what
      they build, and the stream keeps what they push, up to the first done or error. */
  lemma {:induction false} ReadingIs(payloads: seq<string>, es: seq<ProxyEvent>, parse: string -> Data)
    requires Holds(payloads, es, parse) && ProcessAll(EMPTY, es).Some?
    ensures HasRead(es, OnPayloads(IDLE, payloads, parse))
    decreases |es|
  {
    if es == [] {
      NothingPushed();
    } else {
      hide HasRead, OnPayloads, OnData, ProcessAll;
      var n := |es| - 1;
      assert es == es[..n] + [es[n]] && payloads == payloads[..n] + [payloads[n]];
      EarlierAccepted(es[..n], es[n]);
      ReadingIs(payloads[..n], es[..n], parse);
      PayloadsSplit(IDLE, payloads[..n], [payloads[n]], parse);
      OnePayload(OnPayloads(IDLE, payloads[..n], parse), payloads[n], parse);
      ReadMore(es[..n], es[n], OnPayloads(IDLE, payloads[..n], parse));
    }
  }

  lemma {:induction false} IdlePayloads(r: Reading, payloads: seq<string>, parse: string -> Data)
    requires r.error.Some?
    ensures OnPayloads(r, payloads, parse) == r
    decreases |payloads|
  {
    if payloads != [] { IdlePayloads(r, payloads[1..], parse); }
  }

  /** What is wrong with a payload after these events, if anything. */
  function Wrong(es: seq<ProxyEvent>, data: Data): Option<string>
    requires ProcessAll(EMPTY, es).Some?
  {
    match data
    case Malformed(error) => Some(error)
    case Event(e) =>
      var r := Process(ProcessAll(EMPTY, es).value.0, e);
      if r.Throws? then Some(r.error) else None
  }

  /** The first payload that does not parse, or is not accepted, ends the reading with
      its exception; what comes after it makes no difference. */
  lemma ReadingStops(payloads: seq<string>, es: seq<ProxyEvent>, bad: string, later: seq<string>, parse: string -> Data)
    requires Holds(payloads, es, parse) && ProcessAll(EMPTY, es).Some? && Wrong(es, parse(bad)).Some?
    ensures var r := OnPayloads(IDLE, payloads + ([bad] + later), parse);
            r.error == Wrong(es, parse(bad)) && HasRead(es, r.(error := None))
  {
    hide ProcessAll, Process, KeptOf, OnPayloads;
    ReadingIs(payloads, es, parse);
    var r := OnPayloads(IDLE, payloads, parse);
    PayloadsSplit(IDLE, payloads, [bad] + later, parse);
    PayloadsSplit(r, [bad], later, parse);
    OnePayload(r, bad, parse);
    IdlePayloads(OnData(r, parse(bad)), later, parse);
  }

  /** How a stream ends: cleanly, with nothing added, or by one error event, dropped if
      the stream was done.  An exception while reading comes before a failure to fetch or
      read, and that before an abort, as the message; the reason is aborted exactly when
      the signal was. */
  lemma StreamEnds(r: Reading, failure: Option<string>, aborted: bool)
    ensures var q := Conclude(r, failure, aborted);
            var clean := r.error == None && failure == None && !aborted;
            && (clean ==> q == r)
            && (!clean ==>
                  && q.partial.content == r.partial.content && q.partial.usage == r.partial.usage
                  && q.partial.stop == (if aborted then Aborted else Error)
                  && q.partial.errorMessage == (if r.error != None then r.error
                                                else if failure != None then failure
                                                else Some("Request aborted by user"))
                  && q.done
                  && q.delivered == r.delivered + (if r.done then []
                                                   else [Fails(if aborted then Aborted else Error)]))
  {
  }

  /** A whole response, however it is cut into chunks, whose data lines hold events that
      are all accepted: what they build and push, and then a clean end, or one error
      event with the reason and the message, unless the stream was done. */
  lemma ResponseIs(received: seq<string>, es: seq<ProxyEvent>, failure: Option<string>, aborted: bool,
                   parse: string -> Data)
    requires Holds(Payloads(Complete(Joined(received))), es, parse) && ProcessAll(EMPTY, es).Some?
    ensures var q := Conclude(ReadChunks(IDLE, "", received, parse), failure, aborted);
            var (built, seen) := ProcessAll(EMPTY, es).value;
            if failure == None && !aborted then HasRead(es, q)
            else
              && q.done && q.partial.content == built.content && q.partial.usage == built.usage
              && q.partial.stop == (if aborted then Aborted else Error)
              && q.partial.errorMessage == (if failure != None then failure else Some("Request aborted by user"))
              && exists kept, done :: KeptOf(Stripped(seen), kept, done)
                   && q.delivered == kept + (if done then [] else [Fails(if aborted then Aborted else Error)])
  {
    hide ProcessAll, ReadChunks, OnPayloads, OnLines, KeptOf, Complete, Payloads;
    ReadingIgnoresChunks(IDLE, "", received, parse);
    assert "" + Joined(received) == Joined(received);
    LinesArePayloads(IDLE, Complete(Joined(received)), parse);
    ReadingIs(Payloads(Complete(Joined(received))), es, parse);
    var r := ReadChunks(IDLE, "", received, parse);
    StreamEnds(r, failure, aborted);
    assert KeptOf(Stripped(ProcessAll(EMPTY, es).value.1), r.delivered, r.done);
  }

  /** What the exception for an event that does not fit says. */
  lemma RefusalsSay(p: Partial, e: ProxyEvent)
    requires Process(p, e).Throws?
    ensures match e
            case TextDelta(_, _) => Process(p, e) == Throws("Received text_delta for non-text content")
            case TextEnd(_, _) => Process(p, e) == Throws("Received text_end for non-text content")
            case ThinkingDelta(_, _) => Process(p, e) == Throws("Received thinking_delta for non-thinking content")
            case ThinkingEnd(_, _) => Process(p, e) == Throws("Received thinking_end for non-thinking content")
            case _ => e.ToolDelta? && Process(p, e) == Throws("Received toolcall_delta for non-toolCall content")
  {
    hide SetSlot, AppendJson, IsText, IsThinking, IsTool;
    match e
    case TextDelta(_, _) =>
    case TextEnd(_, _) =>
    case ThinkingDelta(_, _) =>
    case ThinkingEnd(_, _) =>
    case _ =>
  }
}
