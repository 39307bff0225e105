/** One assistant reply: streamAssistantResponse and the catch around it
    (agent-loop.ts:198-222, 284-371).

    A provider is an arbitrary sequence of stream events; after them it either
    throws or simply ends.  Nothing assumes it keeps to a grammar: the lemmas
    say exactly which providers leave the three logs in order. */
module ReplyStream {
  import opened Messages
  import opened Events

  /** start; any of the *_start/_delta/_end events; done or error. */
  datatype ProviderEvent = Started(partial: Reply) | Delta(partial: Reply) | Finished

  /** What happens when the events run out before a Finished. */
  datatype Ending = Throws(error: string, aborted: bool) | Exhausted

  /** `final` is what response.result() resolves to. */
  datatype Provider = Provider(events: seq<ProviderEvent>, final: Reply, ending: Ending)

  /** The partial message's state: how the context grew and what was emitted. */
  datatype Streaming = Streaming(appended: seq<Message>, events: seq<Event>)
  datatype Streamed = Streamed(appended: seq<Message>, events: seq<Event>, reply: Reply)

  function ReplaceLast(ms: seq<Message>, m: Message): seq<Message> {
    if ms == [] then [m] else ms[..|ms| - 1] + [m]
  }

  function StreamStep(st: Streaming, e: ProviderEvent): Streaming
    requires !e.Finished?
  {
    match e
    case Started(q) => Streaming(st.appended + [Assistant(q)], st.events + [MessageStart(Assistant(q))])
    case Delta(q) =>
      if st.appended == [] then st
      else Streaming(ReplaceLast(st.appended, Assistant(q)), st.events + [MessageUpdate(Assistant(q))])
  }

  /** The message the run loop makes of an exception. */
  function FailedReply(error: string, aborted: bool): Reply {
    Reply([], if aborted then Aborted else Error, Some(error))
  }

  function Consume(p: Provider, evs: seq<ProviderEvent>, st: Streaming): Streamed
    decreases |evs|
  {
    if evs == [] then
      match p.ending
      case Throws(error, aborted) =>
        var m := Assistant(FailedReply(error, aborted));
        Streamed(st.appended + [m], st.events + [MessageStart(m), MessageEnd(m)], m.reply)
      case Exhausted => Streamed(st.appended, st.events, p.final)
    else if evs[0].Finished? then
      var m := Assistant(p.final);
      Streamed(ReplaceLast(st.appended, m),
               st.events + (if st.appended == [] then [MessageStart(m)] else []) + [MessageEnd(m)],
               p.final)
    else Consume(p, evs[1..], StreamStep(st, evs[0]))
  }

  /** What one reply appends to the context, emits, and returns. */
  function StreamReply(p: Provider): Streamed {
    Consume(p, p.events, Streaming([], []))
  }

  // ----- Which providers keep the rules -----

  /** A done or error arrives. */
  predicate Finishes(evs: seq<ProviderEvent>) {
    evs != [] && (evs[0].Finished? || Finishes(evs[1..]))
  }

  /** Number of start events consumed. */
  function Starts(evs: seq<ProviderEvent>): nat {
    if evs == [] || evs[0].Finished? then 0
    else (if evs[0].Started? then 1 else 0) + Starts(evs[1..])
  }

  function NextPartial(now: Option<Reply>, e: ProviderEvent): Option<Reply>
    requires !e.Finished?
  {
    match e
    case Started(q) => Some(q)
    case Delta(q) => if now.None? then None else Some(q)
  }

  /** The partial message showing when the events run out. */
  function LastPartial(evs: seq<ProviderEvent>, now: Option<Reply>): Option<Reply>
    decreases |evs|
  {
    if evs == [] || evs[0].Finished? then now
    else LastPartial(evs[1..], NextPartial(now, evs[0]))
  }

  /** Every message this provider opens gets closed before the next. */
  predicate ClosesWhatItOpens(p: Provider) {
    Starts(p.events) == 0 || (Starts(p.events) == 1 && Finishes(p.events))
  }

  /** The provider delivers its reply through an event, or throws. */
  predicate Commits(p: Provider) {
    Finishes(p.events) || p.ending.Throws?
  }

  /** The context grows by exactly the reply. */
  predicate LeavesOneMessage(p: Provider) {
    if Finishes(p.events) then Starts(p.events) <= 1
    else if p.ending.Throws? then Starts(p.events) == 0
    else Starts(p.events) == 1 && LastPartial(p.events, None) == Some(p.final)
  }

  /** The documented stream contract: start? delta* (done|error), or an
      exception before start. */
  predicate Conforming(p: Provider) {
    if Finishes(p.events) then Starts(p.events) <= 1
    else p.ending.Throws? && Starts(p.events) == 0
  }

  /** Where a log stands after `k` starts of one reply. */
  predicate AfterStarts(place: Place, k: nat) {
    if k == 0 then place == InTurn
    else if k == 1 then place.InMessage? && place.open.Assistant?
    else place == Broken
  }

  predicate Tracks(st: Streaming, k: nat, now: Option<Reply>) {
    && AfterStarts(Scan(InTurn, st.events), k)
    && |st.appended| == k
    && Transcript(st.events) == []
    && StartedCalls(st.events) == [] && EndedCalls(st.events) == []
    && (k == 0 ==> st.events == [])
    && (if k == 0 then now == None else now.Some? && st.appended[k - 1] == Assistant(now.value))
  }

  lemma StepTracks(st: Streaming, e: ProviderEvent, k: nat, now: Option<Reply>)
    requires Tracks(st, k, now) && !e.Finished?
    ensures Tracks(StreamStep(st, e), if e.Started? then k + 1 else k, NextPartial(now, e))
  {
    var next := StreamStep(st, e);
    if e.Started? || st.appended != [] {
      var x := if e.Started? then MessageStart(Assistant(e.partial)) else MessageUpdate(Assistant(e.partial));
      assert next.events == st.events + [x];
      ScanSplit(InTurn, st.events, [x]);
      TranscriptSplit(st.events, [x]);
      StartedSplit(st.events, [x]);
      EndedSplit(st.events, [x]);
    }
  }

  /** The events that end a reply: nothing, a close, or a whole message. */
  lemma EndingEvents(log: seq<Event>, tail: seq<Event>, k: nat, m: Message)
    requires AfterStarts(Scan(InTurn, log), k) && Transcript(log) == [] && m.Assistant?
    requires StartedCalls(log) == [] && EndedCalls(log) == []
    requires tail == [] || (tail == [MessageEnd(m)] && k > 0) || tail == [MessageStart(m), MessageEnd(m)]
    ensures Transcript(log + tail) == (if tail == [] then [] else [m])
    ensures StartedCalls(log + tail) == [] && EndedCalls(log + tail) == []
    ensures var place := Scan(InTurn, log + tail);
            if tail == [] then place == Scan(InTurn, log)
            else if tail == [MessageEnd(m)] then place == (if k == 1 then InTurn else Broken)
            else place == (if k == 0 then InTurn else Broken)
  {
    ScanSplit(InTurn, log, tail);
    TranscriptSplit(log, tail);
    StartedSplit(log, tail);
    EndedSplit(log, tail);
    PairFacts(m, {});
    if tail != [] {
      assert Scan(Scan(InTurn, log), tail) == Scan(Move(Scan(InTurn, log), tail[0]), tail[1..]);
      BrokenStays(tail[1..]);
    }
    if tail == [MessageEnd(m)] { assert tail[1..] == []; }
  }

  /** What a whole reply comes to, given how many starts it had, whether a done
      or error arrived, and the partial message then showing. */
  predicate EndState(p: Provider, out: Streamed, n: nat, finishes: bool, now: Option<Reply>) {
    && (if finishes || p.ending.Throws? then
          Scan(InTurn, out.events) == (if (if finishes then n <= 1 else n == 0) then InTurn else Broken)
        else AfterStarts(Scan(InTurn, out.events), n))
    && Transcript(out.events) == (if finishes || p.ending.Throws? then [Assistant(out.reply)] else [])
    && StartedCalls(out.events) == [] && EndedCalls(out.events) == []
    && (out.appended == [Assistant(out.reply)] <==>
          if finishes then n <= 1 else if p.ending.Throws? then n == 0 else n == 1 && now == Some(p.final))
  }

  lemma StreamEnds(p: Provider, evs: seq<ProviderEvent>, st: Streaming, k: nat, now: Option<Reply>)
    requires Tracks(st, k, now) && (evs == [] || evs[0].Finished?)
    ensures EndState(p, Consume(p, evs, st), k, evs != [], now)
  {
    var out := Consume(p, evs, st);
    var m := Assistant(out.reply);
    var tail := if evs == [] && p.ending.Exhausted? then []
                else if evs != [] && k > 0 then [MessageEnd(m)] else [MessageStart(m), MessageEnd(m)];
    assert out.events == st.events + tail;
    EndingEvents(st.events, tail, k, m);
  }

  lemma {:induction false} ConsumeOutcome(p: Provider, evs: seq<ProviderEvent>, st: Streaming, k: nat,
                                          now: Option<Reply>)
    requires Tracks(st, k, now)
    ensures EndState(p, Consume(p, evs, st), k + Starts(evs), Finishes(evs), LastPartial(evs, now))
    decreases |evs|
  {
    hide EndState, Tracks, StreamStep;
    if evs == [] || evs[0].Finished? {
      StreamEnds(p, evs, st, k, now);
    } else {
      StepTracks(st, evs[0], k, now);
      ConsumeOutcome(p, evs[1..], StreamStep(st, evs[0]), if evs[0].Started? then k + 1 else k,
                     NextPartial(now, evs[0]));
    }
  }

  /** The message a failure becomes: empty, with the error's text, and aborted only if
      the signal was. */
  predicate TellsFailure(r: Reply, error: string, aborted: bool) {
    r.content == [] && r.errorMessage == Some(error) && r.stop == if aborted then Aborted else Error
  }

  /** The reply is what the provider resolves to, unless it threw before done or
      error: then it is the failure. */
  lemma {:induction false} ReplyIs(p: Provider, evs: seq<ProviderEvent>, st: Streaming)
    ensures var r := Consume(p, evs, st).reply;
            if !Finishes(evs) && p.ending.Throws? then TellsFailure(r, p.ending.error, p.ending.aborted)
            else r == p.final
    decreases |evs|
  {
    if evs != [] && !evs[0].Finished? { ReplyIs(p, evs[1..], StreamStep(st, evs[0])); }
  }

  lemma NothingTracked()
    ensures Tracks(Streaming([], []), 0, None)
  {
  }

  /** For every provider: exactly when its reply is bracketed, when the context
      gains exactly that reply, and when the transcript does. */
  lemma StreamOutcome(p: Provider, open: set<string>)
    ensures var out := StreamReply(p);
            && (Scan(InTurn, out.events) == InTurn <==> ClosesWhatItOpens(p))
            && (!ClosesWhatItOpens(p) ==> Scan(InTurn, out.events).Broken? || Scan(InTurn, out.events).InMessage?)
            && (out.appended == [Assistant(out.reply)] <==> LeavesOneMessage(p))
            && Transcript(out.events) == (if Commits(p) then [Assistant(out.reply)] else [])
            && StartedCalls(out.events) == [] && EndedCalls(out.events) == []
            && PendingIds(open, out.events) == open && Paired(open, out.events)
            && (if Commits(p) && !Finishes(p.events) then TellsFailure(out.reply, p.ending.error, p.ending.aborted)
                else out.reply == p.final)
  {
    hide Consume, Finishes, Starts, LastPartial, Scan, Transcript, TellsFailure, Tracks, PendingIds, Paired,
         StartedCalls, EndedCalls;
    NothingTracked();
    ReplyIs(p, p.events, Streaming([], []));
    ConsumeOutcome(p, p.events, Streaming([], []), 0, None);
    NoTools(StreamReply(p).events, open);
  }

  /** The documented contract is sufficient for all three. */
  lemma ConformingKeepsEveryLog(p: Provider)
    requires Conforming(p)
    ensures ClosesWhatItOpens(p) && Commits(p) && LeavesOneMessage(p)
  {
  }

  // ----- What is shown of a reply -----

  /** The replies that message_start and message_update show, in order. */
  function Shown(es: seq<Event>): seq<Reply> {
    if es == [] then []
    else if (es[0].MessageStart? || es[0].MessageUpdate?) && es[0].message.Assistant?
    then [es[0].message.reply] + Shown(es[1..])
    else Shown(es[1..])
  }

  /** The partial messages these events carry, up to done or error. */
  function Carried(evs: seq<ProviderEvent>): seq<Reply> {
    if evs == [] || evs[0].Finished? then [] else [evs[0].partial] + Carried(evs[1..])
  }

  /** Those from the first start on. */
  function FromStart(evs: seq<ProviderEvent>): seq<Reply> {
    if evs == [] || evs[0].Finished? then []
    else if evs[0].Started? then Carried(evs)
    else FromStart(evs[1..])
  }

  lemma {:induction false} ShownSplit(a: seq<Event>, b: seq<Event>)
    ensures Shown(a + b) == Shown(a) + Shown(b)
  {
    if a == [] {
      assert a + b == b;
    } else {
      assert (a + b)[1..] == a[1..] + b;
      ShownSplit(a[1..], b);
    }
  }

  lemma ShownOfOne(e: Event)
    ensures Shown([e])
         == if (e.MessageStart? || e.MessageUpdate?) && e.message.Assistant? then [e.message.reply] else []
  {
    assert [e][1..] == [];
  }

  lemma StepShows(st: Streaming, e: ProviderEvent)
    requires !e.Finished?
    ensures Shown(StreamStep(st, e).events)
         == Shown(st.events) + (if e.Started? || st.appended != [] then [e.partial] else [])
    ensures StreamStep(st, e).appended != [] <==> e.Started? || st.appended != []
  {
    hide Shown;
    if e.Started? || st.appended != [] {
      var x := if e.Started? then MessageStart(Assistant(e.partial)) else MessageUpdate(Assistant(e.partial));
      ShownSplit(st.events, [x]);
      ShownOfOne(x);
    }
  }

  lemma ShowsLast(p: Provider, evs: seq<ProviderEvent>, st: Streaming)
    requires evs == [] || evs[0].Finished?
    ensures var out := Consume(p, evs, st);
            Shown(out.events) == Shown(st.events)
                                 + (if (evs != [] && st.appended == []) || (evs == [] && p.ending.Throws?)
                                    then [out.reply] else [])
  {
    hide Shown;
    var out := Consume(p, evs, st);
    var m := Assistant(out.reply);
    ShownSplit(st.events, [MessageStart(m), MessageEnd(m)]);
    ShownSplit(st.events, [MessageEnd(m)]);
    ShownSplit([MessageStart(m)], [MessageEnd(m)]);
    ShownOfOne(MessageStart(m));
    ShownOfOne(MessageEnd(m));
    assert [MessageStart(m)] + [MessageEnd(m)] == [MessageStart(m), MessageEnd(m)];
    assert out.events == st.events + (if evs == [] && p.ending.Exhausted? then []
                                      else if evs != [] && st.appended != [] then [MessageEnd(m)]
                                      else [MessageStart(m), MessageEnd(m)]);
  }

  lemma {:induction false} ConsumeShows(p: Provider, evs: seq<ProviderEvent>, st: Streaming)
    ensures var out := Consume(p, evs, st);
            var seen := if st.appended == [] then FromStart(evs) else Carried(evs);
            Shown(out.events)
            == Shown(st.events) + seen
               + (if Finishes(evs) then (if st.appended == [] && Starts(evs) == 0 then [out.reply] else [])
                  else if p.ending.Throws? then [out.reply] else [])
    decreases |evs|
  {
    hide Shown;
    if evs == [] || evs[0].Finished? {
      ShowsLast(p, evs, st);
    } else {
      StepShows(st, evs[0]);
      ConsumeShows(p, evs[1..], StreamStep(st, evs[0]));
    }
  }

  /** What is shown while a reply streams, for every provider: each partial message from
      the first start on, in order; then the reply, if nothing was shown of it before it
      was done, or if it tells of a failure. */
  lemma RepliesAreShown(p: Provider)
    ensures var out := StreamReply(p);
            Shown(out.events)
            == FromStart(p.events)
               + (if Finishes(p.events) then (if Starts(p.events) == 0 then [out.reply] else [])
                  else if p.ending.Throws? then [out.reply] else [])
  {
    hide Shown, Consume;
    ConsumeShows(p, p.events, Streaming([], []));
    assert Shown([]) == [] by { NothingShown(); }
  }

  lemma NothingShown()
    ensures Shown([]) == []
  {
  }
}
