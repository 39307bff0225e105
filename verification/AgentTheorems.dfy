/** The Agent's state against the log of its runs, and its queues over whole
    sessions. */
module AgentTheorems {
  import opened Messages
  import opened Events
  import opened Queues
  import opened ReplyStream
  import opened ToolPhase
  import opened AgentLoop
  import opened AgentLoopTheorems
  import opened AgentLogTheorems
  import opened ConversationTheorems
  import opened TranscriptTheorems
  import opened RunFailures
  import opened Agent
  import opened Lines

  // ----- The reducer -----

  /** Reading any log, the Agent's messages grow by its transcript, and its set of
      pending tool calls is what the log's starts and ends, one after the other, make
      of it.  PendingAtEveryMoment says which ids those are. */
  lemma {:induction false} ReducerRebuilds(r: Reading, es: seq<Event>)
    ensures var q := ReduceAll(r, es);
            && q.state.messages == r.state.messages + Transcript(es)
            && q.state.pendingToolCalls == PendingIds(r.state.pendingToolCalls, es)
    decreases |es|
  {
    if es != [] { ReducerRebuilds(Reduce(r, es[0]), es[1..]); }
  }

  /** The partial message is the one the log has open. */
  predicate ShowsPlace(p: Place, r: Reading) {
    p.Broken? || ((p.InMessage? <==> r.partial.Some?) && (!p.Closed? ==> r.state.streamMessage == r.partial))
  }

  /** While a log is in order the Agent shows a partial message exactly when one
      is open. */
  lemma {:induction false} PartialFollowsBrackets(p: Place, r: Reading, es: seq<Event>)
    requires ShowsPlace(p, r)
    ensures ShowsPlace(Scan(p, es), ReduceAll(r, es))
    decreases |es|
  {
    if es != [] {
      if p.Broken? {
        BrokenStays(es);
      } else {
        PartialFollowsBrackets(Move(p, es[0]), Reduce(r, es[0]), es[1..]);
      }
    }
  }

  lemma {:induction false} ReduceSplit(r: Reading, a: seq<Event>, b: seq<Event>)
    ensures ReduceAll(r, a + b) == ReduceAll(ReduceAll(r, a), b)
    decreases |a|
  {
    if a == [] {
      assert a + b == b;
    } else {
      assert (a + b)[1..] == a[1..] + b;
      ReduceSplit(Reduce(r, a[0]), a[1..], b);
    }
  }

  /** An event that changes which message is shown. */
  predicate Switches(e: Event) { e.MessageStart? || e.MessageUpdate? || e.MessageEnd? || e.AgentEnd? }

  predicate NothingSwitches(es: seq<Event>) {
    es == [] || (!Switches(es[0]) && NothingSwitches(es[1..]))
  }

  lemma {:induction false} QuietKeepsShown(r: Reading, es: seq<Event>)
    requires NothingSwitches(es)
    ensures var q := ReduceAll(r, es); q.state.streamMessage == r.state.streamMessage && q.partial == r.partial
    decreases |es|
  {
    if es != [] { QuietKeepsShown(Reduce(r, es[0]), es[1..]); }
  }

  /** Which message the Agent shows: that of the latest message_start or message_update,
      and none from a message_end or agent_end on.  What the reader keeps in case the
      events stop is the same, but for agent_end, which it does not look at. */
  lemma LatestMessageShows(r: Reading, early: seq<Event>, e: Event, later: seq<Event>)
    requires Switches(e) && NothingSwitches(later)
    ensures var q := ReduceAll(r, early + ([e] + later));
            && q.state.streamMessage == (if e.MessageStart? || e.MessageUpdate? then Some(e.message) else None)
            && q.partial == if e.AgentEnd? then ReduceAll(r, early).partial else q.state.streamMessage
  {
    ReduceSplit(r, early, [e] + later);
    var mid := ReduceAll(r, early);
    assert ([e] + later)[1..] == later;
    assert ReduceAll(mid, [e] + later) == ReduceAll(Reduce(mid, e), later);
    QuietKeepsShown(Reduce(mid, e), later);
  }

  /** A turn_end whose reply carries an error message. */
  predicate Reports(e: Event) {
    e.TurnEnd? && e.reply.errorMessage.Some? && e.reply.errorMessage.value != ""
  }

  predicate NothingReported(es: seq<Event>) {
    es == [] || (!Reports(es[0]) && NothingReported(es[1..]))
  }

  lemma {:induction false} QuietKeepsError(r: Reading, es: seq<Event>)
    requires NothingReported(es)
    ensures ReduceAll(r, es).state.error == r.state.error
    decreases |es|
  {
    if es != [] { QuietKeepsError(Reduce(r, es[0]), es[1..]); }
  }

  /** The error the Agent shows is that of the latest turn that reported one. */
  lemma LatestErrorShows(r: Reading, early: seq<Event>, e: Event, later: seq<Event>)
    requires Reports(e) && NothingReported(later)
    ensures ReduceAll(r, early + ([e] + later)).state.error == e.reply.errorMessage
  {
    ReduceSplit(r, early, [e] + later);
    var mid := ReduceAll(r, early);
    assert ([e] + later)[1..] == later;
    assert ReduceAll(mid, [e] + later) == ReduceAll(Reduce(mid, e), later);
    QuietKeepsError(Reduce(mid, e), later);
  }

  /** A run starts by showing no error, so without a report none is shown after its log. */
  lemma NoErrorUnlessReported(st: AgentState, es: seq<Event>)
    requires NothingReported(es)
    ensures ReduceAll(Begun(st), es).state.error == None
  {
    QuietKeepsError(Begun(st), es);
  }

  // ----- The message left open -----

  /** The block holds something that is not white space. */
  predicate Says(b: Block) {
    match b
    case Text(t) => exists k :: 0 <= k < |t| && !Space(t[k])
    case Thinking(t) => exists k :: 0 <= k < |t| && !Space(t[k])
    case ToolCall(c) => exists k :: 0 <= k < |c.name| && !Space(c.name[k])
    case ServerSide => false
  }

  predicate OpenReply(partial: Option<Message>) {
    partial.Some? && partial.value.Assistant? && partial.value.reply.content != []
  }

  lemma SaysIs(b: Block)
    ensures SaysSomething(b) <==> Says(b)
  {
  }

  /** The end of a run: the Agent is idle; a reply left open is kept if some block of it
      says something; if none does and the run was aborted, an empty reply records
      that, and so does the error; otherwise nothing is added. */
  lemma WhatIsKept(r: Reading, aborted: bool)
    ensures var st, open := Finally(r, aborted), OpenReply(r.partial);
            var says := open && exists b :: b in r.partial.value.reply.content && Says(b);
            var record := Reply([Text("")], Aborted, Some("Request was aborted"));
            && !st.isStreaming && st.streamMessage == None && st.pendingToolCalls == {}
            && st.messages == r.state.messages + (if says then [r.partial.value]
                                                  else if open && aborted then [Assistant(record)] else [])
            && st.error == (if open && !says && aborted then Some("Request was aborted") else r.state.error)
  {
    hide Says, SaysSomething;
    if OpenReply(r.partial) {
      var content := r.partial.value.reply.content;
      forall k | 0 <= k < |content| ensures SaysSomething(content[k]) <==> Says(content[k]) {
        SaysIs(content[k]);
      }
      if exists b :: b in content && Says(b) {
        var b :| b in content && Says(b);
        var k :| 0 <= k < |content| && content[k] == b;
        assert SaysSomething(content[k]);
      }
    }
  }

  // ----- How a finished run's log ends -----

  function EscapeTail(messages: seq<Message>, m: Message): seq<Event>
    requires m.Assistant?
  {
    [MessageStart(m), MessageEnd(m), TurnEnd(m.reply, []), AgentEnd(messages)]
  }

  predicate EndsWith(es: seq<Event>, tail: seq<Event>) {
    |es| >= |tail| && es[|es| - |tail|..] == tail
  }

  /** A run that is over has pushed agent_end last; after an exception, the
      message about it just before. */
  predicate EndsProperly(s: Run) {
    match s.status
    case Active => true
    case Done(messages, cause) =>
      if cause.Threw? then
        && messages != [] && messages[|messages| - 1].Assistant?
        && EndsWith(s.log, EscapeTail(messages, messages[|messages| - 1]))
      else EndsWith(s.log, [AgentEnd(messages)])
  }

  lemma EscapeEnds(s: Run, error: string, site: Site)
    ensures EndsProperly(Escape(s, error, site))
  {
    var m := Assistant(EscapedReply(error));
    var r := Escape(s, error, site);
    assert r.log == s.log + EscapeTail(s.news + [m], m);
  }

  lemma PollNextEnds(s: Run, calls: bool, steering: seq<Message>, t: TurnInput)
    requires s.status.Active?
    ensures EndsProperly(PollNext(s, calls, steering, t))
  {
    hide AwaitPoll, Escape;
    if steering == [] {
      var one := AwaitPoll(s.world, Steering, t.after);
      if one.PollThrew? {
        EscapeEnds(s.(world := one.world), one.error, OutsideTurn);
      } else if !calls && one.got == [] {
        var two := AwaitPoll(one.world, FollowUps, t.followUp);
        if two.PollThrew? { EscapeEnds(s.(world := two.world), two.error, OutsideTurn); }
      }
    }
  }

  lemma PassEnds(cfg: Config, s: Run, t: TurnInput)
    requires s.status.Active?
    ensures EndsProperly(Pass(cfg, s, t))
  {
    hide PollNext, Execute, StreamReply, EndsProperly, Escape;
    var asked, r := Ask(Inject(s), s.pending, t.provider), StreamReply(t.provider).reply;
    if StopsRun(r) {
      StopEnds(asked.(log := asked.log + [TurnEnd(r, [])]));
    } else {
      var calls := Calls(r.content);
      if calls == [] {
        PollNextEnds(asked.(log := asked.log + [TurnEnd(r, [])]), false, [], t);
      } else {
        var phase := Execute(cfg, calls, t.tools, asked.world);
        match phase.ending
        case Failed(error) =>
          EscapeEnds(asked.(log := asked.log + phase.events, world := phase.world,
                            turns := Committed(asked.turns, phase.results)), error, InsideTurn);
        case Completed(steering) => PollNextEnds(RunTools(asked, phase, r), true, steering, t);
      }
    }
  }

  lemma StopEnds(s: Run)
    ensures EndsProperly(End(s, ErrorReply))
  {
  }

  lemma BeginEnds(u: Setup)
    ensures EndsProperly(Begin(u))
  {
    hide AwaitPoll, Escape, EndsProperly;
    if u.initial.Some? {
      var r := AwaitPoll(u.world, Steering, u.initial.value);
      if r.PollThrew? { EscapeEnds(Begin(u.(initial := None)).(world := r.world), r.error, InsideTurn); }
    }
    ActiveEnds(Begin(u));
  }

  lemma ActiveEnds(s: Run)
    ensures s.status.Active? ==> EndsProperly(s)
  {
  }

  // ----- The state after a run -----

  /** Reading a whole run leaves no message open, unless a provider did. */
  lemma NothingOpenAtEnd(st: AgentState, s: Run)
    requires EndsProperly(s) && BracketInv(s) && AllClosed(s.turns) && s.status.Done?
    ensures ReduceAll(Begun(st), s.log).partial == None
  {
    if s.status.cause.Threw? {
      var messages := s.status.messages;
      var tail := EscapeTail(messages, messages[|messages| - 1]);
      var early := s.log[..|s.log| - 4];
      assert s.log == early + tail;
      ReduceSplit(Begun(st), early, tail);
      TailCloses(ReduceAll(Begun(st), early), messages, messages[|messages| - 1]);
    } else {
      PartialFollowsBrackets(Before, Begun(st), s.log);
    }
  }

  lemma TailCloses(r: Reading, messages: seq<Message>, m: Message)
    requires m.Assistant?
    ensures ReduceAll(r, EscapeTail(messages, m)).partial == None
  {
    var r1 := Reduce(r, MessageStart(m));
    var r2 := Reduce(r1, MessageEnd(m));
    var r3 := Reduce(r2, TurnEnd(m.reply, []));
    ReduceTwo(r, MessageStart(m), MessageEnd(m));
    ReduceTwo(r2, TurnEnd(m.reply, []), AgentEnd(messages));
    assert EscapeTail(messages, m) == [MessageStart(m), MessageEnd(m)] + [TurnEnd(m.reply, []), AgentEnd(messages)];
    ReduceSplit(r, [MessageStart(m), MessageEnd(m)], [TurnEnd(m.reply, []), AgentEnd(messages)]);
  }

  lemma ReduceTwo(r: Reading, a: Event, b: Event)
    ensures ReduceAll(r, [a, b]) == Reduce(Reduce(r, a), b)
  {
    assert [a, b][1..] == [b] && [b][1..] == [];
    assert ReduceAll(Reduce(r, a), [b]) == ReduceAll(Reduce(Reduce(r, a), b), []);
  }

  /** The facts about one run that agree(s) with its logs, at any point. */
  ghost predicate Sound(context: seq<Message>, prompts: seq<Message>, before: seq<Message>, s: Run) {
    && NothingLost(before, s)
    && BracketInv(s)
    && LogsInv(context, s)
    && CoherentRun(prompts, s)
    && Written(prompts, s)
    && (ToolPhaseThrew(s) || ToolsPaired(s.log, s.turns))
    && EndsProperly(s)
  }

  lemma PassSound(cfg: Config, context: seq<Message>, prompts: seq<Message>, before: seq<Message>, s: Run, t: TurnInput)
    requires Sound(context, prompts, before, s) && s.status.Active?
    ensures Sound(context, prompts, before, Pass(cfg, s, t))
  {
    hide WorldFaithful, BracketInv, LogsInv, CoherentRun, Written, ToolsPaired, EndsProperly, Pass, NothingLost;
    FaithOf(before, s);
    PassPolls(cfg, before, s, t);
    PassBrackets(cfg, s, t);
    PassLogs(cfg, context, s, t);
    PassCoherent(cfg, prompts, s, t);
    PassWritten(cfg, prompts, s, t);
    PassPaired(cfg, s, t);
    PassEnds(cfg, s, t);
  }

  lemma BeginSound(u: Setup)
    requires WorldFaithful(u.world)
    ensures Sound(u.context, u.prompts, Got(u.world.polls), Begin(u))
  {
    hide WorldFaithful, BracketInv, LogsInv, CoherentRun, Written, ToolsPaired, EndsProperly, Begin, NothingLost;
    BeginPolls(u);
    BeginBrackets(u);
    BeginLogs(u);
    BeginCoherent(u);
    BeginWritten(u);
    BeginPaired(u);
    BeginEnds(u);
  }

  lemma AgentAgreesByLost(st: AgentState, prompts: seq<Message>, before: seq<Message>, s: Run, aborted: bool)
    requires Sound(st.messages, prompts, before, s) && s.status.Done?
    requires AllClosed(s.turns) && AllCommit(s.turns)
    ensures var after := AfterRun(st, s.log, aborted);
            && (after.messages == st.messages + s.status.messages <==> Lost(s) == [])
            && !after.isStreaming && after.streamMessage == None && after.pendingToolCalls == {}
  {
    hide CoherentRun, NothingLost, ToolsPaired, Written;
    NothingOpenAtEnd(st, s);
    ReducerRebuilds(Begun(st), s.log);
    LongerIsDifferent(st.messages, s.log, s);
  }

  lemma LongerIsDifferent(context: seq<Message>, log: seq<Event>, s: Run)
    requires LogsInv(context, s) && log == s.log && s.status.Done? && AllCommit(s.turns)
    ensures context + Transcript(log) == context + s.status.messages <==> Lost(s) == []
  {
    hide AllCommit, AllLeaveOne, Transcript;
    assert |Transcript(log)| == |s.status.messages| + |Lost(s)|;
  }

  /** Between two turns the Agent's own set of pending tool calls is empty. */
  lemma NothingPendingBetweenTurns(st: AgentState, context: seq<Message>, prompts: seq<Message>,
                                   before: seq<Message>, s: Run)
    requires Sound(context, prompts, before, s) && s.status.Active? && st.pendingToolCalls == {}
    ensures ReduceAll(Begun(st), s.log).state.pendingToolCalls == {}
  {
    hide CoherentRun, NothingLost, BracketInv, LogsInv, EndsProperly, Written;
    ReducerRebuilds(Begun(st), s.log);
  }

  // ----- Runs from their inputs -----

  lemma {:induction false} ReachedSound(u: Setup, o: nat -> TurnInput, n: nat)
    requires WorldFaithful(u.world)
    ensures Sound(u.context, u.prompts, Got(u.world.polls), Reached(u, o, n))
    decreases n
  {
    hide Sound, Pass, Begin, WorldFaithful;
    if n == 0 {
      BeginSound(u);
    } else {
      ReachedSound(u, o, n - 1);
      var s := Reached(u, o, n - 1);
      if s.status.Active? { PassSound(u.cfg, u.context, u.prompts, Got(u.world.polls), s, o(n - 1)); }
    }
  }

  /** The Agent's transcript after a run is its transcript before plus what agent_end
      carries, if and only if no pass of the run has a tool phase that fails after
      committing a result; and the Agent is idle again, with nothing pending or half
      shown. */
  lemma AgentAgreesExactlyWhen(st: AgentState, u: Setup, o: nat -> TurnInput, n: nat, aborted: bool)
    requires WorldFaithful(u.world) && u.context == st.messages && Reached(u, o, n).status.Done?
    requires EachCloses(u, o, n) && EachCommits(u, o, n)
    ensures var s, after := Reached(u, o, n), AfterRun(st, Reached(u, o, n).log, aborted);
            && (after.messages == st.messages + s.status.messages <==> NoneLosesInside(u, o, n))
            && !after.isStreaming && after.streamMessage == None && after.pendingToolCalls == {}
  {
    hide Reached, Sound, WorldFaithful, EachCloses, EachCommits, NoneLosesInside, NoneFailsInside, NoneThrowsOutside,
         AllClosed, AllCommit, AfterRun, Lost;
    ReachedSound(u, o, n);
    RunEndsBy(u, o, n);
    ProvidersAreInputs(u, o, n);
    AgentAgreesByLost(st, u.prompts, Got(u.world.polls), Reached(u, o, n), aborted);
  }

  lemma {:induction false} PendingPrefix(es: seq<Event>, k: nat)
    requires k <= |es| && Paired({}, es)
    ensures Paired({}, es[..k])
  {
    PendingSplit({}, es[..k], es[k..]);
    assert es[..k] + es[k..] == es;
  }

  /** At every moment of every run, between any two events and also when the run is cut
      short: with ids distinct within each reply, an id is in the Agent's set of pending
      tool calls exactly when it has one start more than ends, and no id ever has more. */
  lemma PendingAtEveryMoment(st: AgentState, u: Setup, o: nat -> TurnInput, n: nat, k: nat, id: string)
    requires WorldFaithful(u.world) && k <= |Reached(u, o, n).log| && DistinctIds(Reached(u, o, n).turns)
    requires st.pendingToolCalls == {}
    ensures var seen := Reached(u, o, n).log[..k];
            var starts, ends := Count(StartedCalls(seen), id), Count(EndedCalls(seen), id);
            && (id in ReduceAll(Begun(st), seen).state.pendingToolCalls <==> starts == ends + 1)
            && (starts == ends || starts == ends + 1)
  {
    hide Reached, WorldFaithful, DistinctIds, Paired, PendingIds;
    var seen := Reached(u, o, n).log[..k];
    LogsPair(u, o, n);
    PendingPrefix(Reached(u, o, n).log, k);
    ReducerRebuilds(Begun(st), seen);
    PendingIsStartedNotEnded({}, seen, id);
  }

  /** The Agent's messages after any run: the messages before it, the prompts, then turn
      by turn what was injected, the reply, and the committed results, and a message
      about an exception that escaped; then, if a provider left a message open, perhaps
      what was shown of it. */
  lemma AgentMessagesAre(st: AgentState, prompts: seq<Message>, before: seq<Message>, s: Run, aborted: bool)
    requires Sound(st.messages, prompts, before, s) && s.status.Done?
    ensures var told := st.messages + prompts + Recorded(s.turns) + EscapedTail(s);
            && told <= AfterRun(st, s.log, aborted).messages
            && (AllClosed(s.turns) ==> told == AfterRun(st, s.log, aborted).messages)
  {
    hide CoherentRun, NothingLost, ToolsPaired, LogsInv, BracketInv, EndsProperly, Recorded, EscapedTail, Transcript,
         AllClosed;
    ReducerRebuilds(Begun(st), s.log);
    if AllClosed(s.turns) { NothingOpenAtEnd(st, s); }
  }
}
