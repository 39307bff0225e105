/** Coherence of the conversation a run produces, and pairing of its tool events. */
module ConversationTheorems {
  import opened Messages
  import opened Events
  import opened Queues
  import opened ReplyStream
  import opened ToolPhase
  import opened ToolPhaseFacts
  import opened ToolPhaseTheorems
  import opened AgentLoop
  import opened AgentLoopTheorems

  // ----- Coherence -----

  /** Exactly one result per call, each answering its call. */
  ghost predicate AnswersAll(calls: seq<Call>, results: seq<Message>) {
    exists order: seq<nat> :: Aligned(calls, order, results) && multiset(order) == multiset(Range(0, |calls|))
  }

  /** An error or aborted reply gets no results; any other gets one per call. */
  ghost predicate CoherentTurn(t: Turn) {
    if StopsRun(t.reply) then t.results == [] else AnswersAll(Calls(t.reply.content), t.results)
  }

  /** What a sequence of turns adds to the conversation. */
  function Conversation(turns: seq<Turn>): seq<Message> {
    if turns == [] then []
    else
      var t := turns[|turns| - 1];
      Conversation(turns[..|turns| - 1]) + t.injected + [Assistant(t.reply)] + t.results
  }

  /** An exception escaped the tool phase of the last turn. */
  predicate ToolPhaseThrew(s: Run) {
    s.status.Done? && s.status.cause == Threw(InsideTurn) && s.turns != []
  }

  ghost predicate AllCoherent(turns: seq<Turn>) {
    forall k :: 0 <= k < |turns| ==> CoherentTurn(turns[k]) && (k < |turns| - 1 ==> !StopsRun(turns[k].reply))
  }

  /** newMessages is the prompts followed by whole turns, all coherent; only the
      turn in which an exception escaped is cut after its reply. */
  ghost predicate CoherentRun(prompts: seq<Message>, s: Run) {
    if ToolPhaseThrew(s) then
      var n := |s.turns| - 1;
      && s.news == prompts + Conversation(Committed(s.turns, []))
      && AllCoherent(s.turns[..n]) && (forall k :: 0 <= k < n ==> !StopsRun(s.turns[k].reply))
    else
      && s.news == prompts + Conversation(s.turns) && AllCoherent(s.turns)
      && (s.status.Active? ==> forall k :: 0 <= k < |s.turns| ==> !StopsRun(s.turns[k].reply))
  }

  lemma ConversationAppend(turns: seq<Turn>, t: Turn)
    ensures Conversation(turns + [t]) == Conversation(turns) + t.injected + [Assistant(t.reply)] + t.results
  {
    assert (turns + [t])[..|turns|] == turns;
  }

  lemma PollNextKeeps(s: Run, calls: bool, steering: seq<Message>, t: TurnInput)
    requires s.status.Active?
    ensures var r := PollNext(s, calls, steering, t);
            r.news == s.news && r.turns == s.turns && !ToolPhaseThrew(r)
  {
    hide AwaitPoll;
  }

  /** The last turn of `s` has its reply but no results yet; those before it are
      whole and did not stop the run. */
  ghost predicate Replied(prompts: seq<Message>, s: Run, r: Reply) {
    && s.turns != [] && s.status.Active?
    && var n := |s.turns| - 1;
    && s.turns[n].reply == r && s.turns[n].results == []
    && s.news == prompts + Conversation(s.turns)
    && AllCoherent(s.turns[..n]) && (forall k :: 0 <= k < n ==> !StopsRun(s.turns[k].reply))
  }

  lemma AskReplied(prompts: seq<Message>, s: Run, p: Provider)
    requires CoherentRun(prompts, s) && s.status.Active?
    ensures Replied(prompts, Ask(Inject(s), s.pending, p), StreamReply(p).reply)
  {
    hide StreamReply, CoherentTurn, AllCoherent;
    var t := Turn(s.pending, p, StreamReply(p).reply, []);
    ConversationAppend(s.turns, t);
    assert (s.turns + [t])[..|s.turns|] == s.turns;
  }

  lemma WholeTurn(prompts: seq<Message>, s: Run, r: Reply, results: seq<Message>, s': Run)
    requires Replied(prompts, s, r)
    requires s'.turns == Committed(s.turns, results) && s'.news == s.news + results && !ToolPhaseThrew(s')
    requires if StopsRun(r) then results == [] && s'.status.Done? else AnswersAll(Calls(r.content), results)
    ensures CoherentRun(prompts, s')
  {
    hide AnswersAll;
    var n := |s.turns| - 1;
    var early, last := s.turns[..n], s.turns[n];
    assert s.turns == early + [last];
    ConversationAppend(early, last);
    ConversationAppend(early, last.(results := results));
    forall k | 0 <= k < |s'.turns|
      ensures CoherentTurn(s'.turns[k]) && (k < n ==> !StopsRun(s'.turns[k].reply))
    {
      if k < n { assert s'.turns[k] == early[k]; }
    }
  }

  lemma NoCallsNoResults(r: Reply)
    requires Calls(r.content) == []
    ensures AnswersAll(Calls(r.content), [])
  {
    assert Range(0, 0) == [];
    assert Aligned([], [], []);
  }

  lemma PhaseAnswers(cfg: Config, calls: seq<Call>, inp: PhaseInput, w: World)
    requires WorldFaithful(w) && Execute(cfg, calls, inp, w).ending.Completed?
    ensures AnswersAll(calls, Execute(cfg, calls, inp, w).results)
  {
    hide Execute, WorldFaithful, Piece, WorldFollows;
    PhaseShape(cfg, calls, inp, w);
  }

  lemma AfterReplyCoherent(cfg: Config, prompts: seq<Message>, s: Run, r: Reply, t: TurnInput)
    requires Replied(prompts, s, r) && !StopsRun(r) && WorldFaithful(s.world)
    ensures CoherentRun(prompts, AfterReply(cfg, s, r, t))
  {
    hide AwaitPoll, Execute, WorldFaithful, PollNext, AnswersAll, CoherentRun;
    var calls := Calls(r.content);
    if calls == [] {
      NoCallsNoResults(r);
      PollNextKeeps(s.(log := s.log + [TurnEnd(r, [])]), false, [], t);
      assert Committed(s.turns, []) == s.turns;
      WholeTurn(prompts, s, r, [], AfterReply(cfg, s, r, t));
    } else {
      var phase := Execute(cfg, calls, t.tools, s.world);
      if phase.ending.Completed? {
        PhaseAnswers(cfg, calls, t.tools, s.world);
        PollNextKeeps(RunTools(s, phase, r), true, phase.ending.steering, t);
        WholeTurn(prompts, s, r, phase.results, AfterReply(cfg, s, r, t));
      } else {
        CutTurn(prompts, s, r, phase);
      }
    }
  }

  lemma CutTurn(prompts: seq<Message>, s: Run, r: Reply, phase: Phase)
    requires Replied(prompts, s, r) && phase.ending.Failed?
    ensures CoherentRun(prompts, RunTools(s, phase, r))
  {
    hide AllCoherent;
    var s' := RunTools(s, phase, r);
    assert Committed(s'.turns, []) == s.turns;
    assert s'.turns[..|s.turns| - 1] == s.turns[..|s.turns| - 1];
  }

  lemma PassCoherent(cfg: Config, prompts: seq<Message>, s: Run, t: TurnInput)
    requires CoherentRun(prompts, s) && s.status.Active? && WorldFaithful(s.world)
    ensures CoherentRun(prompts, Pass(cfg, s, t))
  {
    hide StreamReply, AfterReply, WorldFaithful, CoherentRun, Replied;
    AskReplied(prompts, s, t.provider);
    var asked, r := Ask(Inject(s), s.pending, t.provider), StreamReply(t.provider).reply;
    if StopsRun(r) {
      StoppedCoherent(prompts, asked, r);
    } else {
      AfterReplyCoherent(cfg, prompts, asked, r, t);
    }
  }

  lemma StoppedCoherent(prompts: seq<Message>, s: Run, r: Reply)
    requires Replied(prompts, s, r) && StopsRun(r)
    ensures CoherentRun(prompts, End(s.(log := s.log + [TurnEnd(r, [])]), ErrorReply))
  {
    assert Committed(s.turns, []) == s.turns;
    WholeTurn(prompts, s, r, [], End(s.(log := s.log + [TurnEnd(r, [])]), ErrorReply));
  }

  /** Conversation coherence over whole runs, in both modes, with or without
      steering: newMessages is the prompts and then turns, each the injected
      messages, one reply, and (unless the reply is an error) exactly one result
      per call right behind it; a reply that stops the run is the last. */
  lemma {:induction false} RunsAreCoherent(u: Setup, o: nat -> TurnInput, n: nat)
    requires WorldFaithful(u.world)
    ensures CoherentRun(u.prompts, Reached(u, o, n))
    decreases n
  {
    hide Pass, WorldFaithful, CoherentRun;
    if n == 0 {
      BeginCoherent(u);
    } else {
      RunsAreCoherent(u, o, n - 1);
      ExactlyOnceDelivery(u, o, n - 1);
      FaithOf(Got(u.world.polls), Reached(u, o, n - 1));
      var s := Reached(u, o, n - 1);
      if s.status.Active? { PassCoherent(u.cfg, u.prompts, s, o(n - 1)); }
    }
  }

  lemma BeginCoherent(u: Setup)
    ensures CoherentRun(u.prompts, Begin(u))
  {
    hide AwaitPoll;
  }

  // ----- Tool lifecycle -----

  /** The calls of the replies that did not stop the run, in order. */
  function CallsMade(turns: seq<Turn>): seq<Call> {
    if turns == [] then []
    else CallsMade(turns[..|turns| - 1]) + TurnCalls(turns[|turns| - 1])
  }

  function TurnCalls(t: Turn): seq<Call> {
    if StopsRun(t.reply) then [] else Calls(t.reply.content)
  }

  predicate DistinctIds(turns: seq<Turn>) {
    forall t :: t in turns ==> Distinct(Ids(TurnCalls(t)))
  }

  /** At a turn boundary: every call made was started once, in order, and ended
      once; the Agent's pending set is empty; with ids distinct within each
      reply, starts and ends alternate strictly. */
  predicate ToolsPaired(log: seq<Event>, turns: seq<Turn>) {
    && StartedCalls(log) == CallsMade(turns)
    && multiset(EndedCalls(log)) == multiset(CallsMade(turns))
    && PendingIds({}, log) == {}
    && (DistinctIds(turns) ==> Paired({}, log))
  }

  predicate QuietEvents(es: seq<Event>) {
    StartedCalls(es) == [] && EndedCalls(es) == []
  }

  lemma QuietKeepsPaired(log: seq<Event>, es: seq<Event>, turns: seq<Turn>)
    requires ToolsPaired(log, turns) && QuietEvents(es)
    ensures ToolsPaired(log + es, turns)
  {
    StartedSplit(log, es);
    EndedSplit(log, es);
    PendingSplit({}, log, es);
    NoTools(es, {});
  }

  lemma QuietJoin(a: seq<Event>, b: seq<Event>)
    requires QuietEvents(a) && QuietEvents(b)
    ensures QuietEvents(a + b)
  {
    StartedSplit(a, b);
    EndedSplit(a, b);
  }

  lemma QuietOne(e: Event)
    requires !e.ToolStart? && !e.ToolEnd?
    ensures QuietEvents([e])
  {
    assert [e][1..] == [];
  }

  lemma EscapeQuiet(s: Run, error: string, site: Site)
    requires ToolsPaired(s.log, s.turns)
    ensures ToolsPaired(Escape(s, error, site).log, s.turns)
  {
    var m := Assistant(EscapedReply(error));
    var es := [MessageStart(m), MessageEnd(m), TurnEnd(m.reply, []), AgentEnd(s.news + [m])];
    assert es == [MessageStart(m)] + ([MessageEnd(m)] + ([TurnEnd(m.reply, [])] + [AgentEnd(s.news + [m])]));
    QuietOne(MessageStart(m));
    QuietOne(MessageEnd(m));
    QuietOne(TurnEnd(m.reply, []));
    QuietOne(AgentEnd(s.news + [m]));
    QuietJoin([TurnEnd(m.reply, [])], [AgentEnd(s.news + [m])]);
    QuietJoin([MessageEnd(m)], [TurnEnd(m.reply, [])] + [AgentEnd(s.news + [m])]);
    QuietJoin([MessageStart(m)], [MessageEnd(m)] + ([TurnEnd(m.reply, [])] + [AgentEnd(s.news + [m])]));
    QuietKeepsPaired(s.log, es, s.turns);
  }

  lemma ThenQuiet(log: seq<Event>, e: Event, turns: seq<Turn>)
    requires ToolsPaired(log, turns) && !e.ToolStart? && !e.ToolEnd?
    ensures ToolsPaired(log + [e], turns)
  {
    QuietOne(e);
    QuietKeepsPaired(log, [e], turns);
  }

  lemma PollNextPaired(s: Run, calls: bool, steering: seq<Message>, t: TurnInput)
    requires ToolsPaired(s.log, s.turns)
    ensures ToolsPaired(PollNext(s, calls, steering, t).log, s.turns)
  {
    hide AwaitPoll, ToolsPaired, Escape;
    if steering == [] {
      var one := AwaitPoll(s.world, Steering, t.after);
      if one.PollThrew? {
        EscapeQuiet(s.(world := one.world), one.error, OutsideTurn);
      } else if !calls && one.got == [] {
        var two := AwaitPoll(one.world, FollowUps, t.followUp);
        if two.PollThrew? { EscapeQuiet(s.(world := two.world), two.error, OutsideTurn); }
        ThenQuiet(s.log, AgentEnd(s.news), s.turns);
      }
    }
  }

  /** A completed phase adds its calls. */
  lemma PhasePaired(log: seq<Event>, early: seq<Turn>, t: Turn, calls: seq<Call>, phase: Phase)
    requires ToolsPaired(log, early) && TurnCalls(t) == calls
    requires Shaped(calls, 0, phase) && phase.ending.Completed?
    requires PendingIds({}, phase.events) == {} && (Distinct(Ids(calls)) ==> Paired({}, phase.events))
    ensures ToolsPaired(log + phase.events, early + [t])
  {
    hide Distinct, Ids, TurnCalls;
    StartedSplit(log, phase.events);
    EndedSplit(log, phase.events);
    PendingSplit({}, log, phase.events);
    assert (early + [t])[..|early|] == early;
    assert calls[0..] == calls;
    EndedOnce(calls, phase.order);
    assert multiset(EndedCalls(log) + EndedCalls(phase.events))
      == multiset(EndedCalls(log)) + multiset(EndedCalls(phase.events));
  }

  /** A permutation of the indices is a permutation of the calls. */
  lemma EndedOnce(calls: seq<Call>, order: seq<nat>)
    requires Within(order, |calls|) && multiset(order) == multiset(Range(0, |calls|))
    ensures multiset(CallsAt(calls, order)) == multiset(calls)
  {
    SamePicks(calls, order, Range(0, |calls|));
    assert CallsAt(calls, Range(0, |calls|)) == calls;
  }

  lemma TakeOut(a: seq<nat>, b: seq<nat>) returns (j: nat)
    requires a != [] && multiset(a) == multiset(b)
    ensures j < |b| && b[j] == a[0] && multiset(a[1..]) == multiset(b[..j] + b[j + 1..])
  {
    var x := a[0];
    assert x in multiset(b);
    j :| 0 <= j < |b| && b[j] == x;
    assert a == [x] + a[1..];
    assert b == b[..j] + ([x] + b[j + 1..]);
    assert multiset(b) == multiset(b[..j]) + (multiset([x]) + multiset(b[j + 1..]));
    assert multiset(a) == multiset([x]) + multiset(a[1..]);
    assert multiset(a) - multiset([x]) == multiset(a[1..]);
    assert multiset(b) - multiset([x]) == multiset(b[..j]) + multiset(b[j + 1..]);
  }

  lemma {:induction false} SamePicks(calls: seq<Call>, a: seq<nat>, b: seq<nat>)
    requires Within(a, |calls|) && Within(b, |calls|) && multiset(a) == multiset(b)
    ensures multiset(CallsAt(calls, a)) == multiset(CallsAt(calls, b))
    decreases |a|
  {
    assert |multiset(a)| == |multiset(b)|;
    if a != [] {
      var j := TakeOut(a, b);
      var b' := b[..j] + b[j + 1..];
      SamePicks(calls, a[1..], b');
      assert CallsAt(calls, a) == [calls[a[0]]] + CallsAt(calls, a[1..]);
      assert CallsAt(calls, b) == CallsAt(calls, b[..j]) + [calls[b[j]]] + CallsAt(calls, b[j + 1..]);
      assert CallsAt(calls, b') == CallsAt(calls, b[..j]) + CallsAt(calls, b[j + 1..]);
    }
  }

  lemma AskPaired(s: Run, p: Provider)
    requires ToolsPaired(s.log, s.turns)
    ensures ToolsPaired(Ask(Inject(s), s.pending, p).log, s.turns)
  {
    hide ToolsPaired, StreamReply, Pairs, ClosesWhatItOpens, LeavesOneMessage, Commits, TellsFailure, Finishes, Scan,
         Transcript;
    var open := if s.firstTurn then [] else [TurnStart];
    if !s.firstTurn { QuietOne(TurnStart); }
    PairsFacts(s.pending, {});
    StreamOutcome(p, {});
    QuietKeepsPaired(s.log, open, s.turns);
    QuietKeepsPaired(s.log + open, Pairs(s.pending), s.turns);
    QuietKeepsPaired(s.log + open + Pairs(s.pending), StreamReply(p).events, s.turns);
    assert s.log + (open + Pairs(s.pending)) == s.log + open + Pairs(s.pending);
  }

  /** A turn without tool calls adds none. */
  lemma QuietTurn(log: seq<Event>, early: seq<Turn>, t: Turn)
    requires ToolsPaired(log, early) && TurnCalls(t) == []
    ensures ToolsPaired(log, early + [t])
  {
    assert (early + [t])[..|early|] == early;
    assert t in early + [t] && (forall x :: x in early ==> x in early + [t]);
  }

  lemma AfterReplyPaired(cfg: Config, early: seq<Turn>, s: Run, r: Reply, t: TurnInput)
    requires s.turns != [] && s.turns[..|s.turns| - 1] == early && s.turns[|s.turns| - 1].reply == r
    requires ToolsPaired(s.log, early) && !StopsRun(r) && WorldFaithful(s.world) && s.status.Active?
    ensures var s' := AfterReply(cfg, s, r, t);
            ToolPhaseThrew(s') || ToolsPaired(s'.log, s'.turns)
  {
    hide AwaitPoll, Execute, WorldFaithful, PollNext, ToolsPaired, Shaped, TurnCalls, DistinctIds, CallsMade;
    var calls, last := Calls(r.content), s.turns[|s.turns| - 1];
    assert s.turns == early + [last];
    TurnCallsOf(last);
    if calls == [] {
      QuietTurn(s.log, early, last);
      ThenQuiet(s.log, TurnEnd(r, []), s.turns);
      PollNextPaired(s.(log := s.log + [TurnEnd(r, [])]), false, [], t);
      PollNextKeeps(s.(log := s.log + [TurnEnd(r, [])]), false, [], t);
    } else {
      var phase := Execute(cfg, calls, t.tools, s.world);
      if phase.ending.Completed? {
        var s' := RunTools(s, phase, r);
        PhaseShape(cfg, calls, t.tools, s.world);
        PhaseCloses(cfg, calls, t.tools, s.world);
        TurnCallsOf(last.(results := phase.results));
        PhasePaired(s.log, early, last.(results := phase.results), calls, phase);
        ThenQuiet(s.log + phase.events, TurnEnd(r, phase.results), s'.turns);
        PollNextPaired(s', true, phase.ending.steering, t);
        PollNextKeeps(s', true, phase.ending.steering, t);
      }
    }
  }

  lemma TurnCallsOf(t: Turn)
    ensures TurnCalls(t) == if StopsRun(t.reply) then [] else Calls(t.reply.content)
  {
  }

  lemma PassPaired(cfg: Config, s: Run, t: TurnInput)
    requires ToolsPaired(s.log, s.turns) && s.status.Active? && WorldFaithful(s.world)
    ensures var s' := Pass(cfg, s, t); ToolPhaseThrew(s') || ToolsPaired(s'.log, s'.turns)
  {
    hide StreamReply, AfterReply, WorldFaithful, ToolsPaired, TurnCalls;
    AskPaired(s, t.provider);
    var asked, r := Ask(Inject(s), s.pending, t.provider), StreamReply(t.provider).reply;
    var last := Turn(s.pending, t.provider, r, []);
    if StopsRun(r) {
      TurnCallsOf(last);
      QuietTurn(asked.log, s.turns, last);
      ThenQuiet(asked.log, TurnEnd(r, []), asked.turns);
      ThenQuiet(asked.log + [TurnEnd(r, [])], AgentEnd(asked.news), asked.turns);
    } else {
      assert asked.turns[..|asked.turns| - 1] == s.turns;
      AfterReplyPaired(cfg, s.turns, asked, r, t);
    }
  }

  lemma BeginPaired(u: Setup)
    ensures ToolsPaired(Begin(u).log, Begin(u).turns)
  {
    hide AwaitPoll, ToolsPaired, Pairs;
    EmptyPaired();
    ThenQuiet([], AgentStart, []);
    ThenQuiet([] + [AgentStart], TurnStart, []);
    assert [] + [AgentStart] + [TurnStart] == [AgentStart, TurnStart];
    PairsFacts(u.prompts, {});
    QuietKeepsPaired([AgentStart, TurnStart], Pairs(u.prompts), []);
    if u.initial.Some? {
      var r := AwaitPoll(u.world, Steering, u.initial.value);
      if r.PollThrew? { EscapeQuiet(Begin(u.(initial := None)).(world := r.world), r.error, InsideTurn); }
    }
  }

  lemma EmptyPaired()
    ensures ToolsPaired([], [])
  {
  }

  /** Tool lifecycle over whole runs: at every turn boundary each call made so far
      has exactly one start, in call order, and exactly one end, the pending set
      is empty, and with ids distinct within each reply every end follows its
      start.  The one exception is a run ended by an exception in a tool phase. */
  lemma {:induction false} ToolLifecycle(u: Setup, o: nat -> TurnInput, n: nat)
    requires WorldFaithful(u.world)
    ensures var s := Reached(u, o, n); ToolPhaseThrew(s) || ToolsPaired(s.log, s.turns)
    decreases n
  {
    hide Pass, WorldFaithful, ToolsPaired;
    if n == 0 {
      BeginPaired(u);
    } else {
      ToolLifecycle(u, o, n - 1);
      ExactlyOnceDelivery(u, o, n - 1);
      FaithOf(Got(u.world.polls), Reached(u, o, n - 1));
      var s := Reached(u, o, n - 1);
      if s.status.Active? { PassPaired(u.cfg, s, o(n - 1)); }
    }
  }
}
