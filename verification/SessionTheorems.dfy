/** Whole sessions of one Agent: any interleaving of queue operations, prompts,
    continues and turns. */
module SessionTheorems {
  import opened Messages
  import opened Events
  import opened Queues
  import opened ReplyStream
  import opened ToolPhase
  import opened ToolPhaseFacts
  import opened ToolPhaseTheorems
  import opened AgentLoop
  import opened AgentLoopTheorems
  import opened AgentLogTheorems
  import opened ConversationTheorems
  import opened TranscriptTheorems
  import opened RunFailures
  import opened LogContents
  import opened Agent
  import opened AgentTheorems

  // ----- A run streams until agent_end -----

  predicate NoEnd(es: seq<Event>) {
    es == [] || (!es[0].AgentEnd? && NoEnd(es[1..]))
  }

  lemma {:induction false} NoEndSplit(a: seq<Event>, b: seq<Event>)
    ensures NoEnd(a + b) <==> NoEnd(a) && NoEnd(b)
  {
    if a == [] {
      assert a + b == b;
    } else {
      assert (a + b)[1..] == a[1..] + b;
      NoEndSplit(a[1..], b);
    }
  }

  lemma NoEndThen(es: seq<Event>, e: Event)
    ensures NoEnd(es + [e]) <==> NoEnd(es) && !e.AgentEnd?
  {
    NoEndSplit(es, [e]);
    assert [e][1..] == [];
  }

  lemma {:induction false} StreamingUntilEnd(r: Reading, es: seq<Event>)
    ensures ReduceAll(r, es).state.isStreaming <==> r.state.isStreaming && NoEnd(es)
    decreases |es|
  {
    if es != [] { StreamingUntilEnd(Reduce(r, es[0]), es[1..]); }
  }

  /** Nothing may follow an agent_end in a log that is in order. */
  lemma {:induction false} OpenLogHasNoEnd(p: Place, es: seq<Event>)
    requires !Scan(p, es).Closed? && !Scan(p, es).Broken?
    ensures NoEnd(es)
    decreases |es|
  {
    if es != [] {
      var q := Move(p, es[0]);
      if q.Broken? {
        BrokenStays(es[1..]);
      } else if q.Closed? {
        if |es| > 1 { BrokenStays(es[1..][1..]); }
      } else {
        OpenLogHasNoEnd(q, es[1..]);
      }
    }
  }

  lemma {:induction false} ConsumeNoEnd(p: Provider, evs: seq<ProviderEvent>, st: Streaming)
    requires NoEnd(st.events)
    ensures NoEnd(Consume(p, evs, st).events)
    decreases |evs|
  {
    if evs == [] || evs[0].Finished? {
      ConsumeEndNoEnd(p, evs, st);
    } else {
      var next := StreamStep(st, evs[0]);
      assert NoEnd(next.events) by {
        if next != st { NoEndThen(st.events, next.events[|st.events|]); }
      }
      ConsumeNoEnd(p, evs[1..], next);
    }
  }

  lemma ConsumeEndNoEnd(p: Provider, evs: seq<ProviderEvent>, st: Streaming)
    requires NoEnd(st.events) && (evs == [] || evs[0].Finished?)
    ensures NoEnd(Consume(p, evs, st).events)
  {
    var out := Consume(p, evs, st);
    var m := Assistant(out.reply);
    assert st.events + [] == st.events;
    NoEndThen(st.events, MessageStart(m));
    NoEndThen(st.events, MessageEnd(m));
    NoEndThen(st.events + [MessageStart(m)], MessageEnd(m));
    assert st.events + [MessageStart(m), MessageEnd(m)] == st.events + [MessageStart(m)] + [MessageEnd(m)];
  }

  lemma {:induction false} PairsNoEnd(ms: seq<Message>)
    ensures NoEnd(Pairs(ms))
  {
    if ms != [] {
      PairsNoEnd(ms[1..]);
      var two := [MessageStart(ms[0]), MessageEnd(ms[0])];
      NoEndThen([], MessageStart(ms[0]));
      NoEndThen([MessageStart(ms[0])], MessageEnd(ms[0]));
      assert [MessageStart(ms[0])] + [MessageEnd(ms[0])] == two && [] + [MessageStart(ms[0])] == [MessageStart(ms[0])];
      NoEndSplit(two, Pairs(ms[1..]));
    }
  }

  /** While a run is active its log has no agent_end. */
  predicate Unended(s: Run) { s.status.Active? ==> NoEnd(s.log) }

  lemma PollNextUnended(s: Run, calls: bool, steering: seq<Message>, t: TurnInput)
    requires NoEnd(s.log)
    ensures Unended(PollNext(s, calls, steering, t))
  {
    hide AwaitPoll, NoEnd;
  }

  lemma AskUnended(s: Run, p: Provider)
    requires NoEnd(s.log)
    ensures NoEnd(Ask(Inject(s), s.pending, p).log)
  {
    hide Consume, Pairs;
    var open := if s.firstTurn then [] else [TurnStart];
    if !s.firstTurn { NoEndThen(s.log, TurnStart); }
    PairsNoEnd(s.pending);
    NoEndSplit(s.log + open, Pairs(s.pending));
    ConsumeNoEnd(p, p.events, Streaming([], []));
    NoEndSplit(s.log + open + Pairs(s.pending), StreamReply(p).events);
    assert s.log + [] == s.log;
  }

  lemma PassUnended(cfg: Config, s: Run, t: TurnInput)
    requires NoEnd(s.log) && s.status.Active? && WorldFaithful(s.world)
    ensures Unended(Pass(cfg, s, t))
  {
    hide PollNext, Execute, StreamReply, NoEnd, WorldFaithful, Ask, Inject;
    AskUnended(s, t.provider);
    var asked, r := Ask(Inject(s), s.pending, t.provider), StreamReply(t.provider).reply;
    assert asked.world == s.world && asked.turns != [] by { AskedWorld(s, t.provider); }
    if !StopsRun(r) {
      var calls := Calls(r.content);
      if calls == [] {
        NoEndThen(asked.log, TurnEnd(r, []));
        PollNextUnended(asked.(log := asked.log + [TurnEnd(r, [])]), false, [], t);
      } else {
        var phase := Execute(cfg, calls, t.tools, asked.world);
        if phase.ending.Completed? {
          PhaseNoEnd(cfg, calls, t.tools, asked.world);
          NoEndSplit(asked.log, phase.events);
          NoEndThen(asked.log + phase.events, TurnEnd(r, phase.results));
          PollNextUnended(RunTools(asked, phase, r), true, phase.ending.steering, t);
        }
      }
    }
  }

  lemma AskedWorld(s: Run, p: Provider)
    ensures var asked := Ask(Inject(s), s.pending, p); asked.world == s.world && asked.turns != []
  {
  }

  lemma PhaseNoEnd(cfg: Config, calls: seq<Call>, inp: PhaseInput, w: World)
    requires WorldFaithful(w)
    ensures NoEnd(Execute(cfg, calls, inp, w).events)
  {
    hide Execute, WorldFaithful, WorldFollows;
    PhaseShape(cfg, calls, inp, w);
    OpenLogHasNoEnd(InTurn, Execute(cfg, calls, inp, w).events);
  }

  lemma BeginUnended(u: Setup)
    ensures Unended(Begin(u))
  {
    hide AwaitPoll, Pairs;
    NoEndThen([], AgentStart);
    NoEndThen([AgentStart], TurnStart);
    assert [] + [AgentStart] == [AgentStart] && [AgentStart] + [TurnStart] == [AgentStart, TurnStart];
    PairsNoEnd(u.prompts);
    NoEndSplit([AgentStart, TurnStart], Pairs(u.prompts));
  }

  // ----- The session invariant -----

  /** Queued messages a record accounts for, in poll order. */
  function Absorbed(history: seq<Record>): seq<Message> {
    if history == [] then []
    else
      Absorbed(history[..|history| - 1]) +
      match history[|history| - 1]
      case Ran(l) => l.fromQueue + Injected(l.run.turns)
      case Refused(lost) => lost
  }

  predicate Idle(st: AgentState) {
    !st.isStreaming && st.streamMessage == None && st.pendingToolCalls == {}
  }

  /** A run of this session, started when `before` had been polled. */
  ghost predicate SoundLive(before: seq<Message>, l: Live) {
    && Idle(l.start)
    && (l.fromQueue == [] || l.fromQueue == l.prompts)
    && Sound(l.start.messages, l.prompts, before + l.fromQueue, l.run)
    && Unended(l.run)
  }

  ghost predicate SessionInv(x: Session) {
    && (match x.live
        case None => WorldFaithful(x.world) && Got(x.world.polls) == Absorbed(x.history) && Idle(x.state)
        case Some(l) => l.run.status.Active? && SoundLive(Absorbed(x.history), l))
    && (forall k :: 0 <= k < |x.history| && x.history[k].Ran? ==>
          x.history[k].live.run.status.Done? && SoundLive(Absorbed(x.history[..k]), x.history[k].live))
  }

  lemma AbsorbedAppend(history: seq<Record>, r: Record)
    ensures Absorbed(history + [r])
         == Absorbed(history) + (match r case Ran(l) => l.fromQueue + Injected(l.run.turns) case Refused(lost) => lost)
  {
    assert (history + [r])[..|history|] == history;
  }

  lemma OneMoreRecord(history: seq<Record>, r: Record)
    requires forall k :: 0 <= k < |history| && history[k].Ran? ==>
               history[k].live.run.status.Done? && SoundLive(Absorbed(history[..k]), history[k].live)
    requires r.Ran? ==> r.live.run.status.Done? && SoundLive(Absorbed(history), r.live)
    ensures var h := history + [r];
            forall k :: 0 <= k < |h| && h[k].Ran? ==>
              h[k].live.run.status.Done? && SoundLive(Absorbed(h[..k]), h[k].live)
  {
    hide SoundLive, Absorbed;
    var h := history + [r];
    forall k | 0 <= k < |h| && h[k].Ran?
      ensures h[k].live.run.status.Done? && SoundLive(Absorbed(h[..k]), h[k].live)
    {
      assert h[..k] == history[..k];
      if k == |history| { assert history[..k] == history; }
    }
  }

  lemma LiveWorld(before: seq<Message>, l: Live)
    requires SoundLive(before, l)
    ensures WorldFaithful(l.run.world)
    ensures Got(l.run.world.polls) == before + l.fromQueue + Injected(l.run.turns) + l.run.pending
    ensures l.run.status.Done? ==> l.run.pending == []
  {
    hide BracketInv, LogsInv, CoherentRun, Written, ToolsPaired, EndsProperly, WorldFaithful;
  }

  lemma ProceedKeeps(x: Session, l: Live, aborted: bool)
    requires SoundLive(Absorbed(x.history), l)
    requires forall k :: 0 <= k < |x.history| && x.history[k].Ran? ==>
               x.history[k].live.run.status.Done? && SoundLive(Absorbed(x.history[..k]), x.history[k].live)
    ensures SessionInv(Proceed(x, l, aborted))
  {
    hide SoundLive, Absorbed, WorldFaithful, ReduceAll;
    if l.run.status.Done? {
      OneMoreRecord(x.history, Ran(l));
      AbsorbedAppend(x.history, Ran(l));
      LiveWorld(Absorbed(x.history), l);
    }
  }

  /** What an entrance took from the queues it either runs with or loses. */
  ghost predicate Accounts(w: World, e: Entrance) {
    && WorldFaithful(e.world)
    && Got(e.world.polls) == Got(w.polls) + (if e.Rejected? then e.lost else e.fromQueue)
    && (e.Enters? ==> e.fromQueue == [] || e.fromQueue == e.prompts)
  }

  lemma EnterKeeps(x: Session, e: Entrance)
    requires SessionInv(x) && x.live.None? && Accounts(x.world, e)
    ensures SessionInv(Enter(x, e))
  {
    hide Sound, Absorbed, WorldFaithful, Begin, Unended;
    match e
    case Rejected(_, lost, w) =>
      OneMoreRecord(x.history, Refused(lost));
      AbsorbedAppend(x.history, Refused(lost));
    case Enters(prompts, fromQueue, skip, w) =>
      var u := SetupOf(x.cfg, w, x.state.messages, prompts, skip);
      BeginSound(u);
      BeginUnended(u);
      ProceedKeeps(x, Live(x.state, prompts, fromQueue, Begin(u)), false);
  }

  lemma LaunchAccounts(w: World, got: seq<Message>, skip: bool, hasModel: bool, w': World)
    requires WorldFaithful(w') && Got(w'.polls) == Got(w.polls) + got
    ensures Accounts(w, Launch(got, skip, hasModel, w'))
  {
    hide WorldFaithful, Got;
  }

  lemma ContinueAccounts(st: AgentState, hasModel: bool, w: World)
    requires WorldFaithful(w)
    ensures Accounts(w, EnterContinue(st, hasModel, w))
  {
    hide WorldFaithful, AfterPoll, Answer, Got, Launch;
    var w1 := AfterPoll(w, Steering);
    var w2 := AfterPoll(w1, FollowUps);
    PollKeepsFaith(w, Steering);
    PollKeepsFaith(w1, FollowUps);
    LaunchAccounts(w, [], false, hasModel, w);
    LaunchAccounts(w, Answer(w, Steering), true, hasModel, w1);
    if Answer(w, Steering) == [] { LaunchAccounts(w, Answer(w1, FollowUps), false, hasModel, w2); }
  }

  lemma LiveIsStreaming(x: Session)
    requires SessionInv(x) && x.live.Some?
    ensures State(x).isStreaming
  {
    hide Sound, NoEnd;
    StreamingUntilEnd(Begun(x.live.value.start), x.live.value.run.log);
  }

  /** While a run is in progress prompt() and continue() are refused and change
      nothing: there is never more than one run, and no queue is touched. */
  lemma OneRunAtATime(x: Session, messages: seq<Message>)
    requires SessionInv(x) && x.live.Some?
    ensures Step(x, Prompt(messages)) == x && Step(x, Continue) == x
  {
    hide SessionInv, ReduceAll;
    LiveIsStreaming(x);
  }

  lemma ActSound(context: seq<Message>, prompts: seq<Message>, before: seq<Message>, s: Run, a: Action)
    requires Sound(context, prompts, before, s)
    ensures Sound(context, prompts, before, s.(world := Act(s.world, a)))
  {
    hide WorldFaithful, Act, AllClosed, AllCommit, AllLeaveOne, ToolsPaired, AllCoherent, Scan, Transcript;
    ActKeepsFaith(s.world, a);
  }

  lemma QueueKeeps(x: Session, a: Action)
    requires SessionInv(x)
    ensures SessionInv(Step(x, Queue(a)))
  {
    hide Sound, WorldFaithful, Absorbed, Act, Unended;
    match x.live {
      case None => ActKeepsFaith(x.world, a);
      case Some(l) =>
        ActSound(l.start.messages, l.prompts, Absorbed(x.history) + l.fromQueue, l.run, a);
        SameLog(l.run, l.run.(world := Act(l.run.world, a)));
    }
  }

  lemma SameLog(a: Run, b: Run)
    requires a.log == b.log && a.status == b.status
    ensures Unended(a) == Unended(b)
  {
  }

  lemma TurnKeeps(x: Session, t: TurnInput, aborted: bool)
    requires SessionInv(x)
    ensures SessionInv(Step(x, NextTurn(t, aborted)))
  {
    hide Sound, WorldFaithful, Absorbed, Pass, Unended;
    if x.live.Some? {
      var l := x.live.value;
      LiveWorld(Absorbed(x.history), l);
      PassSound(x.cfg, l.start.messages, l.prompts, Absorbed(x.history) + l.fromQueue, l.run, t);
      assert NoEnd(l.run.log) by { LiveUnended(l.run); }
      PassUnended(x.cfg, l.run, t);
      ProceedKeeps(x, l.(run := Pass(x.cfg, l.run, t)), aborted);
    }
  }

  lemma LiveUnended(s: Run)
    requires Unended(s) && s.status.Active?
    ensures NoEnd(s.log)
  {
  }

  lemma StepKeeps(x: Session, i: Input)
    requires SessionInv(x)
    ensures SessionInv(Step(x, i))
  {
    hide SoundLive, WorldFaithful, Absorbed, Act, Pass, Enter, EnterContinue, ReduceAll;
    match i
    case Queue(a) => QueueKeeps(x, a);
    case SetModel(_) =>
    case SetMessages(_) =>
    case Prompt(ms) =>
      if x.live.Some? {
        OneRunAtATime(x, ms);
      } else {
        EnterKeeps(x, EnterPrompt(x.state, x.hasModel, x.world, ms));
      }
    case Continue =>
      if x.live.Some? {
        OneRunAtATime(x, []);
      } else {
        ContinueAccounts(x.state, x.hasModel, x.world);
        EnterKeeps(x, EnterContinue(x.state, x.hasModel, x.world));
      }
    case NextTurn(t, aborted) => TurnKeeps(x, t, aborted);
  }

  /** Every session, whatever the interleaving: every run in it is sound, the
      queues agree with their ledgers, and each dequeued message is accounted
      for, once and in order, by the run that was given it or the call that
      threw with it. */
  lemma {:induction false} SessionsAreSound(x: Session, inputs: seq<Input>)
    requires SessionInv(x)
    ensures SessionInv(StepAll(x, inputs))
    decreases |inputs|
  {
    hide SessionInv, Step;
    if inputs != [] {
      StepKeeps(x, inputs[0]);
      SessionsAreSound(Step(x, inputs[0]), inputs[1..]);
    }
  }

  // ----- What the invariant means -----

  /** The queued messages of the run in progress, in poll order. */
  function InProgress(x: Session): seq<Message> {
    match x.live
    case None => []
    case Some(l) => l.fromQueue + Injected(l.run.turns) + l.run.pending
  }

  predicate Accounted(t: Track) {
    && multiset(Entries(t.ledger))
       == multiset(t.lane.entries) + multiset(t.delivered) + multiset(t.drained) + multiset(t.cleared)
    && t.delivered == Pick(t.ledger, Delivered) && t.lane.entries == Pick(t.ledger, Waiting)
  }

  lemma FaithfulAccounts(t: Track)
    requires Faithful(t)
    ensures Accounted(t)
  {
    FatesPartition(t.ledger);
  }

  lemma SessionWorld(x: Session)
    requires SessionInv(x)
    ensures WorldFaithful(Now(x)) && Got(Now(x).polls) == Absorbed(x.history) + InProgress(x)
  {
    hide SoundLive, WorldFaithful;
    if x.live.Some? { LiveWorld(Absorbed(x.history), x.live.value); }
  }

  /** Exactly-once delivery across a whole session.  For each queue: every message
      ever enqueued is waiting, drained, cleared or delivered, once, and the
      delivered ones are in enqueue order; what was ever enqueued is what the steer and
      followUp calls performed so far gave it, in order.  For both together: what the
      polls delivered, in order, is what finished runs were started with or injected
      and what the run in progress has so far; no exit path drops any. */
  lemma EveryMessageAccountedFor(cfg: Config, steeringMode: Mode, followUpMode: Mode, inputs: seq<Input>)
    ensures var x := StepAll(NewSession(cfg, steeringMode, followUpMode), inputs);
            var w := Now(x);
            && Accounted(w.steering) && Accounted(w.followUp)
            && Entries(w.steering.ledger) == SteeredBy(w.acts)
            && Entries(w.followUp.ledger) == FollowedUpBy(w.acts)
            && GotFrom(w.polls, Steering) == Texts(w.steering.delivered)
            && GotFrom(w.polls, FollowUps) == Texts(w.followUp.delivered)
            && Got(w.polls) == Absorbed(x.history) + InProgress(x)
  {
    hide SessionInv, Step, Accounted, Faithful;
    var x0 := NewSession(cfg, steeringMode, followUpMode);
    FreshSession(cfg, steeringMode, followUpMode);
    SessionsAreSound(x0, inputs);
    var x := StepAll(x0, inputs);
    SessionWorld(x);
    FaithfulAccounts(Now(x).steering);
    FaithfulAccounts(Now(x).followUp);
  }

  lemma FreshSession(cfg: Config, steeringMode: Mode, followUpMode: Mode)
    ensures SessionInv(NewSession(cfg, steeringMode, followUpMode))
    ensures var x := NewSession(cfg, steeringMode, followUpMode);
            && x.hasModel && x.live == None && x.history == []
            && x.state.messages == [] && x.state.error == None && Idle(x.state)
            && x.world.steering.lane == Lane([], steeringMode) && x.world.followUp.lane == Lane([], followUpMode)
  {
  }

  /** What a finished run took from the queues stands in the Agent's messages once, in
      poll order, however the run ended and whatever its providers did: its prompts, if
      they came from a queue, and then turn by turn what was injected, in front of the
      reply and the results of that turn. */
  lemma DeliveredIntoTranscript(before: seq<Message>, l: Live, aborted: bool)
    requires SoundLive(before, l) && l.run.status.Done?
    ensures var told := l.start.messages + l.prompts + Recorded(l.run.turns) + EscapedTail(l.run);
            var after := AfterRun(l.start, l.run.log, aborted);
            && told <= after.messages && (AllClosed(l.run.turns) ==> told == after.messages)
            && (l.fromQueue == [] || l.fromQueue == l.prompts)
            && Got(l.run.world.polls) == before + l.fromQueue + Injected(l.run.turns)
  {
    hide Sound, AfterRun, Recorded, EscapedTail, AllClosed, Injected, Got, Unended;
    AgentMessagesAre(l.start, l.prompts, before + l.fromQueue, l.run, aborted);
    LiveWorld(before, l);
  }

  /** A finished run whose providers kept to the stream contract left the Agent idle,
      with its transcript in step unless the run lost a committed result. */
  lemma FinishedRunsByLost(x: Session, k: nat, aborted: bool)
    requires SessionInv(x) && k < |x.history| && x.history[k].Ran?
    requires AllClosed(x.history[k].live.run.turns) && AllCommit(x.history[k].live.run.turns)
    ensures var l := x.history[k].live;
            var after := AfterRun(l.start, l.run.log, aborted);
            && l.run.status.Done? && Idle(after)
            && (after.messages == l.start.messages + l.run.status.messages <==> Lost(l.run) == [])
  {
    hide Sound, AfterRun, Lost, AllClosed, AllCommit, Absorbed;
    var l := x.history[k].live;
    AgentAgreesByLost(l.start, l.prompts, Absorbed(x.history[..k]) + l.fromQueue, l.run, aborted);
  }

  predicate KeepsContract(p: Provider) { ClosesWhatItOpens(p) && Commits(p) }

  lemma MoreContracts(turns: seq<Turn>, p: Provider, more: seq<Turn>)
    requires AllClosed(turns) && AllCommit(turns) && KeepsContract(p)
    requires Providers(more) == Providers(turns) + [p]
    ensures AllClosed(more) && AllCommit(more)
  {
    hide ClosesWhatItOpens, Commits;
  }

  /** The turn that ends a run leaves the Agent idle, and its transcript extended by
      exactly what agent_end carries if and only if the turn's tool phase does not fail
      after committing a result: a condition on the queues and the input of that turn. */
  lemma FinishingTurnAgreesExactlyWhen(x: Session, t: TurnInput, aborted: bool)
    requires SessionInv(x) && x.live.Some? && Step(x, NextTurn(t, aborted)).live.None?
    requires AllClosed(x.live.value.run.turns) && AllCommit(x.live.value.run.turns) && KeepsContract(t.provider)
    ensures var l, x' := x.live.value, Step(x, NextTurn(t, aborted));
            var r := Pass(x.cfg, l.run, t);
            && r.status.Done? && Idle(x'.state)
            && (x'.state.messages == l.start.messages + r.status.messages <==> !LosesInside(x.cfg, l.run.world, t))
  {
    hide SoundLive, AfterRun, Lost, AllClosed, AllCommit, Absorbed, Pass, WorldFaithful, ThrowsOutside, FailsInside,
         LosesInside, KeepsContract, EndedOutside, ToolPhaseThrew;
    var l := x.live.value;
    var r := Pass(x.cfg, l.run, t);
    LiveWorld(Absorbed(x.history), l);
    TurnKeeps(x, t, aborted);
    PassEndsBy(x.cfg, l.run, t);
    PassProviders(x.cfg, l.run, t);
    MoreContracts(l.run.turns, t.provider, r.turns);
    LastRecord(x, l.(run := r), aborted);
    FinishedRunsByLost(Step(x, NextTurn(t, aborted)), |x.history|, aborted);
  }

  lemma LastRecord(x: Session, l: Live, aborted: bool)
    requires l.run.status.Done?
    ensures var x' := Proceed(x, l, aborted);
            && |x'.history| == |x.history| + 1 && x'.history[|x.history|] == Ran(l)
            && x'.state == AfterRun(l.start, l.run.log, aborted)
  {
    hide AfterRun;
  }

  // ----- Sessions whose hooks do not throw -----

  /** No run in this history lost a committed result. */
  predicate NoneLost(history: seq<Record>) {
    forall r :: r in history && r.Ran? ==> Lost(r.live.run) == []
  }

  /** No hook and no poll of a tool phase throws. */
  predicate GentleInput(i: Input) { i.NextTurn? ==> GentleTools(i.turn) }

  lemma StepLosesNothing(x: Session, i: Input)
    requires SessionInv(x) && NoneLost(x.history) && GentleInput(i)
    ensures NoneLost(Step(x, i).history)
  {
    hide SoundLive, WorldFaithful, Absorbed, Act, Pass, Begin, EnterPrompt, EnterContinue, Lost, AfterRun, ReduceAll,
         GentleTools;
    match i
    case Queue(_) =>
    case SetModel(_) =>
    case SetMessages(_) =>
    case Prompt(ms) => EnterLosesNothing(x, EnterPrompt(State(x), x.hasModel, Now(x), ms));
    case Continue => EnterLosesNothing(x, EnterContinue(State(x), x.hasModel, Now(x)));
    case NextTurn(t, aborted) =>
      if x.live.Some? {
        var l := x.live.value;
        LiveWorld(Absorbed(x.history), l);
        TurnLosesNothing(x.cfg, l.run, t);
      }
  }

  lemma TurnLosesNothing(cfg: Config, s: Run, t: TurnInput)
    requires s.status.Active? && WorldFaithful(s.world) && GentleTools(t)
    ensures Lost(Pass(cfg, s, t)) == []
  {
    hide Pass, WorldFaithful, ThrowsOutside, FailsInside, LosesInside, GentleTools, Lost;
    PassEndsBy(cfg, s, t);
    GentleNeverFails(cfg, s.world, t);
  }

  lemma EnterLosesNothing(x: Session, e: Entrance)
    requires NoneLost(x.history)
    ensures NoneLost(Enter(x, e).history)
  {
    hide Begin, Lost, AfterRun;
    if e.Enters? {
      var u := SetupOf(x.cfg, e.world, x.state.messages, e.prompts, e.skipInitialPoll);
      BeginEndsBy(u);
    }
  }

  lemma {:induction false} GentleSessionsLoseNothing(x: Session, inputs: seq<Input>)
    requires SessionInv(x) && NoneLost(x.history) && forall i :: i in inputs ==> GentleInput(i)
    ensures SessionInv(StepAll(x, inputs)) && NoneLost(StepAll(x, inputs).history)
    decreases |inputs|
  {
    hide SessionInv, Step, NoneLost, GentleInput;
    if inputs != [] {
      assert inputs[0] in inputs;
      StepKeeps(x, inputs[0]);
      StepLosesNothing(x, inputs[0]);
      GentleSessionsLoseNothing(Step(x, inputs[0]), inputs[1..]);
    }
  }

  /** In a session in which no hook and no poll of a tool phase throws, every finished run
      whose providers kept to the stream contract left the Agent idle, its transcript
      extended by exactly what agent_end carries. */
  lemma GentleSessionsAgree(cfg: Config, steeringMode: Mode, followUpMode: Mode, inputs: seq<Input>, k: nat,
                            aborted: bool)
    requires forall i :: i in inputs ==> GentleInput(i)
    requires var h := StepAll(NewSession(cfg, steeringMode, followUpMode), inputs).history;
             && k < |h| && h[k].Ran? && AllClosed(h[k].live.run.turns) && AllCommit(h[k].live.run.turns)
    ensures var l := StepAll(NewSession(cfg, steeringMode, followUpMode), inputs).history[k].live;
            var after := AfterRun(l.start, l.run.log, aborted);
            && l.run.status.Done? && Idle(after)
            && after.messages == l.start.messages + l.run.status.messages
  {
    hide SessionInv, AfterRun, Lost, AllClosed, AllCommit, StepAll, GentleInput;
    var x0 := NewSession(cfg, steeringMode, followUpMode);
    FreshSession(cfg, steeringMode, followUpMode);
    GentleSessionsLoseNothing(x0, inputs);
    var x := StepAll(x0, inputs);
    FinishedRunsByLost(x, k, aborted);
    assert x.history[k] in x.history;
  }

  // ----- What a run starts with -----

  /** prompt() starts a run exactly when the Agent is idle and has a model: with the
      messages it is given and nothing from the queues, which it leaves as they are, and
      with the first poll to come.  Otherwise it throws, and says which it was. */
  lemma PromptEntersExactlyWhen(st: AgentState, hasModel: bool, w: World, ms: seq<Message>)
    ensures var e := EnterPrompt(st, hasModel, w, ms);
            && (e.Enters? <==> !st.isStreaming && hasModel)
            && (e.Enters? ==> e.prompts == ms && e.fromQueue == [] && !e.skipInitialPoll)
            && e.world == w
            && (e.Rejected? ==>
                  e.lost == []
                  && e.error == if st.isStreaming
                                then "Agent is already processing a prompt. "
                                     + "Use steer() or followUp() to queue messages, or wait for completion."
                                else "No model configured")
  {
  }

  /** The run that starts from this state with these prompts, none of them from a queue. */
  function StartedWith(x: Session, prompts: seq<Message>): Live {
    Live(x.state, prompts, [],
         Begin(Setup(x.cfg, x.world, x.state.messages, prompts, Some(PollPoint([], None)))))
  }

  lemma EntersAlone(st: AgentState, hasModel: bool, w: World)
    requires !st.isStreaming && st.messages != [] && !LastIsAssistant(st.messages)
    ensures EnterContinue(st, hasModel, w)
         == if hasModel then Enters([], [], false, w) else Rejected("No model configured", [], w)
  {
    hide EnterFromQueues;
  }

  /** Entering, between runs, with a first poll to come. */
  lemma EnteringStarts(x: Session, prompts: seq<Message>)
    requires x.live.None?
    ensures Enter(x, Enters(prompts, [], false, x.world)) == x.(live := Some(StartedWith(x, prompts)))
  {
    hide Begin;
    BeginTells(Setup(x.cfg, x.world, x.state.messages, prompts, Some(PollPoint([], None))));
  }

  /** In a session: a run starts exactly when none is in progress and there is a model,
      from the Agent's messages, its queues as they are, and exactly the messages given. */
  lemma PromptStarts(x: Session, ms: seq<Message>)
    requires SessionInv(x)
    ensures var x' := Step(x, Prompt(ms));
            if x.live.Some? then x' == x
            else if x.hasModel then x' == x.(live := Some(StartedWith(x, ms)))
            else x' == x.(history := x.history + [Refused([])])
  {
    hide SoundLive, WorldFaithful, Absorbed, Begin, ReduceAll, StartedWith;
    if x.live.Some? {
      OneRunAtATime(x, ms);
    } else {
      EnteringStarts(x, ms);
    }
  }

  /** The same for continue() when the transcript ends in a user message or a tool
      result: no prompts, nothing taken from the queues. */
  lemma ContinueStarts(x: Session)
    requires SessionInv(x) && x.state.messages != [] && !LastIsAssistant(x.state.messages)
    ensures var x' := Step(x, Continue);
            if x.live.Some? then x' == x
            else if x.hasModel then x' == x.(live := Some(StartedWith(x, [])))
            else x' == x.(history := x.history + [Refused([])])
  {
    hide SoundLive, WorldFaithful, Absorbed, Begin, ReduceAll, StartedWith, EnterContinue;
    if x.live.Some? {
      OneRunAtATime(x, []);
    } else {
      EntersAlone(x.state, x.hasModel, x.world);
      EnteringStarts(x, []);
    }
  }

  /** What the other calls change: one thing each, and messages cannot be set while a run
      is in progress. */
  lemma SettingsChange(x: Session, i: Input)
    ensures var y := Step(x, i);
            match i
            case SetModel(present) => y == x.(hasModel := present)
            case SetMessages(ms) => y == if x.live.Some? then x else x.(state := x.state.(messages := ms))
            case Queue(a) =>
              Now(y) == Act(Now(x), a) && State(y) == State(x) && y.history == x.history && y.hasModel == x.hasModel
            case _ => true
  {
    hide Act, ReduceAll, Begun, Pass, Enter, EnterPrompt, EnterContinue, Proceed;
  }

  /** The run number `k` of a session, in progress or finished, is one that started from
      this state with these prompts. */
  predicate RunIs(x: Session, k: nat, start: AgentState, prompts: seq<Message>) {
    if |x.history| > k then
      x.history[k].Ran? && x.history[k].live.start == start && x.history[k].live.prompts == prompts
    else |x.history| == k && x.live.Some? && x.live.value.start == start && x.live.value.prompts == prompts
  }

  lemma StepRunIs(x: Session, i: Input, k: nat, start: AgentState, prompts: seq<Message>)
    requires SessionInv(x) && RunIs(x, k, start, prompts)
    ensures RunIs(Step(x, i), k, start, prompts)
  {
    hide SoundLive, WorldFaithful, Absorbed, Act, Pass, Begin, EnterPrompt, EnterContinue, ReduceAll, AfterRun;
    if x.live.Some? {
      match i
      case Prompt(ms) => OneRunAtATime(x, ms);
      case Continue => OneRunAtATime(x, []);
      case _ =>
    }
  }

  lemma {:induction false} RunStaysWhatItIs(x: Session, inputs: seq<Input>, k: nat, start: AgentState,
                                            prompts: seq<Message>)
    requires SessionInv(x) && RunIs(x, k, start, prompts)
    ensures SessionInv(StepAll(x, inputs)) && RunIs(StepAll(x, inputs), k, start, prompts)
    decreases |inputs|
  {
    hide SessionInv, RunIs, Step;
    if inputs != [] {
      StepKeeps(x, inputs[0]);
      StepRunIs(x, inputs[0], k, start, prompts);
      RunStaysWhatItIs(Step(x, inputs[0]), inputs[1..], k, start, prompts);
    }
  }

  /** What is prompted reaches the transcript: whatever happens after prompt(ms) on an
      idle Agent with a model, the messages of the Agent begin with those it had and
      then ms, while the run is in progress and when it has ended. */
  lemma PromptsReachTranscript(x: Session, ms: seq<Message>, later: seq<Input>, aborted: bool)
    requires SessionInv(x) && x.live.None? && x.hasModel
    ensures var y, k := StepAll(Step(x, Prompt(ms)), later), |x.history|;
            && RunIs(y, k, x.state, ms)
            && (|y.history| == k ==> x.state.messages + ms <= State(y).messages)
            && (|y.history| > k ==>
                  x.state.messages + ms <= AfterRun(x.state, y.history[k].live.run.log, aborted).messages)
  {
    hide SoundLive, Absorbed, AfterRun, WorldFaithful, Begin, Step, ReduceAll, SessionInv;
    PromptStarts(x, ms);
    StepKeeps(x, Prompt(ms));
    RunStaysWhatItIs(Step(x, Prompt(ms)), later, |x.history|, x.state, ms);
    var y := StepAll(Step(x, Prompt(ms)), later);
    if |y.history| == |x.history| {
      assert SoundLive(Absorbed(y.history), y.live.value) by { LiveIsSound(y); }
      LiveMessages(Absorbed(y.history), y.live.value);
    } else {
      var l := y.history[|x.history|].live;
      RecordIsSound(y, |x.history|);
      EndMessages(Absorbed(y.history[..|x.history|]), l, aborted);
    }
  }

  lemma LiveIsSound(x: Session)
    requires SessionInv(x) && x.live.Some?
    ensures SoundLive(Absorbed(x.history), x.live.value)
  {
    hide SoundLive;
  }

  lemma RecordIsSound(x: Session, k: nat)
    requires SessionInv(x) && k < |x.history| && x.history[k].Ran?
    ensures x.history[k].live.run.status.Done? && SoundLive(Absorbed(x.history[..k]), x.history[k].live)
  {
    hide SoundLive;
  }

  lemma LiveMessages(before: seq<Message>, l: Live)
    requires SoundLive(before, l)
    ensures l.start.messages + l.prompts <= ReduceAll(Begun(l.start), l.run.log).state.messages
  {
    hide BracketInv, LogsInv, CoherentRun, ToolsPaired, EndsProperly, NothingLost, Unended, Recorded, EscapedTail,
         Transcript, ReduceAll;
    ReducerRebuilds(Begun(l.start), l.run.log);
    var rest := Recorded(l.run.turns) + EscapedTail(l.run);
    assert l.prompts + Recorded(l.run.turns) + EscapedTail(l.run) == l.prompts + rest;
    assert l.start.messages + (l.prompts + rest) == l.start.messages + l.prompts + rest;
  }

  lemma EndMessages(before: seq<Message>, l: Live, aborted: bool)
    requires SoundLive(before, l) && l.run.status.Done?
    ensures l.start.messages + l.prompts <= AfterRun(l.start, l.run.log, aborted).messages
  {
    hide SoundLive, AfterRun, Recorded, EscapedTail, AllClosed, Injected, Got;
    DeliveredIntoTranscript(before, l, aborted);
    var rest := Recorded(l.run.turns) + EscapedTail(l.run);
    assert l.start.messages + l.prompts + Recorded(l.run.turns) + EscapedTail(l.run)
        == l.start.messages + l.prompts + rest;
  }

  // ----- continue() -----

  predicate LastIsAssistant(ms: seq<Message>) {
    ms != [] && ms[|ms| - 1].Assistant?
  }

  predicate HasQueuedMessages(w: World) {
    w.steering.lane.entries != [] || w.followUp.lane.entries != []
  }

  lemma AnswersWhenQueued(w: World, from: Which)
    ensures Answer(w, from) != [] <==> LaneOf(w, from).entries != []
    ensures from.Steering? ==> LaneOf(AfterPoll(w, from), FollowUps) == LaneOf(w, FollowUps)
  {
    assert |Answer(w, from)| == |Taken(LaneOf(w, from))|;
  }

  /** continue() starts a run exactly when the Agent is idle with a model and
      either the transcript does not end in a reply or something is queued; then
      steering messages go first, and follow-ups only when there are none. */
  lemma ContinueEntersExactlyWhen(st: AgentState, hasModel: bool, w: World)
    ensures var e := EnterContinue(st, hasModel, w);
            && (e.Enters? <==> !st.isStreaming && hasModel && st.messages != []
                               && (!LastIsAssistant(st.messages) || HasQueuedMessages(w)))
            && (e.Enters? && LastIsAssistant(st.messages) ==>
                  e.fromQueue == if w.steering.lane.entries != [] then Answer(w, Steering) else Answer(w, FollowUps))
            && (e.Enters? ==> (e.skipInitialPoll <==> LastIsAssistant(st.messages) && w.steering.lane.entries != []))
            && (e.Enters? ==> e.prompts == e.fromQueue)
            && (e.Rejected? ==>
                  e.error == if st.isStreaming
                             then "Agent is already processing. Wait for completion before continuing."
                             else if st.messages == [] then "No messages to continue from"
                             else if LastIsAssistant(st.messages) && !HasQueuedMessages(w)
                             then "Cannot continue from message role: assistant"
                             else "No model configured")
            && (e.Enters? && !LastIsAssistant(st.messages) ==> e.fromQueue == [] && e.world == w)
            && (e.Enters? && LastIsAssistant(st.messages) ==>
                  e.world == if w.steering.lane.entries != [] then AfterPoll(w, Steering)
                             else AfterPoll(AfterPoll(w, Steering), FollowUps))
  {
    hide Answer, AfterPoll;
    AnswersWhenQueued(w, Steering);
    AnswersWhenQueued(AfterPoll(w, Steering), FollowUps);
    FollowUpAnswerStays(w);
  }

  lemma FollowUpAnswerStays(w: World)
    ensures Answer(AfterPoll(w, Steering), FollowUps) == Answer(w, FollowUps)
  {
  }

  /** continue() throws with queued messages in hand, which are then gone from the
      queues and in no transcript, exactly when no model is configured, the
      transcript ends in a reply, and something is queued. */
  lemma ContinueLosesExactlyWhen(st: AgentState, hasModel: bool, w: World)
    ensures var e := EnterContinue(st, hasModel, w);
            e.Rejected? && e.lost != [] <==>
            !st.isStreaming && !hasModel && LastIsAssistant(st.messages) && HasQueuedMessages(w)
  {
    hide Answer, AfterPoll;
    AnswersWhenQueued(w, Steering);
    AnswersWhenQueued(AfterPoll(w, Steering), FollowUps);
  }

  /** Such a call exists: one queued message is lost. */
  lemma ContinueCanLose()
    ensures var w := Act(Empty(OneAtATime, OneAtATime), Steer(User("hi"), ByUser));
            var st := IDLE_STATE.(messages := [Assistant(Reply([], Stop, None))]);
            var e := EnterContinue(st, false, w);
            e.Rejected? && e.lost == [User("hi")] && e.world.steering.lane.entries == []
  {
    var w := Act(Empty(OneAtATime, OneAtATime), Steer(User("hi"), ByUser));
    OneOp(Fresh(OneAtATime), [Enqueue(Entry(User("hi"), ByUser))]);
    assert w.steering.lane.entries == [Entry(User("hi"), ByUser)];
    assert Answer(w, Steering) == [User("hi")];
  }

  predicate NothingRefused(history: seq<Record>) {
    forall r :: r in history && r.Refused? ==> r.lost == []
  }

  lemma StepRefusesNothing(x: Session, i: Input)
    requires x.hasModel && NothingRefused(x.history) && i != SetModel(false)
    ensures Step(x, i).hasModel && NothingRefused(Step(x, i).history)
  {
    hide Answer, AfterPoll, Begin, Pass, Act, ReduceAll, Finally;
    if i.Continue? { ContinueLosesExactlyWhen(State(x), x.hasModel, Now(x)); }
  }

  /** In a session that always has a model no call ever throws a queued message
      away, so everything delivered went into a run. */
  lemma {:induction false} WithModelNothingIsRefused(x: Session, inputs: seq<Input>)
    requires x.hasModel && NothingRefused(x.history)
    requires SetModel(false) !in inputs
    ensures NothingRefused(StepAll(x, inputs).history)
    decreases |inputs|
  {
    hide Step;
    if inputs != [] {
      assert inputs[0] in inputs;
      StepRefusesNothing(x, inputs[0]);
      WithModelNothingIsRefused(Step(x, inputs[0]), inputs[1..]);
    }
  }

  // ----- What a turn is given from the queues -----

  /** What the polls gave the first turn of a run, besides its prompts. */
  function FirstGiven(s: Run): seq<Message> {
    if s.turns == [] then s.pending else s.turns[0].injected
  }

  /** Prompts from a queue are the answer of one poll, and then the first turn is given
      nothing else; every later turn is given the answer of one poll. */
  ghost predicate OneSource(l: Live) {
    && OnePollEach(l.run)
    && FromOnePoll(l.run.world.polls, l.fromQueue)
    && (l.fromQueue != [] ==> FirstGiven(l.run) == [])
  }

  /** A run that continue() starts from a queue: the poll before its first turn is
      skipped, or finds the steering queue still empty. */
  lemma QueueStartIsAlone(cfg: Config, st: AgentState, hasModel: bool, w: World)
    requires EnterContinue(st, hasModel, w).Enters? && EnterContinue(st, hasModel, w).fromQueue != []
    ensures var e := EnterContinue(st, hasModel, w);
            && Begin(SetupOf(cfg, e.world, st.messages, e.prompts, e.skipInitialPoll)).pending == []
            && FromOnePoll(e.world.polls, e.fromQueue)
  {
    hide Events.Pairs, Apply, Escape;
    var w1 := AfterPoll(w, Steering);
    LastPollAnswers(w, Steering);
    LastPollAnswers(w1, FollowUps);
    AnswersWhenQueued(w, Steering);
    if w.steering.lane.entries == [] { NoSteeringLeft(w); }
  }

  lemma LastPollAnswers(w: World, from: Which)
    ensures FromOnePoll(AfterPoll(w, from).polls, Answer(w, from))
  {
    hide Apply, Answer;
    var polls := AfterPoll(w, from).polls;
    assert polls[|polls| - 1].got == Answer(w, from) && polls[|polls| - 1] in polls;
  }

  lemma NoSteeringLeft(w: World)
    requires w.steering.lane.entries == []
    ensures Answer(AfterPoll(AfterPoll(w, Steering), FollowUps), Steering) == []
  {
    AnswersWhenQueued(AfterPoll(AfterPoll(w, Steering), FollowUps), Steering);
  }

  lemma BeginOneSource(cfg: Config, st: AgentState, w: World, e: Entrance)
    requires WorldFaithful(e.world) && e.Enters?
    requires e.fromQueue == [] || (exists hasModel :: e == EnterContinue(st, hasModel, w))
    ensures OneSource(Live(st, e.prompts, e.fromQueue,
                           Begin(SetupOf(cfg, e.world, st.messages, e.prompts, e.skipInitialPoll))))
  {
    hide WorldFaithful, Begin, EnterContinue, FromOnePoll, OnePollEach;
    var u := SetupOf(cfg, e.world, st.messages, e.prompts, e.skipInitialPoll);
    BeginPolls(u);
    BeginOnePoll(u);
    if e.fromQueue == [] {
      NoneFromOnePoll(Begin(u).world.polls);
    } else {
      var hasModel :| e == EnterContinue(st, hasModel, w);
      QueueStartIsAlone(cfg, st, hasModel, w);
      MorePolls(e.world.polls, Begin(u).world.polls, true, Begin(u).pending, e.fromQueue);
    }
  }

  lemma NoneFromOnePoll(polls: seq<Poll>)
    ensures FromOnePoll(polls, [])
  {
  }

  lemma PassOneSource(cfg: Config, before: seq<Message>, l: Live, t: TurnInput)
    requires NothingLost(before, l.run) && l.run.status.Active? && OneSource(l)
    ensures OneSource(l.(run := Pass(cfg, l.run, t)))
  {
    hide NothingLost, FromOnePoll, OnePollEach, Pass;
    PassOnePollEach(cfg, before, l.run, t);
    PassPolls(cfg, before, l.run, t);
    var r := Pass(cfg, l.run, t);
    MorePolls(l.run.world.polls, r.world.polls, Calls(StreamReply(t.provider).reply.content) != [], r.pending,
              l.fromQueue);
    FirstGivenStays(cfg, l.run, t);
  }

  lemma FirstGivenStays(cfg: Config, s: Run, t: TurnInput)
    requires s.status.Active?
    ensures FirstGiven(Pass(cfg, s, t)) == FirstGiven(s)
  {
    hide AfterReply, StreamReply, Events.Pairs;
    var asked, r := Ask(Inject(s), s.pending, t.provider), StreamReply(t.provider).reply;
    if !StopsRun(r) {
      AfterReplyKeepsInjected(cfg, asked, r, t);
      var s' := AfterReply(cfg, asked, r, t);
      assert s'.turns[0].(results := []) == asked.turns[0].(results := []);
      assert s'.turns[0].injected == asked.turns[0].injected;
    }
  }

  /** Every run of the session so far. */
  ghost predicate AllOneSource(x: Session) {
    && (x.live.Some? ==> OneSource(x.live.value))
    && forall r :: r in x.history && r.Ran? ==> OneSource(r.live)
  }

  lemma ProceedOneSource(x: Session, l: Live, aborted: bool)
    requires AllOneSource(x) && OneSource(l)
    ensures AllOneSource(Proceed(x, l, aborted))
  {
    hide OneSource, AfterRun;
  }

  lemma ActOneSource(l: Live, a: Action)
    requires OneSource(l) && WorldFaithful(l.run.world)
    ensures OneSource(l.(run := l.run.(world := Act(l.run.world, a))))
  {
    hide WorldFaithful, Act, FromOnePoll;
    ActKeepsFaith(l.run.world, a);
  }

  lemma EnterOneSource(x: Session, e: Entrance)
    requires AllOneSource(x) && x.live.None? && WorldFaithful(e.world)
    requires e.Enters? && e.fromQueue != [] ==> exists hasModel :: e == EnterContinue(x.state, hasModel, x.world)
    ensures AllOneSource(Enter(x, e))
  {
    hide OneSource, WorldFaithful, EnterContinue, Begin, AfterRun;
    if e.Enters? {
      BeginOneSource(x.cfg, x.state, x.world, e);
      var u := SetupOf(x.cfg, e.world, x.state.messages, e.prompts, e.skipInitialPoll);
      ProceedOneSource(x, Live(x.state, e.prompts, e.fromQueue, Begin(u)), false);
    }
  }

  lemma LiveLosesNothing(before: seq<Message>, l: Live)
    requires SoundLive(before, l)
    ensures NothingLost(before + l.fromQueue, l.run)
  {
    hide BracketInv, LogsInv, CoherentRun, Written, ToolsPaired, EndsProperly, NothingLost, Unended;
  }

  lemma StepOneSource(x: Session, i: Input)
    requires SessionInv(x) && AllOneSource(x)
    ensures AllOneSource(Step(x, i))
  {
    hide SoundLive, OneSource, WorldFaithful, Absorbed, Act, Pass, Enter, EnterContinue, ReduceAll, AfterRun,
         NothingLost;
    match i
    case Queue(a) =>
      if x.live.Some? {
        LiveWorld(Absorbed(x.history), x.live.value);
        ActOneSource(x.live.value, a);
      }
    case SetModel(_) =>
    case SetMessages(_) =>
    case Prompt(ms) =>
      if x.live.Some? {
        OneRunAtATime(x, ms);
      } else {
        EnterOneSource(x, EnterPrompt(x.state, x.hasModel, x.world, ms));
      }
    case Continue =>
      if x.live.Some? {
        OneRunAtATime(x, []);
      } else {
        ContinueAccounts(x.state, x.hasModel, x.world);
        EnterOneSource(x, EnterContinue(x.state, x.hasModel, x.world));
      }
    case NextTurn(t, aborted) =>
      if x.live.Some? {
        var l := x.live.value;
        LiveLosesNothing(Absorbed(x.history), l);
        PassOneSource(x.cfg, Absorbed(x.history) + l.fromQueue, l, t);
        ProceedOneSource(x, l.(run := Pass(x.cfg, l.run, t)), aborted);
      }
  }

  lemma {:induction false} SessionsHaveOneSource(x: Session, inputs: seq<Input>)
    requires SessionInv(x) && AllOneSource(x)
    ensures AllOneSource(StepAll(x, inputs))
    decreases |inputs|
  {
    hide SessionInv, AllOneSource, Step;
    if inputs != [] {
      StepKeeps(x, inputs[0]);
      StepOneSource(x, inputs[0]);
      SessionsHaveOneSource(Step(x, inputs[0]), inputs[1..]);
    }
  }

  /** A run of this session, finished or in progress. */
  predicate RunOf(x: Session, l: Live) { x.live == Some(l) || Ran(l) in x.history }

  /** Over every session, in whatever modes: a run that was started from a queue is given
      one poll's answer as its prompts, and its first turn nothing else; and while the
      queues are in one-at-a-time mode no turn of any run, the first with its prompts
      included, is given more than one queued message. */
  lemma OneQueuedMessagePerTurn(cfg: Config, steeringMode: Mode, followUpMode: Mode, inputs: seq<Input>, l: Live)
    requires RunOf(StepAll(NewSession(cfg, steeringMode, followUpMode), inputs), l)
    ensures l.fromQueue != [] ==> FirstGiven(l.run) == []
    ensures (forall p :: p in l.run.world.polls ==> p.mode.OneAtATime?) ==>
              && |l.fromQueue| + |FirstGiven(l.run)| <= 1 && |l.run.pending| <= 1
              && forall t :: t in l.run.turns ==> |t.injected| <= 1
  {
    hide SessionInv, Step, StepAll, SoundLive;
    var x0 := NewSession(cfg, steeringMode, followUpMode);
    FreshSession(cfg, steeringMode, followUpMode);
    SessionsAreSound(x0, inputs);
    SessionsHaveOneSource(x0, inputs);
    var x := StepAll(x0, inputs);
    RunWorld(x, l);
    if forall p :: p in l.run.world.polls ==> p.mode.OneAtATime? { OneEach(l); }
  }

  lemma RunWorld(x: Session, l: Live)
    requires SessionInv(x) && RunOf(x, l)
    ensures WorldFaithful(l.run.world)
  {
    hide SoundLive, WorldFaithful;
    if x.live == Some(l) {
      LiveWorld(Absorbed(x.history), l);
    } else {
      var k :| 0 <= k < |x.history| && x.history[k] == Ran(l);
      LiveWorld(Absorbed(x.history[..k]), x.history[k].live);
    }
  }

  lemma OneEach(l: Live)
    requires OneSource(l) && WorldFaithful(l.run.world)
    requires forall p :: p in l.run.world.polls ==> p.mode.OneAtATime?
    ensures |l.fromQueue| + |FirstGiven(l.run)| <= 1 && |l.run.pending| <= 1
    ensures forall t :: t in l.run.turns ==> |t.injected| <= 1
  {
    hide FromOnePoll;
    SmallPolls(l.run.world.polls, l.fromQueue);
    SmallPolls(l.run.world.polls, l.run.pending);
    forall t | t in l.run.turns ensures |t.injected| <= 1 {
      SmallPolls(l.run.world.polls, t.injected);
    }
  }

  lemma SmallPolls(polls: seq<Poll>, ms: seq<Message>)
    requires FromOnePoll(polls, ms) && forall p :: p in polls ==> p.mode.OneAtATime? && OneWhenOneAtATime(p)
    ensures |ms| <= 1
  {
  }
}
