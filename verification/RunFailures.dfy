/** When a run's logs stop agreeing: conditions on what its passes meet, for runs of
    any length (packages/pi-agent-core/src/agent-loop.ts:56-278). */
module RunFailures {
  import opened Messages
  import opened Events
  import opened Queues
  import opened ReplyStream
  import opened ToolPhase
  import opened ToolPhaseFailures
  import opened AgentLoop
  import opened AgentLoopTheorems
  import opened AgentLogTheorems
  import opened ConversationTheorems
  import opened TranscriptTheorems

  // ----- One pass -----

  function ReplyOf(t: TurnInput): Reply { StreamReply(t.provider).reply }

  /** The calls the pass runs: none after a reply that stops the run. */
  function CallsOf(t: TurnInput): seq<Call> {
    if StopsRun(ReplyOf(t)) then [] else Calls(ReplyOf(t).content)
  }

  /** The pass has calls, and running them fails. */
  predicate FailsInside(cfg: Config, w: World, t: TurnInput) {
    CallsOf(t) != [] && PhaseFails(cfg, CallsOf(t), t.tools, w)
  }

  /** The pass has calls, and running them fails after a result was committed. */
  predicate LosesInside(cfg: Config, w: World, t: TurnInput) {
    CallsOf(t) != [] && PhaseLoses(cfg, CallsOf(t), t.tools, w)
  }

  /** A poll after turn_end is made and throws: the steering poll, which is made unless
      the reply stopped the run or the tool phase already brought messages, or the
      follow-up poll, which is made after a reply without calls and an empty steering
      poll. */
  predicate ThrowsOutside(cfg: Config, w: World, t: TurnInput) {
    && !StopsRun(ReplyOf(t))
    && if CallsOf(t) != [] then PhaseQuiet(cfg, CallsOf(t), t.tools, w) && t.after.throws.Some?
       else t.after.throws.Some? || (Quiet(w, t.after) && t.followUp.throws.Some?)
  }

  predicate EndedOutside(s: Run) { s.status.Done? && s.status.cause == Threw(OutsideTurn) }

  /** How a run stands after a pass from queues `w` with input `t`. */
  predicate EndsBy(cfg: Config, w: World, t: TurnInput, s: Run) {
    && (EndedOutside(s) <==> ThrowsOutside(cfg, w, t))
    && (ToolPhaseThrew(s) <==> FailsInside(cfg, w, t))
    && (Lost(s) != [] <==> LosesInside(cfg, w, t))
  }

  lemma FollowUpPollIs(w: World, p: PollPoint)
    ensures AwaitPoll(w, FollowUps, p).PollThrew? <==> p.throws.Some?
  {
    hide ActAll, Answer, AfterPoll;
  }

  lemma PollNextEndsBy(s: Run, calls: bool, steering: seq<Message>, t: TurnInput)
    requires s.status.Active?
    ensures var r := PollNext(s, calls, steering, t);
            && !ToolPhaseThrew(r) && Lost(r) == []
            && (EndedOutside(r) <==> steering == []
                                     && (t.after.throws.Some?
                                         || (!calls && Quiet(s.world, t.after) && t.followUp.throws.Some?)))
  {
    hide AwaitPoll, Quiet, AfterQuiet;
    PollIs(s.world, t.after);
    FollowUpPollIs(AfterQuiet(s.world, t.after), t.followUp);
  }

  lemma ToolsEndBy(cfg: Config, s: Run, r: Reply, t: TurnInput)
    requires s.turns != [] && s.status.Active? && WorldFaithful(s.world)
    requires !StopsRun(r) && r == ReplyOf(t) && CallsOf(t) != []
    ensures EndsBy(cfg, s.world, t, AfterReply(cfg, s, r, t))
  {
    hide PollNext, Execute, PhaseFails, PhaseLoses, PhaseQuiet, WorldFaithful, StreamReply, Quiet;
    var calls := CallsOf(t);
    var phase := Execute(cfg, calls, t.tools, s.world);
    PhaseFailsExactlyWhen(cfg, calls, t.tools, s.world);
    PhaseQuietExactlyWhen(cfg, calls, t.tools, s.world);
    if phase.ending.Completed? {
      assert !PhaseLoses(cfg, calls, t.tools, s.world);
      PollNextEndsBy(RunTools(s, phase, r), true, phase.ending.steering, t);
    } else {
      FailedPhaseEnds(s, phase, r);
    }
  }

  lemma FailedPhaseEnds(s: Run, phase: Phase, r: Reply)
    requires s.turns != [] && phase.ending.Failed?
    ensures var s' := RunTools(s, phase, r);
            ToolPhaseThrew(s') && Lost(s') == phase.results && !EndedOutside(s')
  {
  }

  /** How one pass ends, from its inputs. */
  lemma PassEndsBy(cfg: Config, s: Run, t: TurnInput)
    requires s.status.Active? && WorldFaithful(s.world)
    ensures EndsBy(cfg, s.world, t, Pass(cfg, s, t))
  {
    hide StreamReply, WorldFaithful, EndsBy, AfterReply, PollNext;
    var asked, r := Ask(Inject(s), s.pending, t.provider), ReplyOf(t);
    if StopsRun(r) {
      StoppedEndsBy(cfg, asked, r, s.world, t);
    } else if CallsOf(t) != [] {
      ToolsEndBy(cfg, asked, r, t);
    } else {
      QuietReplyEndsBy(cfg, asked, r, t);
    }
  }

  lemma StoppedEndsBy(cfg: Config, s: Run, r: Reply, w: World, t: TurnInput)
    requires StopsRun(ReplyOf(t))
    ensures EndsBy(cfg, w, t, End(s.(log := s.log + [TurnEnd(r, [])]), ErrorReply))
  {
  }

  lemma QuietReplyEndsBy(cfg: Config, s: Run, r: Reply, t: TurnInput)
    requires s.turns != [] && s.status.Active? && !StopsRun(r) && r == ReplyOf(t) && CallsOf(t) == []
    ensures EndsBy(cfg, s.world, t, AfterReply(cfg, s, r, t))
  {
    hide PollNext, StreamReply, Quiet;
    PollNextEndsBy(s.(log := s.log + [TurnEnd(r, [])]), false, [], t);
  }

  // ----- Whole runs -----

  /** Pass `m` is made: the run has not ended before it. */
  predicate Made(u: Setup, o: nat -> TurnInput, m: nat) { Reached(u, o, m).status.Active? }

  /** The queues pass `m` starts from. */
  function QueuesAt(u: Setup, o: nat -> TurnInput, m: nat): World { Reached(u, o, m).world }

  ghost predicate NoneThrowsOutside(u: Setup, o: nat -> TurnInput, n: nat) {
    forall m: nat :: m < n && Made(u, o, m) ==> !ThrowsOutside(u.cfg, QueuesAt(u, o, m), o(m))
  }

  ghost predicate NoneFailsInside(u: Setup, o: nat -> TurnInput, n: nat) {
    forall m: nat :: m < n && Made(u, o, m) ==> !FailsInside(u.cfg, QueuesAt(u, o, m), o(m))
  }

  ghost predicate NoneLosesInside(u: Setup, o: nat -> TurnInput, n: nat) {
    forall m: nat :: m < n && Made(u, o, m) ==> !LosesInside(u.cfg, QueuesAt(u, o, m), o(m))
  }

  ghost predicate EachCloses(u: Setup, o: nat -> TurnInput, n: nat) {
    forall m: nat :: m < n && Made(u, o, m) ==> ClosesWhatItOpens(o(m).provider)
  }

  ghost predicate EachCommits(u: Setup, o: nat -> TurnInput, n: nat) {
    forall m: nat :: m < n && Made(u, o, m) ==> Commits(o(m).provider)
  }

  lemma BeginEndsBy(u: Setup)
    ensures var s := Begin(u); !EndedOutside(s) && !ToolPhaseThrew(s) && Lost(s) == [] && s.turns == []
  {
    hide AwaitPoll, Pairs;
  }

  lemma MadeOrNot(u: Setup, o: nat -> TurnInput, n: nat)
    ensures Reached(u, o, n + 1) == if Made(u, o, n) then Pass(u.cfg, Reached(u, o, n), o(n)) else Reached(u, o, n)
  {
    hide Pass, Begin;
  }

  lemma FaithAt(u: Setup, o: nat -> TurnInput, n: nat)
    requires WorldFaithful(u.world)
    ensures WorldFaithful(QueuesAt(u, o, n))
  {
    hide WorldFaithful, Reached, NothingLost;
    ExactlyOnceDelivery(u, o, n);
    FaithOf(Got(u.world.polls), Reached(u, o, n));
  }

  /** How a run has ended after `n` passes, from the inputs of those it made. */
  lemma {:induction false} RunEndsBy(u: Setup, o: nat -> TurnInput, n: nat)
    requires WorldFaithful(u.world)
    ensures var s := Reached(u, o, n);
            && (!EndedOutside(s) <==> NoneThrowsOutside(u, o, n))
            && (!ToolPhaseThrew(s) <==> NoneFailsInside(u, o, n))
            && (Lost(s) == [] <==> NoneLosesInside(u, o, n))
    decreases n
  {
    hide Reached, Pass, Begin, WorldFaithful, ThrowsOutside, FailsInside, LosesInside;
    if n == 0 {
      assert Reached(u, o, 0) == Begin(u) by { StartsAtBegin(u, o); }
      BeginEndsBy(u);
    } else {
      RunEndsBy(u, o, n - 1);
      MadeOrNot(u, o, n - 1);
      FaithAt(u, o, n - 1);
      if Made(u, o, n - 1) { PassEndsBy(u.cfg, Reached(u, o, n - 1), o(n - 1)); }
    }
  }

  lemma StartsAtBegin(u: Setup, o: nat -> TurnInput)
    ensures Reached(u, o, 0) == Begin(u)
  {
  }

  lemma PassProviders(cfg: Config, s: Run, t: TurnInput)
    requires s.status.Active?
    ensures Providers(Pass(cfg, s, t).turns) == Providers(s.turns) + [t.provider]
  {
    hide StreamReply, AfterReply, Inject;
    var asked, r := Ask(Inject(s), s.pending, t.provider), StreamReply(t.provider).reply;
    assert Inject(s).turns == s.turns by { InjectTurns(s); }
    OneMoreProvider(s.turns, Turn(s.pending, t.provider, r, []));
    if !StopsRun(r) {
      AfterReplyKeepsInjected(cfg, asked, r, t);
      SameProviders(asked.turns, AfterReply(cfg, asked, r, t).turns);
    }
  }

  lemma InjectTurns(s: Run)
    ensures Inject(s).turns == s.turns
  {
  }

  /** The providers of a run's turns are those of the passes it made. */
  lemma {:induction false} ProvidersAreInputs(u: Setup, o: nat -> TurnInput, n: nat)
    ensures AllClosed(Reached(u, o, n).turns) <==> EachCloses(u, o, n)
    ensures AllCommit(Reached(u, o, n).turns) <==> EachCommits(u, o, n)
    decreases n
  {
    hide Reached, Pass, Begin, ClosesWhatItOpens, Commits;
    if n == 0 {
      StartsAtBegin(u, o);
      BeginEndsBy(u);
    } else {
      ProvidersAreInputs(u, o, n - 1);
      MadeOrNot(u, o, n - 1);
      if Made(u, o, n - 1) {
        PassProviders(u.cfg, Reached(u, o, n - 1), o(n - 1));
        OneMore(Providers(Reached(u, o, n - 1).turns), o(n - 1).provider);
      }
    }
  }

  lemma OneMore(ps: seq<Provider>, p: Provider)
    ensures forall q :: q in ps + [p] <==> q in ps || q == p
  {
  }

  // ----- The event grammar -----

  /** The log of a finished run is agent_start, bracketed turns and one final agent_end
      if and only if every provider it asked closes what it opens and no pass it made
      has its steering poll after turn_end, or its follow-up poll, reached and throwing. */
  lemma BracketsExactlyWhen(u: Setup, o: nat -> TurnInput, n: nat)
    requires WorldFaithful(u.world) && Reached(u, o, n).status.Done?
    ensures WellBracketed(Reached(u, o, n).log) <==> EachCloses(u, o, n) && NoneThrowsOutside(u, o, n)
  {
    hide Reached, WorldFaithful, NoneThrowsOutside, EachCloses, AllClosed, WellBracketed;
    BracketsByCause(u, o, n);
    RunEndsBy(u, o, n);
    ProvidersAreInputs(u, o, n);
  }

  /** The polls between turns do not throw. */
  predicate GentlePolls(t: TurnInput) { t.after.throws.None? && t.followUp.throws.None? }

  /** With conforming providers and polls that do not throw between turns, the log of
      every finished run follows the event grammar, whatever tools and hooks do. */
  lemma ConformingRunsAreBracketed(u: Setup, o: nat -> TurnInput, n: nat)
    requires WorldFaithful(u.world) && Reached(u, o, n).status.Done?
    requires forall m: nat :: m < n && Made(u, o, m) ==> Conforming(o(m).provider) && GentlePolls(o(m))
    ensures WellBracketed(Reached(u, o, n).log)
  {
    hide Reached, WorldFaithful, WellBracketed, Made, QueuesAt, StreamReply, PhaseQuiet, Quiet;
    BracketsExactlyWhen(u, o, n);
    forall m: nat | m < n && Made(u, o, m)
      ensures ClosesWhatItOpens(o(m).provider) && !ThrowsOutside(u.cfg, QueuesAt(u, o, m), o(m))
    {
      ConformingKeepsEveryLog(o(m).provider);
    }
  }

  // ----- The transcript -----

  /** What an event consumer rebuilds from a finished run is what agent_end carries, if
      and only if no pass it made has a tool phase that fails after committing a result. */
  lemma TranscriptAgreesExactlyWhen(u: Setup, o: nat -> TurnInput, n: nat)
    requires WorldFaithful(u.world) && Reached(u, o, n).status.Done? && EachCommits(u, o, n)
    ensures Transcript(Reached(u, o, n).log) == Reached(u, o, n).status.messages <==> NoneLosesInside(u, o, n)
  {
    hide Reached, WorldFaithful, NoneLosesInside, EachCommits, AllCommit, Transcript, Lost;
    ProvidersAreInputs(u, o, n);
    TranscriptByLost(u, o, n);
    RunEndsBy(u, o, n);
  }

  /** No hook and no poll of the pass's tool phase throws. */
  predicate GentleTools(t: TurnInput) { Gentle(CallsOf(t), t.tools) }

  ghost predicate EachGentle(u: Setup, o: nat -> TurnInput, n: nat) {
    forall m: nat :: m < n && Made(u, o, m) ==> GentleTools(o(m))
  }

  lemma GentleNeverFails(cfg: Config, w: World, t: TurnInput)
    requires WorldFaithful(w) && GentleTools(t)
    ensures !FailsInside(cfg, w, t) && !LosesInside(cfg, w, t)
  {
    hide WorldFaithful, Gentle, PhaseFails, PhaseLoses, Execute, CallsOf;
    GentlePhasesComplete(cfg, CallsOf(t), t.tools, w);
    PhaseFailsExactlyWhen(cfg, CallsOf(t), t.tools, w);
  }

  lemma GentleNeverThrowsInside(u: Setup, o: nat -> TurnInput, n: nat)
    requires WorldFaithful(u.world) && EachGentle(u, o, n)
    ensures !ToolPhaseThrew(Reached(u, o, n)) && NoneLosesInside(u, o, n)
  {
    hide Reached, WorldFaithful, Made, QueuesAt, FailsInside, LosesInside, GentleTools;
    RunEndsBy(u, o, n);
    forall m: nat | m < n && Made(u, o, m)
      ensures !FailsInside(u.cfg, QueuesAt(u, o, m), o(m)) && !LosesInside(u.cfg, QueuesAt(u, o, m), o(m))
    {
      FaithAt(u, o, m);
      GentleNeverFails(u.cfg, QueuesAt(u, o, m), o(m));
    }
  }

  /** With hooks and tool-phase polls that do not throw, the transcript of every finished
      run is what agent_end carries, also when a poll between turns threw. */
  lemma GentleTranscriptAgrees(u: Setup, o: nat -> TurnInput, n: nat)
    requires WorldFaithful(u.world) && Reached(u, o, n).status.Done? && EachCommits(u, o, n)
    requires EachGentle(u, o, n)
    ensures Transcript(Reached(u, o, n).log) == Reached(u, o, n).status.messages
  {
    hide Reached, WorldFaithful, NoneLosesInside, EachCommits, EachGentle, Transcript, ToolPhaseThrew;
    GentleNeverThrowsInside(u, o, n);
    TranscriptAgreesExactlyWhen(u, o, n);
  }

  /** With such hooks and polls newMessages is the prompts and then whole turns, at every
      turn boundary: injected messages, one reply, and right behind it exactly one result
      per call, none after a reply that stops the run, which is the last. */
  lemma GentleRunsAreCoherent(u: Setup, o: nat -> TurnInput, n: nat)
    requires WorldFaithful(u.world) && EachGentle(u, o, n)
    ensures var s := Reached(u, o, n); s.news == u.prompts + Conversation(s.turns) && AllCoherent(s.turns)
  {
    hide Reached, WorldFaithful, EachGentle, ToolPhaseThrew, AllCoherent;
    GentleNeverThrowsInside(u, o, n);
    RunsAreCoherent(u, o, n);
  }

  /** And each call made has one start, in call order, and one end; none is pending, and
      with ids distinct within each reply every end follows its start. */
  lemma GentleToolLifecycle(u: Setup, o: nat -> TurnInput, n: nat)
    requires WorldFaithful(u.world) && EachGentle(u, o, n)
    ensures ToolsPaired(Reached(u, o, n).log, Reached(u, o, n).turns)
  {
    hide Reached, WorldFaithful, EachGentle, ToolPhaseThrew, ToolsPaired;
    GentleNeverThrowsInside(u, o, n);
    ToolLifecycle(u, o, n);
  }

  lemma PassCause(cfg: Config, s: Run, t: TurnInput)
    requires s.status.Active?
    ensures var r := Pass(cfg, s, t);
            r.status.Done? && r.status.cause.Threw? ==> EndedOutside(r) || ToolPhaseThrew(r)
  {
    hide AwaitPoll, Execute, StreamReply;
  }

  lemma {:induction false} ThrownCause(u: Setup, o: nat -> TurnInput, n: nat)
    requires u.initial.Some? ==> u.initial.value.throws.None?
    ensures var s := Reached(u, o, n);
            s.status.Done? && s.status.cause.Threw? ==> EndedOutside(s) || ToolPhaseThrew(s)
    decreases n
  {
    hide Pass, AwaitPoll, Pairs;
    if n == 0 {
      if u.initial.Some? { PollIs(u.world, u.initial.value); }
    } else {
      ThrownCause(u, o, n - 1);
      if Made(u, o, n - 1) { PassCause(u.cfg, Reached(u, o, n - 1), o(n - 1)); }
    }
  }

  /** With hooks and polls that do not throw, no run ends by an exception. */
  lemma GentleRunsNeverThrow(u: Setup, o: nat -> TurnInput, n: nat)
    requires WorldFaithful(u.world) && EachGentle(u, o, n)
    requires u.initial.Some? ==> u.initial.value.throws.None?
    requires forall m: nat :: m < n && Made(u, o, m) ==> GentlePolls(o(m))
    ensures var s := Reached(u, o, n); s.status.Done? ==> !s.status.cause.Threw?
  {
    hide Reached, WorldFaithful, EachGentle, Made, QueuesAt, StreamReply, PhaseQuiet, Quiet;
    GentleNeverThrowsInside(u, o, n);
    RunEndsBy(u, o, n);
    ThrownCause(u, o, n);
  }

  // ----- Pairing at every moment -----

  /** With ids distinct within each reply, an id is started only when closed and ended
      only when open. */
  predicate StrictlyPaired(s: Run) { DistinctIds(s.turns) ==> Paired({}, s.log) }

  lemma CutPhasePairs(log: seq<Event>, early: seq<Turn>, t: Turn, phase: Phase, s: Run, error: string)
    requires ToolsPaired(log, early) && s.turns == early + [t] && s.log == log + phase.events
    requires Distinct(Ids(TurnCalls(t))) ==> Paired({}, phase.events)
    ensures StrictlyPaired(Escape(s, error, InsideTurn))
  {
    hide Distinct, Ids, TurnCalls, Paired, PendingIds;
    PendingSplit({}, log, phase.events);
    assert t in s.turns && (forall x :: x in early ==> x in s.turns);
    EscapeTailQuiet(s, error, InsideTurn);
    var r := Escape(s, error, InsideTurn);
    var tail := r.log[|s.log|..];
    assert r.log == s.log + tail;
    PendingSplit({}, s.log, tail);
    NoTools(tail, PendingIds({}, s.log));
  }

  lemma EscapeTailQuiet(s: Run, error: string, site: Site)
    ensures var r := Escape(s, error, site); s.log <= r.log && QuietEvents(r.log[|s.log|..])
  {
    var m := Assistant(EscapedReply(error));
    var a, b := [MessageStart(m), MessageEnd(m)], [TurnEnd(m.reply, []), AgentEnd(s.news + [m])];
    PairFacts(m, {});
    QuietOne(b[0]);
    QuietOne(b[1]);
    QuietJoin([b[0]], [b[1]]);
    assert [b[0]] + [b[1]] == b;
    QuietJoin(a, b);
    assert Escape(s, error, site).log == s.log + (a + b);
  }

  lemma PassStrict(cfg: Config, s: Run, t: TurnInput)
    requires ToolsPaired(s.log, s.turns) && s.status.Active? && WorldFaithful(s.world)
    ensures StrictlyPaired(Pass(cfg, s, t))
  {
    hide StreamReply, Execute, WorldFaithful, ToolsPaired, TurnCalls, AwaitPoll, Escape, PollNext, Ask, Inject;
    PassPaired(cfg, s, t);
    var asked, r := Ask(Inject(s), s.pending, t.provider), ReplyOf(t);
    var r' := Pass(cfg, s, t);
    if ToolPhaseThrew(r') {
      AskPaired(s, t.provider);
      AskedTurns(s, t.provider);
      CutPassPairs(cfg, s, asked, r, t);
    } else {
      PairedIsStrict(r');
    }
  }

  lemma AskedTurns(s: Run, p: Provider)
    ensures var asked := Ask(Inject(s), s.pending, p);
            && asked.turns == s.turns + [Turn(s.pending, p, StreamReply(p).reply, [])]
            && asked.world == s.world && asked.status == s.status
  {
  }

  lemma PairedIsStrict(s: Run)
    requires ToolsPaired(s.log, s.turns)
    ensures StrictlyPaired(s)
  {
  }

  lemma CutPassPairs(cfg: Config, s: Run, asked: Run, r: Reply, t: TurnInput)
    requires asked == Ask(Inject(s), s.pending, t.provider) && r == ReplyOf(t)
    requires asked.turns == s.turns + [Turn(s.pending, t.provider, r, [])] && asked.world == s.world
    requires asked.status.Active? && s.status.Active?
    requires ToolsPaired(asked.log, s.turns) && WorldFaithful(s.world) && ToolPhaseThrew(Pass(cfg, s, t))
    ensures StrictlyPaired(Pass(cfg, s, t))
  {
    hide StreamReply, Execute, WorldFaithful, ToolsPaired, TurnCalls, AwaitPoll, Escape, PollNext, Ask, Inject,
         DistinctIds;
    PassEndsBy(cfg, s, t);
    var calls := CallsOf(t);
    var phase := Execute(cfg, calls, t.tools, s.world);
    PhaseFailsExactlyWhen(cfg, calls, t.tools, s.world);
    var last := Turn(s.pending, t.provider, r, phase.results);
    if Distinct(Ids(calls)) { PhasePairs(cfg, calls, t.tools, s.world); }
    TurnCallsOf(last);
    assert asked.turns[..|asked.turns| - 1] == s.turns;
    var s0 := asked.(log := asked.log + phase.events, world := phase.world,
                     turns := Committed(asked.turns, phase.results));
    CutPhasePairs(asked.log, s.turns, last, phase, s0, phase.ending.error);
  }

  /** In the log of any run, also one cut short in a tool phase, tool events are strictly
      paired when ids are distinct within each reply. */
  lemma {:induction false} LogsPair(u: Setup, o: nat -> TurnInput, n: nat)
    requires WorldFaithful(u.world)
    ensures StrictlyPaired(Reached(u, o, n))
    decreases n
  {
    hide Pass, WorldFaithful, ToolsPaired, StrictlyPaired, Begin;
    if n == 0 {
      BeginPaired(u);
      PairedIsStrict(Begin(u));
    } else {
      LogsPair(u, o, n - 1);
      if Made(u, o, n - 1) {
        FaithAt(u, o, n - 1);
        ToolLifecycle(u, o, n - 1);
        PassStrict(u.cfg, Reached(u, o, n - 1), o(n - 1));
      }
    }
  }

  // ----- Two runs whose logs disagree -----

  const QUIET_POLL := PollPoint([], None)

  /** A reply that arrives whole. */
  function Whole(r: Reply): Provider { Provider([Finished], r, Exhausted) }

  /** Call 1 has a hook after it that throws. */
  function SecondThrows(k: nat): CallInput {
    Plain(k).(after := if k == 1 then AfterThrows("hook failed") else Keep)
  }

  const TWO_CALLS := [Call("1", "t", ""), Call("2", "t", "")]
  const TWO_CALLS_REPLY := Reply([ToolCall(TWO_CALLS[0]), ToolCall(TWO_CALLS[1])], ToolUse, None)
  const FIRST_RESULT := ResultMessage(TWO_CALLS[0], Outcome("ok", "", false))

  function HookThrows(k: nat): TurnInput {
    TurnInput(Whole(TWO_CALLS_REPLY), PhaseInput(SecondThrows, [], QUIET_POLL), QUIET_POLL, QUIET_POLL)
  }

  function PlainSetup(): Setup {
    Setup(Config({"t"}, Sequentially), Empty(OneAtATime, OneAtATime), [], [User("hi")], None)
  }

  lemma WholeReply(r: Reply)
    ensures var out := StreamReply(Whole(r));
            && out.reply == r && out.appended == [Assistant(r)]
            && out.events == [MessageStart(Assistant(r)), MessageEnd(Assistant(r))]
  {
    assert Whole(r).events[0].Finished?;
  }

  /** The first call runs, and the second one's hook throws: the phase fails with the
      first result committed. */
  lemma SecondCallCuts(w: World)
    requires Silent(w)
    ensures var p := Sequential(PlainSetup().cfg, TWO_CALLS, SecondThrows, 0, w);
            p.ending == Failed("hook failed") && p.results == [FIRST_RESULT]
  {
    hide Updates, Emit, ActAll, AfterPoll, Skips, SkipEvents;
    var cfg := PlainSetup().cfg;
    assert SecondThrows(0) == Plain(0) && "t" in cfg.tools;
    SilentIsQuiet(w);
    PollIs(w, QUIET_POLL);
    var w1 := AfterQuiet(w, QUIET_POLL);
    var one := ExecuteOne(cfg, TWO_CALLS, SecondThrows, 0, w);
    assert one.results == [FIRST_RESULT] && one.ending == Completed([]);
    assert AwaitPoll(w, Steering, SecondThrows(0).poll) == Heard([], w1);
    var two := ExecuteOne(cfg, TWO_CALLS, SecondThrows, 1, w1);
    assert two.results == [] && two.ending == Failed("hook failed");
    assert Sequential(cfg, TWO_CALLS, SecondThrows, 1, w1) == two;
    assert Sequential(cfg, TWO_CALLS, SecondThrows, 0, w) == Join(one.(world := w1), two);
  }

  lemma TwoCalls()
    ensures Calls(TWO_CALLS_REPLY.content) == TWO_CALLS
  {
    var blocks := TWO_CALLS_REPLY.content;
    assert blocks[1..][1..] == [];
    assert Calls(blocks[1..]) == [TWO_CALLS[1]];
  }

  lemma CutRun()
    ensures var r := Pass(PlainSetup().cfg, Begin(PlainSetup()), HookThrows(0));
            && r.status == Done([User("hi"), Assistant(TWO_CALLS_REPLY), Assistant(EscapedReply("hook failed"))],
                                Threw(InsideTurn))
            && r.turns == [Turn([], Whole(TWO_CALLS_REPLY), TWO_CALLS_REPLY, [FIRST_RESULT])]
  {
    hide Sequential, StreamReply, Pairs, EscapedReply;
    var u, t := PlainSetup(), HookThrows(0);
    WholeReply(TWO_CALLS_REPLY);
    TwoCalls();
    SecondCallCuts(u.world);
    var asked := Ask(Inject(Begin(u)), [], t.provider);
    var phase := Sequential(u.cfg, TWO_CALLS, SecondThrows, 0, u.world);
    assert asked.turns == [Turn([], t.provider, TWO_CALLS_REPLY, [])];
    assert asked.news == [User("hi"), Assistant(TWO_CALLS_REPLY)];
    assert Committed(asked.turns, phase.results) == [Turn([], t.provider, TWO_CALLS_REPLY, [FIRST_RESULT])];
  }

  /** A run in which an afterToolCall hook throws on the second of two calls: the first
      result is in the transcript, but not in what agent_end carries. */
  lemma HookLosesResult()
    ensures var s := Reached(PlainSetup(), HookThrows, 1);
            var opening, told := [User("hi"), Assistant(TWO_CALLS_REPLY)], Assistant(EscapedReply("hook failed"));
            && s.status == Done(opening + [told], Threw(InsideTurn))
            && Transcript(s.log) == opening + [FIRST_RESULT] + [told]
            && !NoneLosesInside(PlainSetup(), HookThrows, 1)
  {
    hide Pass, Begin, Reached, Transcript, NoneLosesInside, ToolPhaseThrew, NoneFailsInside, NoneThrowsOutside,
         EscapedReply;
    var u := PlainSetup();
    EmptyIsFaithful(OneAtATime, OneAtATime);
    StartsAtBegin(u, HookThrows);
    assert Reached(u, HookThrows, 0).status.Active? by { BeginsActive(); }
    GoesOn();
    CutRun();
    TranscriptIs(u, HookThrows, 1);
    RunEndsBy(u, HookThrows, 1);
    var s := Reached(u, HookThrows, 1);
    RecordedAppend([], s.turns[0]);
    assert [] + s.turns == s.turns;
  }

  lemma BeginsActive()
    ensures Begin(PlainSetup()).status.Active? && Begin(PlainSetup()).world == PlainSetup().world
  {
  }

  lemma GoesOn()
    ensures Reached(PlainSetup(), HookThrows, 1) == Pass(PlainSetup().cfg, Begin(PlainSetup()), HookThrows(0))
  {
    hide Pass, Begin;
    BeginsActive();
    StartsAtBegin(PlainSetup(), HookThrows);
    MadeOrNot(PlainSetup(), HookThrows, 0);
  }

  const HELLO := Reply([Text("hello")], Stop, None)

  /** A plain reply, and a steering poll after it that throws. */
  function PollThrows(k: nat): TurnInput {
    TurnInput(Whole(HELLO), PhaseInput(Plain, [], QUIET_POLL), PollPoint([], Some("queue down")), QUIET_POLL)
  }

  /** A run in which the poll after turn_end throws: the message about it, and a second
      turn_end, stand outside any turn. */
  lemma PollBreaksBrackets()
    ensures var s := Reached(PlainSetup(), PollThrows, 1);
            var hi, hello, told := User("hi"), Assistant(HELLO), Assistant(EscapedReply("queue down"));
            && s.log == [AgentStart, TurnStart, MessageStart(hi), MessageEnd(hi),
                         MessageStart(hello), MessageEnd(hello), TurnEnd(HELLO, []),
                         MessageStart(told), MessageEnd(told), TurnEnd(told.reply, []),
                         AgentEnd([hi, hello, told])]
            && !WellBracketed(s.log)
  {
    hide WellBracketed, Pass, Begin, Reached;
    StartsAtBegin(PlainSetup(), PollThrows);
    BeginsActive();
    MadeOrNot(PlainSetup(), PollThrows, 0);
    BrokenRun();
    PollBreaks();
  }

  lemma BrokenRun()
    ensures var hi, hello, told := User("hi"), Assistant(HELLO), Assistant(EscapedReply("queue down"));
            Pass(PlainSetup().cfg, Begin(PlainSetup()), PollThrows(0)).log
            == [AgentStart, TurnStart, MessageStart(hi), MessageEnd(hi),
                MessageStart(hello), MessageEnd(hello), TurnEnd(HELLO, []),
                MessageStart(told), MessageEnd(told), TurnEnd(told.reply, []),
                AgentEnd([hi, hello, told])]
  {
    hide StreamReply, ActAll, EscapedReply, Pairs;
    var u, t := PlainSetup(), PollThrows(0);
    WholeReply(HELLO);
    PlainOpening();
    assert Pairs([]) == [] by { NoPairs(); }
    var asked := Ask(Inject(Begin(u)), [], t.provider);
    assert Calls(HELLO.content) == [] by { assert HELLO.content[1..] == []; }
    var hi, hello := User("hi"), Assistant(HELLO);
    assert asked.news == [hi, hello];
    assert asked.log == [AgentStart, TurnStart, MessageStart(hi), MessageEnd(hi),
                         MessageStart(hello), MessageEnd(hello)];
    var mid := asked.(log := asked.log + [TurnEnd(HELLO, [])]);
    var w := AwaitPoll(mid.world, Steering, t.after);
    assert w == PollThrew("queue down", ActAll(mid.world, []));
    assert Pass(u.cfg, Begin(u), t) == Escape(mid.(world := w.world), "queue down", OutsideTurn);
    var told := Assistant(EscapedReply("queue down"));
    assert mid.news + [told] == [hi, hello, told];
  }

  lemma NoPairs()
    ensures Pairs([]) == []
  {
  }

  lemma PlainOpening()
    ensures Begin(PlainSetup()).log == [AgentStart, TurnStart, MessageStart(User("hi")), MessageEnd(User("hi"))]
  {
    var ms := [User("hi")];
    assert ms[1..] == [];
    assert Pairs(ms) == [MessageStart(User("hi")), MessageEnd(User("hi"))];
  }

  lemma PollBreaks()
    ensures !WellBracketed(Reached(PlainSetup(), PollThrows, 1).log)
  {
    hide Pass, Begin, Reached, WellBracketed, EachCloses, ThrowsOutside;
    var u := PlainSetup();
    EmptyIsFaithful(OneAtATime, OneAtATime);
    StartsAtBegin(u, PollThrows);
    BeginsActive();
    assert ThrowsOutside(u.cfg, QueuesAt(u, PollThrows, 0), PollThrows(0)) by { ThrowsAtOnce(u.world); }
    assert Made(u, PollThrows, 0);
    RunEndsBy(u, PollThrows, 1);
    BracketsExactlyWhen(u, PollThrows, 1);
  }

  lemma ThrowsAtOnce(w: World)
    ensures ThrowsOutside(PlainSetup().cfg, w, PollThrows(0))
  {
    WholeReply(HELLO);
    assert HELLO.content[1..] == [];
  }

  const HALF := Reply([Text("hel")], Stop, None)

  /** A provider that starts its message and then throws. */
  function LateThrow(k: nat): TurnInput {
    TurnInput(Provider([Started(HALF)], HELLO, Throws("lost", false)), PhaseInput(Plain, [], QUIET_POLL), QUIET_POLL,
              QUIET_POLL)
  }

  /** A run whose provider throws after start: the message begun and the message about
      the failure are both in the context, newMessages has one of them, and the log
      opens two messages and closes one. */
  lemma LateThrowBreaks()
    ensures var s := Reached(PlainSetup(), LateThrow, 1);
            var hi, half, failed := User("hi"), Assistant(HALF), Assistant(FailedReply("lost", false));
            && s.status == Done([hi, failed], ErrorReply)
            && s.context == [hi, half, failed]
            && s.log == [AgentStart, TurnStart, MessageStart(hi), MessageEnd(hi),
                         MessageStart(half), MessageStart(failed), MessageEnd(failed), TurnEnd(failed.reply, []),
                         AgentEnd([hi, failed])]
            && !WellBracketed(s.log)
            && !LeavesOneMessage(LateThrow(0).provider) && !ClosesWhatItOpens(LateThrow(0).provider)
  {
    hide WellBracketed, Pass, Begin, Reached, LeavesOneMessage, ClosesWhatItOpens, FailedReply;
    StartsAtBegin(PlainSetup(), LateThrow);
    BeginsActive();
    MadeOrNot(PlainSetup(), LateThrow, 0);
    LateRun();
    LateProvider();
    LateBreaks();
  }

  lemma LateProvider()
    ensures var p := LateThrow(0).provider;
            && !LeavesOneMessage(p) && !ClosesWhatItOpens(p)
            && StreamReply(p) == Streamed([Assistant(HALF), Assistant(FailedReply("lost", false))],
                                          [MessageStart(Assistant(HALF)),
                                           MessageStart(Assistant(FailedReply("lost", false))),
                                           MessageEnd(Assistant(FailedReply("lost", false)))],
                                          FailedReply("lost", false))
  {
    hide FailedReply;
    var p := LateThrow(0).provider;
    assert p.events[1..] == [];
    assert !Finishes(p.events) && Starts(p.events) == 1;
    var st := StreamStep(Streaming([], []), p.events[0]);
    assert st == Streaming([Assistant(HALF)], [MessageStart(Assistant(HALF))]);
    assert StreamReply(p) == Consume(p, [], st);
  }

  lemma LateRun()
    ensures var hi, half, failed := User("hi"), Assistant(HALF), Assistant(FailedReply("lost", false));
            var r := Pass(PlainSetup().cfg, Begin(PlainSetup()), LateThrow(0));
            && r.status == Done([hi, failed], ErrorReply) && r.context == [hi, half, failed]
            && r.log == [AgentStart, TurnStart, MessageStart(hi), MessageEnd(hi),
                         MessageStart(half), MessageStart(failed), MessageEnd(failed), TurnEnd(failed.reply, []),
                         AgentEnd([hi, failed])]
  {
    hide StreamReply, Pairs;
    var u, t := PlainSetup(), LateThrow(0);
    LateProvider();
    PlainOpening();
    NoPairs();
    var asked := Ask(Inject(Begin(u)), [], t.provider);
    var hi, half, failed := User("hi"), Assistant(HALF), Assistant(FailedReply("lost", false));
    assert asked.news == [hi, failed] && asked.context == [hi, half, failed];
    assert asked.log == [AgentStart, TurnStart, MessageStart(hi), MessageEnd(hi),
                         MessageStart(half), MessageStart(failed), MessageEnd(failed)];
  }

  lemma LateBreaks()
    ensures !WellBracketed(Reached(PlainSetup(), LateThrow, 1).log)
  {
    hide Pass, Begin, Reached, WellBracketed, NoneThrowsOutside, ClosesWhatItOpens;
    var u := PlainSetup();
    EmptyIsFaithful(OneAtATime, OneAtATime);
    StartsAtBegin(u, LateThrow);
    BeginsActive();
    LateProvider();
    assert Made(u, LateThrow, 0);
    assert !EachCloses(u, LateThrow, 1);
    MadeOrNot(u, LateThrow, 0);
    LateRun();
    BracketsExactlyWhen(u, LateThrow, 1);
  }
}
