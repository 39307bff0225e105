/** The logs of a run: brackets, agreement of the three logs, coherence of the
    conversation, pairing of tool events. */
module AgentLogTheorems {
  import opened Messages
  import opened Events
  import opened Queues
  import opened ReplyStream
  import opened ToolPhase
  import opened ToolPhaseFacts
  import opened ToolPhaseTheorems
  import opened AgentLoop
  import opened AgentLoopTheorems

  // ----- Brackets -----

  function Providers(turns: seq<Turn>): (ps: seq<Provider>)
    ensures |ps| == |turns| && forall k :: 0 <= k < |turns| ==> ps[k] == turns[k].provider
  {
    seq(|turns|, k requires 0 <= k < |turns| => turns[k].provider)
  }

  predicate AllClosed(turns: seq<Turn>) {
    forall p :: p in Providers(turns) ==> ClosesWhatItOpens(p)
  }

  /** Exactly where the log stands at a turn boundary: in order unless some
      provider left a message open or a callback threw outside a turn. */
  predicate BracketInv(s: Run) {
    var place := Scan(Before, s.log);
    if !AllClosed(s.turns) then place == Broken
    else match s.status
      case Active => place == (if s.firstTurn then InTurn else Between)
      case Done(_, cause) => place == (if cause == Threw(OutsideTurn) then Broken else Closed)
  }

  lemma {:induction false} NoMessageOpen(m: Message, es: seq<Event>)
    requires es != [] && Scan(InTurn, es) == InTurn
    ensures Scan(InMessage(m), es) == Broken
  {
    BrokenStays(es[1..]);
  }

  /** A log that stands inside an unclosed message, or broken, ends up broken. */
  predicate Off(p: Place) { p.Broken? || p.InMessage? }

  lemma OffBreaks(p: Place, es: seq<Event>)
    requires Off(p) && es != []
    requires es[0].TurnEnd? || Scan(InTurn, es) == InTurn
    ensures Scan(p, es) == Broken
  {
    if es[0].TurnEnd? {
      assert Move(p, es[0]) == Broken;
      BrokenStays(es[1..]);
    } else if p.InMessage? {
      NoMessageOpen(p.open, es);
    } else {
      BrokenStays(es);
    }
  }

  lemma LogThen(p: Place, log: seq<Event>, e: Event)
    ensures Scan(p, log + [e]) == Move(Scan(p, log), e)
  {
    ScanSplit(p, log, [e]);
    assert Scan(Scan(p, log), [e]) == Scan(Move(Scan(p, log), e), [e][1..]);
  }

  lemma EscapeBrackets(s: Run, error: string, site: Site)
    ensures var p, q := Scan(Before, s.log), Scan(Before, Escape(s, error, site).log);
            q == if p == InTurn then Closed else Broken
  {
    var m := Assistant(EscapedReply(error));
    var r := Escape(s, error, site);
    var a := s.log + [MessageStart(m)];
    var b := a + [MessageEnd(m)];
    var c := b + [TurnEnd(m.reply, [])];
    assert r.log == c + [AgentEnd(s.news + [m])];
    LogThen(Before, s.log, MessageStart(m));
    LogThen(Before, a, MessageEnd(m));
    LogThen(Before, b, TurnEnd(m.reply, []));
    LogThen(Before, c, AgentEnd(s.news + [m]));
  }

  lemma PollNextBrackets(s: Run, calls: bool, steering: seq<Message>, t: TurnInput)
    requires s.status.Active? && !s.firstTurn
    ensures var p, r := Scan(Before, s.log), PollNext(s, calls, steering, t);
            var q := Scan(Before, r.log);
            && r.turns == s.turns && !r.firstTurn
            && (p == Broken ==> q == Broken)
            && (p == Between ==>
                  q == match r.status
                       case Active => Between
                       case Done(_, cause) => if cause == Threw(OutsideTurn) then Broken else Closed)
            && (r.status.Done? ==> r.status.cause == Stopped || r.status.cause == Threw(OutsideTurn))
  {
    hide AwaitPoll, Scan;
    if steering == [] {
      var one := AwaitPoll(s.world, Steering, t.after);
      if one.PollThrew? {
        EscapeBrackets(s.(world := one.world), one.error, OutsideTurn);
      } else if !calls && one.got == [] {
        var two := AwaitPoll(one.world, FollowUps, t.followUp);
        if two.PollThrew? { EscapeBrackets(s.(world := two.world), two.error, OutsideTurn); }
        LogThen(Before, s.log, AgentEnd(s.news));
      }
    }
  }

  lemma StartsSomething(es: seq<Event>, started: seq<Call>, ended: seq<Call>, ms: seq<Message>)
    requires Piece(es, started, ended, ms) && started != []
    ensures es != []
  {
  }

  /** A phase with calls emits something. */
  lemma PhaseEmits(cfg: Config, calls: seq<Call>, inp: PhaseInput, w: World)
    requires calls != []
    ensures Execute(cfg, calls, inp, w).events != []
  {
    hide AwaitPoll, RunAll, ExecuteOne, PrepareStep, Piece, SkipRest;
    ExecuteOneShape(cfg, calls, inp.calls, 0, w, {});
    var one := ExecuteOne(cfg, calls, inp.calls, 0, w);
    StartsSomething(one.events, [calls[0]], if one.ending.Failed? then [] else [calls[0]], one.results);
    PrepareAllStays(cfg, calls, inp.calls, 0, w);
    PrepareEmits(cfg, calls, inp.calls, w);
  }

  lemma PrepareEmits(cfg: Config, calls: seq<Call>, inp: nat -> CallInput, w: World)
    requires calls != []
    ensures PrepareAll(cfg, calls, inp, 0, w).events != []
  {
    hide AwaitPoll, Emit;
  }

  /** How the log stands once the reply is dealt with, when the turn's part
      before it was in order or not. */
  predicate Placed(before: Place, s: Run) {
    var q := Scan(Before, s.log);
    && !s.firstTurn
    && (Off(before) ==> q == Broken)
    && (before == InTurn ==>
          q == match s.status
               case Active => Between
               case Done(_, cause) => if cause == Threw(OutsideTurn) then Broken else Closed)
  }

  lemma AfterReplyBrackets(cfg: Config, s: Run, r: Reply, t: TurnInput)
    requires s.turns != [] && s.status.Active? && !s.firstTurn && WorldFaithful(s.world)
    ensures Placed(Scan(Before, s.log), AfterReply(cfg, s, r, t))
  {
    hide AwaitPoll, PollNext, Execute, WorldFaithful, Scan, Off;
    var p, calls := Scan(Before, s.log), Calls(r.content);
    if calls == [] {
      LogThen(Before, s.log, TurnEnd(r, []));
      OffThenTurnEnd(p, r, []);
      PollNextBrackets(s.(log := s.log + [TurnEnd(r, [])]), false, [], t);
    } else {
      var phase := Execute(cfg, calls, t.tools, s.world);
      var s' := RunTools(s, phase, r);
      ToolBrackets(cfg, s, r, calls, t);
      if phase.ending.Completed? { PollNextBrackets(s', true, phase.ending.steering, t); }
    }
  }

  lemma OffThenTurnEnd(p: Place, r: Reply, ms: seq<Message>)
    ensures Off(p) ==> Move(p, TurnEnd(r, ms)) == Broken
    ensures p == InTurn ==> Move(p, TurnEnd(r, ms)) == Between
  {
  }

  lemma ToolBrackets(cfg: Config, s: Run, r: Reply, calls: seq<Call>, t: TurnInput)
    requires s.turns != [] && s.status.Active? && !s.firstTurn && WorldFaithful(s.world)
    requires calls != []
    ensures var p, s' := Scan(Before, s.log), RunTools(s, Execute(cfg, calls, t.tools, s.world), r);
            var q := Scan(Before, s'.log);
            && !s'.firstTurn
            && (Off(p) ==> q == Broken)
            && (p == InTurn ==> q == if s'.status.Active? then Between else Closed)
            && (s'.status.Done? ==> s'.status.cause == Threw(InsideTurn))
  {
    hide AwaitPoll, Execute, WorldFaithful, Scan, Off;
    var p, phase := Scan(Before, s.log), Execute(cfg, calls, t.tools, s.world);
    PhaseShape(cfg, calls, t.tools, s.world);
    PhaseEmits(cfg, calls, t.tools, s.world);
    ScanSplit(Before, s.log, phase.events);
    if Off(p) { OffBreaks(p, phase.events); }
    var s0 := s.(log := s.log + phase.events, world := phase.world, turns := Committed(s.turns, phase.results));
    match phase.ending
    case Failed(error) => EscapeBrackets(s0, error, InsideTurn);
    case Completed(_) => LogThen(Before, s0.log, TurnEnd(r, phase.results));
  }

  lemma InjectBrackets(s: Run)
    requires BracketInv(s) && s.status.Active? && AllClosed(s.turns)
    ensures Scan(Before, Inject(s).log) == InTurn
  {
    var open := if s.firstTurn then [] else [TurnStart];
    ScanSplit(Before, s.log, open);
    assert Scan(Scan(Before, s.log), open) == InTurn by {
      if !s.firstTurn { assert [TurnStart][1..] == []; }
    }
    ScanSplit(Before, s.log + open, Pairs(s.pending));
    PairsFacts(s.pending, {});
  }

  lemma AskBrackets(s: Run, p: Provider)
    requires BracketInv(s) && s.status.Active?
    ensures var q := Scan(Before, Ask(Inject(s), s.pending, p).log);
            if AllClosed(s.turns) && ClosesWhatItOpens(p) then q == InTurn else Off(q)
  {
    var a := Inject(s);
    StreamOutcome(p, {});
    ScanSplit(Before, a.log, StreamReply(p).events);
    if AllClosed(s.turns) {
      InjectBrackets(s);
    } else {
      var es := (if s.firstTurn then [] else [TurnStart]) + Pairs(s.pending);
      assert a.log == s.log + es;
      ScanSplit(Before, s.log, es);
      BrokenStays(es);
      BrokenStays(StreamReply(p).events);
    }
  }

  lemma PassBrackets(cfg: Config, s: Run, t: TurnInput)
    requires BracketInv(s) && s.status.Active? && WorldFaithful(s.world)
    ensures BracketInv(Pass(cfg, s, t))
  {
    hide StreamReply, AfterReply, WorldFaithful, Scan, BracketInv, ClosesWhatItOpens;
    AskBrackets(s, t.provider);
    var asked, r := Ask(Inject(s), s.pending, t.provider), StreamReply(t.provider).reply;
    var s' := Pass(cfg, s, t);
    if StopsRun(r) {
      OffThenTurnEnd(Scan(Before, asked.log), r, []);
      LogThen(Before, asked.log, TurnEnd(r, []));
      LogThen(Before, asked.log + [TurnEnd(r, [])], AgentEnd(asked.news));
    } else {
      AfterReplyBrackets(cfg, asked, r, t);
      AfterReplyKeepsInjected(cfg, asked, r, t);
    }
    SameProviders(asked.turns, s'.turns);
    OneMoreProvider(s.turns, Turn(s.pending, t.provider, r, []));
    assert AllClosed(asked.turns) <==> AllClosed(s.turns) && ClosesWhatItOpens(t.provider);
    Conclude(s', Scan(Before, asked.log), AllClosed(asked.turns));
  }

  lemma SameProviders(a: seq<Turn>, b: seq<Turn>)
    requires |a| == |b| && forall k :: 0 <= k < |a| ==> a[k].(results := []) == b[k].(results := [])
    ensures Providers(a) == Providers(b)
  {
    forall k | 0 <= k < |a| ensures a[k].provider == b[k].provider {
      assert a[k].(results := []).provider == b[k].(results := []).provider;
    }
  }

  lemma OneMoreProvider(turns: seq<Turn>, t: Turn)
    ensures Providers(turns + [t]) == Providers(turns) + [t.provider]
  {
  }

  lemma Conclude(s: Run, before: Place, closed: bool)
    requires Placed(before, s) && closed == AllClosed(s.turns)
    requires if closed then before == InTurn else Off(before)
    ensures BracketInv(s)
  {
  }

  lemma BeginBrackets(u: Setup)
    ensures BracketInv(Begin(u))
  {
    hide AwaitPoll;
    var two := [AgentStart, TurnStart];
    assert two[1..] == [TurnStart] && two[1..][1..] == [];
    assert Scan(Before, two) == Scan(Opened, two[1..]) == InTurn;
    ScanSplit(Before, two, Pairs(u.prompts));
    PairsFacts(u.prompts, {});
    if u.initial.Some? {
      var r := AwaitPoll(u.world, Steering, u.initial.value);
      if r.PollThrew? {
        EscapeBrackets(Begin(u.(initial := None)).(world := r.world), r.error, InsideTurn);
      }
    }
  }

  lemma {:induction false} BracketsHold(u: Setup, o: nat -> TurnInput, n: nat)
    requires WorldFaithful(u.world)
    ensures BracketInv(Reached(u, o, n))
    decreases n
  {
    hide Pass, WorldFaithful, BracketInv, Begin;
    if n == 0 {
      BeginBrackets(u);
    } else {
      BracketsHold(u, o, n - 1);
      ExactlyOnceDelivery(u, o, n - 1);
      FaithOf(Got(u.world.polls), Reached(u, o, n - 1));
      var s := Reached(u, o, n - 1);
      if s.status.Active? { PassBrackets(u.cfg, s, o(n - 1)); }
    }
  }

  /** The event grammar, exactly: the log of a finished run is agent_start,
      bracketed turns and one final agent_end if and only if every provider
      closed the message it opened and no callback threw between turns. */
  lemma BracketsByCause(u: Setup, o: nat -> TurnInput, n: nat)
    requires WorldFaithful(u.world) && Reached(u, o, n).status.Done?
    ensures var s := Reached(u, o, n);
            WellBracketed(s.log) <==> AllClosed(s.turns) && s.status.cause != Threw(OutsideTurn)
  {
    hide Reached;
    BracketsHold(u, o, n);
  }

  // ----- The three logs -----

  predicate AllLeaveOne(turns: seq<Turn>) {
    forall p :: p in Providers(turns) ==> LeavesOneMessage(p)
  }

  predicate AllCommit(turns: seq<Turn>) {
    forall p :: p in Providers(turns) ==> Commits(p)
  }

  /** Results the tool phase committed before an exception in it: the transcript
      has them, the run's own lists do not. */
  function Lost(s: Run): seq<Message> {
    if s.status.Done? && s.status.cause == Threw(InsideTurn) && s.turns != []
    then s.turns[|s.turns| - 1].results else []
  }

  function EscapedTail(s: Run): seq<Message> {
    if s.status.Done? && s.status.cause.Threw? && |s.status.messages| > 0
    then [s.status.messages[|s.status.messages| - 1]] else []
  }

  /** Context, newMessages and the rebuilt transcript at a turn boundary. */
  predicate LogsInv(context: seq<Message>, s: Run) {
    && (AllLeaveOne(s.turns) ==> s.context == context + s.news)
    && (AllCommit(s.turns) ==> Transcript(s.log) == s.news + Lost(s) + EscapedTail(s))
    && (s.status.Done? ==> s.status.messages == s.news + EscapedTail(s))
    && (s.status.Done? && s.status.cause.Threw? ==> EscapedTail(s) != [])
  }

  /** One reply keeps context and newMessages in step exactly when its provider
      leaves one message. */
  lemma AskKeepsContextExactlyWhen(s: Run, injected: seq<Message>, p: Provider, context: seq<Message>)
    requires s.context == context + s.news
    ensures var r := Ask(s, injected, p); r.context == context + r.news <==> LeavesOneMessage(p)
  {
    hide StreamReply;
    StreamOutcome(p, {});
    var out := StreamReply(p);
    var r := Ask(s, injected, p);
    assert r.context == s.context + out.appended;
    assert context + r.news == s.context + [Assistant(out.reply)];
    assert r.context[|s.context|..] == out.appended;
    assert (s.context + [Assistant(out.reply)])[|s.context|..] == [Assistant(out.reply)];
  }

  lemma EscapeLogs(s: Run, error: string, site: Site)
    ensures var r := Escape(s, error, site);
            && r.status == Done(s.news + EscapedTail(r), Threw(site)) && |EscapedTail(r)| == 1
            && Transcript(r.log) == Transcript(s.log) + EscapedTail(r)
            && r.turns == s.turns && r.news == s.news && r.context == s.context
  {
    var m := Assistant(EscapedReply(error));
    var r := Escape(s, error, site);
    var tail := [MessageStart(m), MessageEnd(m), TurnEnd(m.reply, []), AgentEnd(s.news + [m])];
    TranscriptSplit(s.log, tail);
    TranscriptSplit(tail[..2], tail[2..]);
    assert tail == tail[..2] + tail[2..] && tail[..2] == [MessageStart(m), MessageEnd(m)];
    PairFacts(m, {});
    assert tail[2..][1..][1..] == [];
    assert Transcript(tail[2..]) == Transcript(tail[2..][1..]) == [];
    assert EscapedTail(r) == [m];
  }

  lemma TranscriptThen(log: seq<Event>, e: Event)
    requires !e.MessageEnd?
    ensures Transcript(log + [e]) == Transcript(log)
  {
    TranscriptSplit(log, [e]);
    assert Transcript([e]) == [];
  }

  lemma EndLogs(s: Run, cause: Cause)
    requires !cause.Threw?
    ensures var r := End(s, cause);
            Transcript(r.log) == Transcript(s.log) && Lost(r) == [] && EscapedTail(r) == []
  {
    TranscriptThen(s.log, AgentEnd(s.news));
  }

  lemma PollNextLogs(context: seq<Message>, s: Run, calls: bool, steering: seq<Message>, t: TurnInput)
    requires LogsInv(context, s) && s.status.Active?
    ensures LogsInv(context, PollNext(s, calls, steering, t))
  {
    hide AwaitPoll, AllLeaveOne, AllCommit, Transcript, Escape, End;
    if steering == [] {
      var one := AwaitPoll(s.world, Steering, t.after);
      if one.PollThrew? {
        EscapeLogs(s.(world := one.world), one.error, OutsideTurn);
      } else if !calls && one.got == [] {
        var two := AwaitPoll(one.world, FollowUps, t.followUp);
        if two.PollThrew? {
          EscapeLogs(s.(world := two.world), two.error, OutsideTurn);
        } else if two.got == [] {
          EndsClean(context, s.(world := two.world), Stopped);
        }
      }
    }
  }

  lemma EndsClean(context: seq<Message>, s: Run, cause: Cause)
    requires LogsInv(context, s) && s.status.Active? && !cause.Threw?
    ensures LogsInv(context, End(s, cause))
  {
    EndLogs(s, cause);
  }

  lemma CommittedProviders(turns: seq<Turn>, results: seq<Message>)
    requires turns != []
    ensures Providers(Committed(turns, results)) == Providers(turns)
  {
  }

  lemma ToolLogs(cfg: Config, context: seq<Message>, s: Run, r: Reply, calls: seq<Call>, t: TurnInput)
    requires LogsInv(context, s) && s.turns != [] && s.status.Active? && WorldFaithful(s.world)
    ensures LogsInv(context, RunTools(s, Execute(cfg, calls, t.tools, s.world), r))
  {
    hide AwaitPoll, Execute, WorldFaithful, Transcript, AllLeaveOne, AllCommit, Escape, RunTools;
    var phase := Execute(cfg, calls, t.tools, s.world);
    PhaseShape(cfg, calls, t.tools, s.world);
    PhaseLogs(context, s, phase, r);
  }

  lemma PhaseLogs(context: seq<Message>, s: Run, phase: Phase, r: Reply)
    requires LogsInv(context, s) && s.turns != [] && s.status.Active?
    requires Transcript(phase.events) == phase.results
    ensures LogsInv(context, RunTools(s, phase, r))
  {
    hide Transcript, Escape, Providers, LeavesOneMessage, Commits;
    TranscriptSplit(s.log, phase.events);
    CommittedProviders(s.turns, phase.results);
    var s0 := s.(log := s.log + phase.events, world := phase.world, turns := Committed(s.turns, phase.results));
    match phase.ending
    case Failed(error) => EscapeLogs(s0, error, InsideTurn);
    case Completed(_) => TranscriptThen(s0.log, TurnEnd(r, phase.results));
  }

  lemma AfterReplyLogs(cfg: Config, context: seq<Message>, s: Run, r: Reply, t: TurnInput)
    requires LogsInv(context, s) && s.turns != [] && s.status.Active? && WorldFaithful(s.world)
    ensures LogsInv(context, AfterReply(cfg, s, r, t))
  {
    hide AwaitPoll, Execute, WorldFaithful, PollNext, Transcript, AllLeaveOne, AllCommit;
    var calls := Calls(r.content);
    if calls == [] {
      TranscriptThen(s.log, TurnEnd(r, []));
      PollNextLogs(context, s.(log := s.log + [TurnEnd(r, [])]), false, [], t);
    } else {
      var phase := Execute(cfg, calls, t.tools, s.world);
      ToolLogs(cfg, context, s, r, calls, t);
      if phase.ending.Completed? { PollNextLogs(context, RunTools(s, phase, r), true, phase.ending.steering, t); }
    }
  }

  lemma InjectLogs(context: seq<Message>, s: Run)
    requires LogsInv(context, s) && s.status.Active?
    ensures LogsInv(context, Inject(s))
  {
    hide AllLeaveOne, AllCommit, Transcript, Pairs;
    if !s.firstTurn { TranscriptThen(s.log, TurnStart); }
    var log := if s.firstTurn then s.log else s.log + [TurnStart];
    assert s.log + (if s.firstTurn then [] else [TurnStart]) == log;
    TranscriptSplit(log, Pairs(s.pending));
    PairsFacts(s.pending, {});
  }

  lemma AskLogs(context: seq<Message>, s: Run, injected: seq<Message>, p: Provider)
    requires LogsInv(context, s) && s.status.Active?
    ensures LogsInv(context, Ask(s, injected, p))
  {
    hide StreamReply, LeavesOneMessage, Commits, ClosesWhatItOpens, Scan, PendingIds, Paired, TellsFailure, Finishes;
    StreamOutcome(p, {});
    var out := StreamReply(p);
    TranscriptSplit(s.log, out.events);
    var r := Ask(s, injected, p);
    var t := Turn(injected, p, out.reply, []);
    OneMoreProvider(s.turns, t);
    assert AllLeaveOne(r.turns) ==> AllLeaveOne(s.turns) && LeavesOneMessage(p);
    assert AllCommit(r.turns) ==> AllCommit(s.turns) && Commits(p);
  }

  lemma PassLogs(cfg: Config, context: seq<Message>, s: Run, t: TurnInput)
    requires LogsInv(context, s) && s.status.Active? && WorldFaithful(s.world)
    ensures LogsInv(context, Pass(cfg, s, t))
  {
    hide StreamReply, AfterReply, WorldFaithful, LogsInv;
    InjectLogs(context, s);
    AskLogs(context, Inject(s), s.pending, t.provider);
    var asked, r := Ask(Inject(s), s.pending, t.provider), StreamReply(t.provider).reply;
    if StopsRun(r) {
      TurnEndsClean(context, asked, r);
      EndsClean(context, asked.(log := asked.log + [TurnEnd(r, [])]), ErrorReply);
    } else {
      AfterReplyLogs(cfg, context, asked, r, t);
    }
  }

  lemma TurnEndsClean(context: seq<Message>, s: Run, r: Reply)
    requires LogsInv(context, s) && s.status.Active?
    ensures LogsInv(context, s.(log := s.log + [TurnEnd(r, [])]))
  {
    TranscriptThen(s.log, TurnEnd(r, []));
  }

  lemma BeginLogs(u: Setup)
    ensures LogsInv(u.context, Begin(u))
  {
    hide AwaitPoll, Escape, Transcript, Pairs, AllLeaveOne, AllCommit;
    OpeningLogs(u.prompts);
    if u.initial.Some? {
      var r := AwaitPoll(u.world, Steering, u.initial.value);
      if r.PollThrew? { EscapeLogs(Begin(u.(initial := None)).(world := r.world), r.error, InsideTurn); }
    }
  }

  lemma OpeningLogs(prompts: seq<Message>)
    ensures Transcript([AgentStart, TurnStart] + Pairs(prompts)) == prompts
  {
    var two := [AgentStart, TurnStart];
    assert two[1..][1..] == [] && Transcript(two[1..]) == [];
    TranscriptSplit(two, Pairs(prompts));
    PairsFacts(prompts, {});
  }

  lemma {:induction false} LogsHold(u: Setup, o: nat -> TurnInput, n: nat)
    requires WorldFaithful(u.world)
    ensures LogsInv(u.context, Reached(u, o, n))
    decreases n
  {
    hide Pass, WorldFaithful, LogsInv, Begin;
    if n == 0 {
      BeginLogs(u);
    } else {
      LogsHold(u, o, n - 1);
      ExactlyOnceDelivery(u, o, n - 1);
      FaithOf(Got(u.world.polls), Reached(u, o, n - 1));
      var s := Reached(u, o, n - 1);
      if s.status.Active? { PassLogs(u.cfg, u.context, s, o(n - 1)); }
    }
  }

  /** At every turn boundary the context is the initial context followed by
      newMessages, whatever the tools, hooks and polls did, provided every
      provider left one message. */
  lemma ContextAgrees(u: Setup, o: nat -> TurnInput, n: nat)
    requires WorldFaithful(u.world) && AllLeaveOne(Reached(u, o, n).turns)
    ensures Reached(u, o, n).context == u.context + Reached(u, o, n).news
  {
    hide Reached, AllLeaveOne, AllCommit;
    LogsHold(u, o, n);
  }

  /** The messages an event consumer rebuilds are those of agent_end, exactly
      when no exception escaped a tool phase that had already committed a
      result (such as an afterToolCall hook throwing on a later call). */
  lemma TranscriptByLost(u: Setup, o: nat -> TurnInput, n: nat)
    requires WorldFaithful(u.world) && Reached(u, o, n).status.Done? && AllCommit(Reached(u, o, n).turns)
    ensures var s := Reached(u, o, n);
            Transcript(s.log) == s.status.messages <==> Lost(s) == []
  {
    hide Reached, AllLeaveOne, AllCommit, Transcript;
    LogsHold(u, o, n);
    var s := Reached(u, o, n);
    assert |Transcript(s.log)| == |s.status.messages| + |Lost(s)|;
  }
}
