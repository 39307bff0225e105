/** What the log of a whole run says, event by event, and when a run goes on
    (packages/pi-agent-core/src/agent-loop.ts:28-74, 163-278). */
module LogContents {
  import opened Messages
  import opened Events
  import opened Queues
  import opened ReplyStream
  import opened ToolPhase
  import opened ToolPhaseEvents
  import opened ToolPhaseFailures
  import opened AgentLoop
  import opened AgentLogTheorems
  import opened ConversationTheorems
  import opened RunFailures

  // ----- Ends of turns -----

  /** The turn_end events of a log. */
  function TurnEnds(es: seq<Event>): seq<Event> {
    if es == [] then [] else (if es[0].TurnEnd? then [es[0]] else []) + TurnEnds(es[1..])
  }

  /** What these turns say when they end: the reply and the results of each. */
  function EndsOf(turns: seq<Turn>): (es: seq<Event>)
    ensures |es| == |turns| && forall k :: 0 <= k < |es| ==> es[k] == TurnEnd(turns[k].reply, turns[k].results)
  {
    seq(|turns|, k requires 0 <= k < |turns| => TurnEnd(turns[k].reply, turns[k].results))
  }

  /** The turns that came to their end: all but one cut short in its tool phase. */
  function WholeTurns(s: Run): seq<Turn> {
    if ToolPhaseThrew(s) then s.turns[..|s.turns| - 1] else s.turns
  }

  /** The turn_end after the message about an exception. */
  function EscapedEnd(s: Run): seq<Event> {
    if EscapedTail(s) != [] && EscapedTail(s)[0].Assistant? then [TurnEnd(EscapedTail(s)[0].reply, [])] else []
  }

  /** Each tool end is followed by its result; each turn ends with its reply and its
      results, in order. */
  predicate Truthful(s: Run) {
    Echoed(s.log) && TurnEnds(s.log) == EndsOf(WholeTurns(s)) + EscapedEnd(s)
  }

  /** The same in the middle of a turn, when `early` are the turns before it. */
  predicate MidTurn(s: Run, early: seq<Turn>) {
    Echoed(s.log) && TurnEnds(s.log) == EndsOf(early) && s.status.Active?
  }

  lemma {:induction false} TurnEndsSplit(a: seq<Event>, b: seq<Event>)
    ensures TurnEnds(a + b) == TurnEnds(a) + TurnEnds(b)
  {
    if a == [] {
      assert a + b == b;
    } else {
      assert (a + b)[1..] == a[1..] + b;
      TurnEndsSplit(a[1..], b);
    }
  }

  lemma {:induction false} NoneEnds(es: seq<Event>)
    requires forall k :: 0 <= k < |es| ==> !es[k].TurnEnd?
    ensures TurnEnds(es) == []
  {
    if es != [] { NoneEnds(es[1..]); }
  }

  lemma ThenProper(log: seq<Event>, es: seq<Event>)
    requires Echoed(log) && Proper(es)
    ensures Echoed(log + es) && TurnEnds(log + es) == TurnEnds(log)
  {
    EchoedJoin(log, es);
    TurnEndsSplit(log, es);
    NoneEnds(es);
  }

  lemma ThenOne(log: seq<Event>, e: Event)
    requires Echoed(log) && !e.ToolEnd?
    ensures Echoed(log + [e]) && TurnEnds(log + [e]) == TurnEnds(log) + (if e.TurnEnd? then [e] else [])
  {
    assert Echoed([e]);
    EchoedJoin(log, [e]);
    TurnEndsSplit(log, [e]);
    assert [e][1..] == [];
  }

  lemma {:induction false} PairsProper(ms: seq<Message>)
    ensures Proper(Pairs(ms))
  {
    hide Proper;
    if ms == [] {
      NothingProper();
    } else {
      PairsProper(ms[1..]);
      OneProper(MessageStart(ms[0]));
      OneProper(MessageEnd(ms[0]));
      ProperJoin([MessageStart(ms[0])], [MessageEnd(ms[0])]);
      ProperJoin([MessageStart(ms[0])] + [MessageEnd(ms[0])], Pairs(ms[1..]));
      assert [MessageStart(ms[0])] + [MessageEnd(ms[0])] == [MessageStart(ms[0]), MessageEnd(ms[0])];
    }
  }

  lemma {:induction false} ReplyProper(p: Provider, evs: seq<ProviderEvent>, st: Streaming)
    requires Proper(st.events)
    ensures Proper(Consume(p, evs, st).events)
    decreases |evs|
  {
    hide Proper;
    if evs == [] || evs[0].Finished? {
      ReplyEndsProper(p, evs, st);
    } else {
      var x := if evs[0].Started? then MessageStart(Assistant(evs[0].partial))
               else MessageUpdate(Assistant(evs[0].partial));
      OneProper(x);
      ProperJoin(st.events, [x]);
      ReplyProper(p, evs[1..], StreamStep(st, evs[0]));
    }
  }

  lemma ReplyEndsProper(p: Provider, evs: seq<ProviderEvent>, st: Streaming)
    requires Proper(st.events) && (evs == [] || evs[0].Finished?)
    ensures Proper(Consume(p, evs, st).events)
  {
    hide Proper;
    var m := Assistant(Consume(p, evs, st).reply);
    OneProper(MessageStart(m));
    OneProper(MessageEnd(m));
    ProperJoin([MessageStart(m)], [MessageEnd(m)]);
    assert [MessageStart(m)] + [MessageEnd(m)] == [MessageStart(m), MessageEnd(m)];
    ProperJoin(st.events, [MessageStart(m), MessageEnd(m)]);
    ProperJoin(st.events, [MessageEnd(m)]);
    assert Consume(p, evs, st).events
        == st.events + (if evs == [] && p.ending.Exhausted? then []
                        else if evs != [] && st.appended != [] then [MessageEnd(m)]
                        else [MessageStart(m), MessageEnd(m)]);
    assert st.events + [] == st.events;
  }

  // ----- One pass -----

  lemma EscapeEnds(s: Run, error: string, site: Site)
    requires Echoed(s.log)
    ensures var r := Escape(s, error, site);
            Echoed(r.log) && TurnEnds(r.log) == TurnEnds(s.log) + EscapedEnd(r)
  {
    hide Echoed, TurnEnds;
    var m := Assistant(EscapedReply(error));
    var r := Escape(s, error, site);
    var a := s.log + [MessageStart(m)];
    var b := a + [MessageEnd(m)];
    var c := b + [TurnEnd(m.reply, [])];
    assert r.log == c + [AgentEnd(s.news + [m])];
    ThenOne(s.log, MessageStart(m));
    ThenOne(a, MessageEnd(m));
    ThenOne(b, TurnEnd(m.reply, []));
    ThenOne(c, AgentEnd(s.news + [m]));
    assert EscapedTail(r) == [m];
  }

  lemma PollNextTruthful(s: Run, calls: bool, steering: seq<Message>, t: TurnInput)
    requires MidTurn(s, s.turns)
    ensures Truthful(PollNext(s, calls, steering, t))
  {
    hide AwaitPoll, Escape, Echoed, TurnEnds;
    assert EndsOf(s.turns) + [] == EndsOf(s.turns);
    if steering == [] {
      var one := AwaitPoll(s.world, Steering, t.after);
      if one.PollThrew? {
        EscapeEnds(s.(world := one.world), one.error, OutsideTurn);
        EscapeLogs(s.(world := one.world), one.error, OutsideTurn);
      } else if !calls && one.got == [] {
        var two := AwaitPoll(one.world, FollowUps, t.followUp);
        if two.PollThrew? {
          EscapeEnds(s.(world := two.world), two.error, OutsideTurn);
          EscapeLogs(s.(world := two.world), two.error, OutsideTurn);
        } else {
          ThenOne(s.log, AgentEnd(s.news));
        }
      }
    }
  }

  lemma TurnDone(s: Run, early: seq<Turn>, t: Turn, r: Reply, results: seq<Message>)
    requires MidTurn(s, early) && s.turns == early + [t] && t.reply == r && t.results == results
    ensures MidTurn(s.(log := s.log + [TurnEnd(r, results)]), s.turns)
  {
    hide Echoed, TurnEnds;
    ThenOne(s.log, TurnEnd(r, results));
    assert EndsOf(early + [t]) == EndsOf(early) + [TurnEnd(r, results)];
  }

  lemma CutTruthful(s: Run, early: seq<Turn>, t: Turn, error: string)
    requires MidTurn(s, early) && s.turns == early + [t]
    ensures Truthful(Escape(s, error, InsideTurn))
  {
    hide Echoed, TurnEnds, Escape;
    EscapeEnds(s, error, InsideTurn);
    EscapeLogs(s, error, InsideTurn);
    var r := Escape(s, error, InsideTurn);
    assert r.turns[..|r.turns| - 1] == early;
    assert ToolPhaseThrew(r);
  }

  lemma AfterReplyTruthful(cfg: Config, early: seq<Turn>, s: Run, r: Reply, t: TurnInput)
    requires s.turns != [] && s.turns[..|s.turns| - 1] == early
    requires s.turns[|s.turns| - 1].reply == r && s.turns[|s.turns| - 1].results == []
    requires MidTurn(s, early)
    ensures Truthful(AfterReply(cfg, s, r, t))
  {
    hide Execute, PollNext, Echoed, TurnEnds, Escape, Proper;
    var calls, last := Calls(r.content), s.turns[|s.turns| - 1];
    assert s.turns == early + [last];
    if calls == [] {
      TurnDone(s, early, last, r, []);
      PollNextTruthful(s.(log := s.log + [TurnEnd(r, [])]), false, [], t);
    } else {
      var phase := Execute(cfg, calls, t.tools, s.world);
      EndsAreEchoed(cfg, calls, t.tools, s.world);
      ThenProper(s.log, phase.events);
      var whole := last.(results := phase.results);
      var s0 := s.(log := s.log + phase.events, world := phase.world, turns := Committed(s.turns, phase.results));
      assert s0.turns == early + [whole];
      match phase.ending
      case Failed(error) => CutTruthful(s0, early, whole, error);
      case Completed(steering) =>
        TurnDone(s0, early, whole, r, phase.results);
        PollNextTruthful(RunTools(s, phase, r), true, steering, t);
    }
  }

  lemma AskMidTurn(s: Run, p: Provider)
    requires Truthful(s) && s.status.Active?
    ensures MidTurn(Ask(Inject(s), s.pending, p), s.turns)
  {
    hide StreamReply, Echoed, TurnEnds, Pairs, Proper;
    PairsProper(s.pending);
    NothingProper();
    assert Proper(StreamReply(p).events) by { AllReplyProper(p); }
    ThenOne(s.log, TurnStart);
    var log := s.log + (if s.firstTurn then [] else [TurnStart]);
    assert s.log + [] == s.log;
    ThenProper(log, Pairs(s.pending));
    ThenProper(log + Pairs(s.pending), StreamReply(p).events);
  }

  lemma AllReplyProper(p: Provider)
    ensures Proper(StreamReply(p).events)
  {
    hide Proper;
    NothingProper();
    ReplyProper(p, p.events, Streaming([], []));
  }

  lemma PassTruthful(cfg: Config, s: Run, t: TurnInput)
    requires Truthful(s) && s.status.Active?
    ensures Truthful(Pass(cfg, s, t))
  {
    hide StreamReply, AfterReply, Echoed, TurnEnds, Ask, Inject, Escape;
    AskMidTurn(s, t.provider);
    AskedTurns(s, t.provider);
    var asked, r := Ask(Inject(s), s.pending, t.provider), StreamReply(t.provider).reply;
    if StopsRun(r) {
      TurnDone(asked, s.turns, Turn(s.pending, t.provider, r, []), r, []);
      ThenOne(asked.log + [TurnEnd(r, [])], AgentEnd(asked.news));
      assert EndsOf(asked.turns) + [] == EndsOf(asked.turns);
    } else {
      assert asked.turns[..|asked.turns| - 1] == s.turns;
      AfterReplyTruthful(cfg, s.turns, asked, r, t);
    }
  }

  lemma BeginTruthful(u: Setup)
    ensures Truthful(Begin(u))
  {
    hide AwaitPoll, Escape, Echoed, TurnEnds, Pairs, Proper;
    NothingToEcho();
    ThenOne([], AgentStart);
    ThenOne([] + [AgentStart], TurnStart);
    assert [] + [AgentStart] + [TurnStart] == [AgentStart, TurnStart];
    PairsProper(u.prompts);
    ThenProper([AgentStart, TurnStart], Pairs(u.prompts));
    if u.initial.Some? {
      var r := AwaitPoll(u.world, Steering, u.initial.value);
      if r.PollThrew? {
        EscapeEnds(Begin(u.(initial := None)).(world := r.world), r.error, InsideTurn);
        EscapeLogs(Begin(u.(initial := None)).(world := r.world), r.error, InsideTurn);
      }
    }
  }

  lemma NothingToEcho()
    ensures Echoed([]) && TurnEnds([]) == []
  {
  }

  /** In the log of every run, at every turn boundary and however it ended: each
      tool_execution_end is followed at once by the message of its result, which says
      the same; and the turn_end events carry the reply and the results of each turn
      that came to its end, in order, and then the message about an exception. */
  lemma {:induction false} LogsAreTruthful(u: Setup, o: nat -> TurnInput, n: nat)
    ensures Truthful(Reached(u, o, n))
    decreases n
  {
    hide Pass, Truthful, Begin;
    if n == 0 {
      BeginTruthful(u);
    } else {
      LogsAreTruthful(u, o, n - 1);
      if Made(u, o, n - 1) { PassTruthful(u.cfg, Reached(u, o, n - 1), o(n - 1)); }
    }
  }

  // ----- The calls of a reply -----

  /** In a run whose tool phases all completed: every tool-call block of a reply that did
      not stop the run is a call that was started and ended, and every call started or
      ended is such a block. */
  lemma CallBlocksAreRun(u: Setup, o: nat -> TurnInput, n: nat, c: Call)
    requires WorldFaithful(u.world) && !ToolPhaseThrew(Reached(u, o, n))
    ensures var s := Reached(u, o, n);
            && (c in StartedCalls(s.log) <==> c in EndedCalls(s.log))
            && (c in StartedCalls(s.log)
                <==> exists k :: 0 <= k < |s.turns| && HasCall(s.turns[k].reply, c))
  {
    hide Reached, WorldFaithful, Scan, HasCall;
    ToolLifecycle(u, o, n);
    var s := Reached(u, o, n);
    assert c in EndedCalls(s.log) <==> c in multiset(EndedCalls(s.log));
    assert c in CallsMade(s.turns) <==> c in multiset(CallsMade(s.turns));
    MadeFromBlocks(s.turns, c);
  }

  /** A reply that does not stop a run has this call among its blocks. */
  predicate HasCall(r: Reply, c: Call) {
    !r.stop.Error? && !r.stop.Aborted? && ToolCall(c) in r.content
  }

  lemma {:induction false} MadeFromBlocks(turns: seq<Turn>, c: Call)
    ensures c in CallsMade(turns) <==> exists k :: 0 <= k < |turns| && HasCall(turns[k].reply, c)
  {
    if turns != [] {
      hide HasCall;
      var early, last := turns[..|turns| - 1], turns[|turns| - 1];
      MadeFromBlocks(early, c);
      LastFromBlocks(last, c);
      assert forall k :: 0 <= k < |early| ==> turns[k] == early[k];
    }
  }

  lemma LastFromBlocks(t: Turn, c: Call)
    ensures c in TurnCalls(t) <==> HasCall(t.reply, c)
  {
    CallsComeFromBlocks(t.reply.content, c);
  }

  // ----- When a run goes on -----

  /** The queue holds a message when this poll is answered. */
  predicate Brings(w: World, from: Which, p: PollPoint) {
    p.throws.None? && LaneOf(ActAll(w, p.before), from).entries != []
  }

  lemma BringsIs(w: World, from: Which, p: PollPoint)
    ensures var r := AwaitPoll(w, from, p); r.Heard? && r.got != [] <==> Brings(w, from, p)
    ensures from.Steering? ==> (Quiet(w, p) <==> p.throws.None? && !Brings(w, from, p))
  {
    hide ActAll, AfterPoll;
    var now := ActAll(w, p.before);
    assert |Answer(now, from)| == |Taken(LaneOf(now, from))|;
  }

  /** The run goes on after this pass. */
  predicate GoesOn(cfg: Config, w: World, t: TurnInput) {
    && !ReplyOf(t).stop.Error? && !ReplyOf(t).stop.Aborted?
    && !FailsInside(cfg, w, t) && !ThrowsOutside(cfg, w, t)
    && (CallsOf(t) != [] || Brings(w, Steering, t.after) || Brings(AfterQuiet(w, t.after), FollowUps, t.followUp))
  }

  lemma PollNextGoesOn(s: Run, calls: bool, steering: seq<Message>, t: TurnInput)
    requires s.status.Active?
    ensures var r := PollNext(s, calls, steering, t);
            && (r.status.Active?
                <==> steering != []
                     || (t.after.throws.None?
                         && (calls || Brings(s.world, Steering, t.after)
                             || Brings(AfterQuiet(s.world, t.after), FollowUps, t.followUp))))
            && (r.status.Done? ==> r.status.cause.Threw? || r.status == Done(s.news, Stopped))
            && r.news == s.news
  {
    hide AwaitPoll, Quiet, AfterQuiet, Brings;
    PollIs(s.world, t.after);
    BringsIs(s.world, Steering, t.after);
    BringsIs(AfterQuiet(s.world, t.after), FollowUps, t.followUp);
  }

  /** A run goes on after a pass exactly when the reply is neither an error nor aborted,
      nothing throws, and there is something to do: the reply had calls, or the steering
      queue, or else the follow-up queue, brought a message.  A run that ends without an
      exception hands over its newMessages. */
  lemma GoesOnExactlyWhen(cfg: Config, s: Run, t: TurnInput)
    requires s.status.Active? && WorldFaithful(s.world)
    ensures var r := Pass(cfg, s, t);
            && (r.status.Active? <==> GoesOn(cfg, s.world, t))
            && (r.status.Done? && !r.status.cause.Threw? ==> r.status.messages == r.news)
            && (r.status.Done? && r.status.cause.ErrorReply?
                <==> ReplyOf(t).stop.Error? || ReplyOf(t).stop.Aborted?)
  {
    hide StreamReply, WorldFaithful, Execute, PollNext, PhaseFails, PhaseQuiet, Quiet, AfterQuiet, Brings;
    var asked, r := Ask(Inject(s), s.pending, t.provider), ReplyOf(t);
    if !StopsRun(r) {
      var calls := CallsOf(t);
      if calls == [] {
        var mid := asked.(log := asked.log + [TurnEnd(r, [])]);
        PollNextGoesOn(mid, false, [], t);
        BringsIs(s.world, Steering, t.after);
        FollowUpBrings(s.world, t);
      } else {
        var phase := Execute(cfg, calls, t.tools, s.world);
        PhaseFailsExactlyWhen(cfg, calls, t.tools, s.world);
        PhaseQuietExactlyWhen(cfg, calls, t.tools, s.world);
        if phase.ending.Completed? {
          PollNextGoesOn(RunTools(asked, phase, r), true, phase.ending.steering, t);
        }
      }
    }
  }

  lemma FollowUpBrings(w: World, t: TurnInput)
    ensures Brings(AfterQuiet(w, t.after), FollowUps, t.followUp) ==> t.followUp.throws.None?
  {
    hide ActAll;
  }

  // ----- What is said of an exception -----

  /** The exception that escapes a pass. */
  function PassError(cfg: Config, w: World, t: TurnInput): Option<string> {
    if FailsInside(cfg, w, t) then PhaseError(cfg, CallsOf(t), t.tools, w)
    else if !ThrowsOutside(cfg, w, t) then None
    else if t.after.throws.Some? then t.after.throws else t.followUp.throws
  }

  /** The run ended with a reply that tells of this exception. */
  predicate Tells(s: Run, error: string) {
    s.status.Done? && s.status.cause.Threw? && |s.status.messages| == |s.news| + 1
    && s.status.messages[..|s.news|] == s.news
    && var m := s.status.messages[|s.news|];
    m.Assistant? && m.reply.content == [Text(error)] && m.reply.stop.Error? && m.reply.errorMessage == Some(error)
  }

  lemma EscapeTells(s: Run, error: string, site: Site)
    ensures Tells(Escape(s, error, site), error)
  {
  }

  lemma FollowUpErrorIs(w: World, p: PollPoint)
    ensures var r := AwaitPoll(w, FollowUps, p); if r.PollThrew? then p.throws == Some(r.error) else p.throws.None?
  {
    hide ActAll, Answer, AfterPoll;
  }

  lemma PollNextTells(s: Run, calls: bool, steering: seq<Message>, t: TurnInput)
    requires s.status.Active?
    ensures var r := PollNext(s, calls, steering, t);
            r.status.Done? && r.status.cause.Threw? ==>
              (if t.after.throws.Some? then Tells(r, t.after.throws.value)
               else t.followUp.throws.Some? && Tells(r, t.followUp.throws.value))
  {
    hide AwaitPoll, Escape, Tells, Quiet, AfterQuiet;
    if steering == [] {
      PollIs(s.world, t.after);
      PollErrorIs(s.world, t.after);
      var one := AwaitPoll(s.world, Steering, t.after);
      FollowUpErrorIs(one.world, t.followUp);
      var two := AwaitPoll(one.world, FollowUps, t.followUp);
      if one.PollThrew? { EscapeTells(s.(world := one.world), one.error, OutsideTurn); }
      if two.PollThrew? { EscapeTells(s.(world := two.world), two.error, OutsideTurn); }
    }
  }

  /** A pass that ends a run by an exception says which: the messages handed over are
      newMessages and one reply with the text of the exception, from its input. */
  lemma PassTells(cfg: Config, s: Run, t: TurnInput)
    requires s.status.Active? && WorldFaithful(s.world)
    ensures var r := Pass(cfg, s, t);
            r.status.Done? && r.status.cause.Threw? ==>
              PassError(cfg, s.world, t).Some? && Tells(r, PassError(cfg, s.world, t).value)
  {
    hide StreamReply, WorldFaithful, Execute, PollNext, PhaseFails, PhaseLoses, PhaseQuiet, PhaseError, Quiet, Escape,
         Tells;
    var asked, r := Ask(Inject(s), s.pending, t.provider), ReplyOf(t);
    if !StopsRun(r) {
      PassEndsBy(cfg, s, t);
      var calls := CallsOf(t);
      if calls == [] {
        PollNextTells(asked.(log := asked.log + [TurnEnd(r, [])]), false, [], t);
        PollNextEndsBy(asked.(log := asked.log + [TurnEnd(r, [])]), false, [], t);
        PollNextCause(asked.(log := asked.log + [TurnEnd(r, [])]), false, [], t);
      } else {
        var phase := Execute(cfg, calls, t.tools, s.world);
        PhaseErrorIs(cfg, calls, t.tools, s.world);
        PhaseFailsExactlyWhen(cfg, calls, t.tools, s.world);
        var s0 := asked.(log := asked.log + phase.events, world := phase.world,
                         turns := Committed(asked.turns, phase.results));
        match phase.ending
        case Failed(error) => EscapeTells(s0, error, InsideTurn);
        case Completed(steering) =>
          PollNextTells(RunTools(asked, phase, r), true, steering, t);
          PollNextCause(RunTools(asked, phase, r), true, steering, t);
      }
    }
  }

  lemma PollNextCause(s: Run, calls: bool, steering: seq<Message>, t: TurnInput)
    requires s.status.Active?
    ensures var r := PollNext(s, calls, steering, t);
            r.status.Done? && r.status.cause.Threw? ==> EndedOutside(r)
  {
    hide AwaitPoll;
  }

  /** A run whose first poll throws ends at once, with a reply that tells of it. */
  lemma BeginTells(u: Setup)
    ensures var s := Begin(u);
            s.status.Done? <==> u.initial.Some? && u.initial.value.throws.Some?
    ensures Begin(u).status.Done? ==> Tells(Begin(u), u.initial.value.throws.value)
  {
    hide AwaitPoll, Escape, Tells, Pairs, Quiet, AfterQuiet;
    if u.initial.Some? {
      PollIs(u.world, u.initial.value);
      PollErrorIs(u.world, u.initial.value);
      var r := AwaitPoll(u.world, Steering, u.initial.value);
      if r.PollThrew? {
        EscapeTells(Begin(u.(initial := None)).(world := r.world), r.error, InsideTurn);
        EscapeIsOver(Begin(u.(initial := None)).(world := r.world), r.error);
      }
    }
  }

  lemma EscapeIsOver(s: Run, error: string)
    ensures Escape(s, error, InsideTurn).status.Done?
  {
  }
}
