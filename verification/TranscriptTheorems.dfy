/** What the log of a run writes down, message by message, for arbitrary providers,
    tools, hooks and polls (packages/pi-agent-core/src/agent-loop.ts:163-278). */
module TranscriptTheorems {
  import opened Messages
  import opened Events
  import opened Queues
  import opened ReplyStream
  import opened ToolPhase
  import opened ToolPhaseTheorems
  import opened AgentLoop
  import opened AgentLoopTheorems
  import opened AgentLogTheorems

  /** One turn in the transcript: what was injected, the reply if its provider let it
      be heard, and the results the tool phase committed. */
  function RecordedIn(t: Turn): seq<Message> {
    t.injected + (if Commits(t.provider) then [Assistant(t.reply)] else []) + t.results
  }

  function Recorded(turns: seq<Turn>): seq<Message> {
    if turns == [] then [] else Recorded(turns[..|turns| - 1]) + RecordedIn(turns[|turns| - 1])
  }

  /** The transcript is the prompts, the turns, and the message about an exception
      that escaped. */
  predicate Written(prompts: seq<Message>, s: Run) {
    Transcript(s.log) == prompts + Recorded(s.turns) + EscapedTail(s)
  }

  lemma RecordedAppend(turns: seq<Turn>, t: Turn)
    ensures Recorded(turns + [t]) == Recorded(turns) + RecordedIn(t)
  {
    assert (turns + [t])[..|turns|] == turns;
  }

  lemma PollNextWritten(prompts: seq<Message>, s: Run, calls: bool, steering: seq<Message>, t: TurnInput)
    requires Written(prompts, s) && s.status.Active?
    ensures Written(prompts, PollNext(s, calls, steering, t))
  {
    hide AwaitPoll, Transcript, Escape, Recorded;
    if steering == [] {
      var one := AwaitPoll(s.world, Steering, t.after);
      if one.PollThrew? {
        EscapeLogs(s.(world := one.world), one.error, OutsideTurn);
      } else if !calls && one.got == [] {
        var two := AwaitPoll(one.world, FollowUps, t.followUp);
        if two.PollThrew? {
          EscapeLogs(s.(world := two.world), two.error, OutsideTurn);
        } else if two.got == [] {
          EndLogs(s.(world := two.world), Stopped);
        }
      }
    }
  }

  lemma ResultsLast(t: Turn, results: seq<Message>)
    requires t.results == []
    ensures RecordedIn(t.(results := results)) == RecordedIn(t) + results
  {
    hide Commits;
  }

  lemma ResultsAppend(early: seq<Turn>, last: Turn, results: seq<Message>)
    requires last.results == []
    ensures Recorded(early + [last.(results := results)]) == Recorded(early + [last]) + results
  {
    hide Recorded, RecordedIn;
    RecordedAppend(early, last);
    RecordedAppend(early, last.(results := results));
    ResultsLast(last, results);
  }

  lemma CommittedRecorded(turns: seq<Turn>, results: seq<Message>)
    requires turns != [] && turns[|turns| - 1].results == []
    ensures Recorded(Committed(turns, results)) == Recorded(turns) + results
  {
    hide Recorded, RecordedIn;
    var early, last := turns[..|turns| - 1], turns[|turns| - 1];
    ResultsAppend(early, last, results);
    assert early + [last] == turns;
  }

  lemma PhaseWritten(prompts: seq<Message>, s: Run, phase: Phase, r: Reply)
    requires Written(prompts, s) && s.status.Active?
    requires s.turns != [] && s.turns[|s.turns| - 1].results == []
    requires Transcript(phase.events) == phase.results
    ensures Written(prompts, RunTools(s, phase, r))
  {
    hide Transcript, Escape, Recorded, Committed;
    TranscriptSplit(s.log, phase.events);
    CommittedRecorded(s.turns, phase.results);
    var s0 := s.(log := s.log + phase.events, world := phase.world, turns := Committed(s.turns, phase.results));
    assert Transcript(s0.log) == prompts + Recorded(s0.turns);
    match phase.ending
    case Failed(error) => EscapeLogs(s0, error, InsideTurn);
    case Completed(_) => TranscriptThen(s0.log, TurnEnd(r, phase.results));
  }

  lemma AfterReplyWritten(cfg: Config, prompts: seq<Message>, s: Run, r: Reply, t: TurnInput)
    requires Written(prompts, s) && s.status.Active? && WorldFaithful(s.world)
    requires s.turns != [] && s.turns[|s.turns| - 1].results == []
    ensures Written(prompts, AfterReply(cfg, s, r, t))
  {
    hide AwaitPoll, Execute, WorldFaithful, PollNext, Transcript, Recorded;
    var calls := Calls(r.content);
    if calls == [] {
      TranscriptThen(s.log, TurnEnd(r, []));
      PollNextWritten(prompts, s.(log := s.log + [TurnEnd(r, [])]), false, [], t);
    } else {
      var phase := Execute(cfg, calls, t.tools, s.world);
      PhaseShape(cfg, calls, t.tools, s.world);
      PhaseWritten(prompts, s, phase, r);
      if phase.ending.Completed? {
        PollNextWritten(prompts, RunTools(s, phase, r), true, phase.ending.steering, t);
      }
    }
  }

  lemma InjectTranscript(s: Run)
    ensures Transcript(Inject(s).log) == Transcript(s.log) + s.pending
  {
    hide Transcript, Pairs;
    var open := if s.firstTurn then [] else [TurnStart];
    PairsFacts(s.pending, {});
    if s.firstTurn {
      assert s.log + open == s.log;
    } else {
      TranscriptThen(s.log, TurnStart);
    }
    TranscriptSplit(s.log + open, Pairs(s.pending));
    assert Inject(s).log == s.log + open + Pairs(s.pending);
  }

  lemma AskTranscript(s: Run, injected: seq<Message>, p: Provider)
    ensures var out := StreamReply(p);
            Transcript(Ask(s, injected, p).log)
            == Transcript(s.log) + (if Commits(p) then [Assistant(out.reply)] else [])
  {
    hide StreamReply, Commits, Transcript;
    StreamOutcome(p, {});
    TranscriptSplit(s.log, StreamReply(p).events);
  }

  lemma AskWritten(prompts: seq<Message>, s: Run, p: Provider)
    requires Written(prompts, s) && s.status.Active?
    ensures Written(prompts, Ask(Inject(s), s.pending, p))
  {
    hide StreamReply, Commits, Transcript, Pairs, Recorded;
    InjectTranscript(s);
    AskTranscript(Inject(s), s.pending, p);
    var t := Turn(s.pending, p, StreamReply(p).reply, []);
    RecordedAppend(s.turns, t);
    assert RecordedIn(t) == s.pending + (if Commits(p) then [Assistant(t.reply)] else []);
  }

  lemma PassWritten(cfg: Config, prompts: seq<Message>, s: Run, t: TurnInput)
    requires Written(prompts, s) && s.status.Active? && WorldFaithful(s.world)
    ensures Written(prompts, Pass(cfg, s, t))
  {
    hide StreamReply, AfterReply, WorldFaithful, Written;
    AskWritten(prompts, s, t.provider);
    var asked, r := Ask(Inject(s), s.pending, t.provider), StreamReply(t.provider).reply;
    if StopsRun(r) {
      StopWritten(prompts, asked, r);
    } else {
      AfterReplyWritten(cfg, prompts, asked, r, t);
    }
  }

  lemma StopWritten(prompts: seq<Message>, s: Run, r: Reply)
    requires Written(prompts, s) && s.status.Active?
    ensures Written(prompts, End(s.(log := s.log + [TurnEnd(r, [])]), ErrorReply))
  {
    TranscriptThen(s.log, TurnEnd(r, []));
    EndLogs(s.(log := s.log + [TurnEnd(r, [])]), ErrorReply);
  }

  lemma BeginWritten(u: Setup)
    ensures Written(u.prompts, Begin(u))
  {
    hide AwaitPoll, Escape, Transcript, Pairs;
    OpeningLogs(u.prompts);
    if u.initial.Some? {
      var r := AwaitPoll(u.world, Steering, u.initial.value);
      if r.PollThrew? { EscapeLogs(Begin(u.(initial := None)).(world := r.world), r.error, InsideTurn); }
    }
  }

  /** The transcript of every run, at every turn boundary and however it ended: the
      prompts, then per turn the messages it was given, its reply, and the committed
      results, in order, each once. */
  lemma {:induction false} TranscriptIs(u: Setup, o: nat -> TurnInput, n: nat)
    requires WorldFaithful(u.world)
    ensures Written(u.prompts, Reached(u, o, n))
    decreases n
  {
    hide Pass, WorldFaithful, Written, Begin;
    if n == 0 {
      BeginWritten(u);
    } else {
      TranscriptIs(u, o, n - 1);
      ExactlyOnceDelivery(u, o, n - 1);
      FaithOf(Got(u.world.polls), Reached(u, o, n - 1));
      var s := Reached(u, o, n - 1);
      if s.status.Active? { PassWritten(u.cfg, u.prompts, s, o(n - 1)); }
    }
  }
}
