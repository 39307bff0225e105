/** Whole runs under two schedules of their concurrent tools
    (packages/pi-agent-core/src/agent-loop.ts:163-278, 488-506). */
module ScheduleTheorems {
  import opened Messages
  import opened Events
  import opened Queues
  import opened ReplyStream
  import opened ToolPhase
  import opened ToolPhaseTheorems
  import opened AgentLoop

  /** The same input, but for the order in which concurrent tools report and settle. */
  ghost predicate SameButSchedule(a: TurnInput, b: TurnInput) {
    a.(tools := a.tools.(schedule := [])) == b.(tools := b.tools.(schedule := []))
  }

  /** The same state, but for the progress reports in the log. */
  predicate SameButUpdates(s: Run, r: Run) {
    s.(log := []) == r.(log := []) && StripUpdates(s.log) == StripUpdates(r.log)
  }

  lemma BothLogs(a: seq<Event>, b: seq<Event>, x: seq<Event>, y: seq<Event>)
    requires StripUpdates(a) == StripUpdates(b) && StripUpdates(x) == StripUpdates(y)
    ensures StripUpdates(a + x) == StripUpdates(b + y)
  {
    StripSplit(a, x);
    StripSplit(b, y);
  }

  lemma BothEscape(s: Run, r: Run, error: string, site: Site)
    requires SameButUpdates(s, r)
    ensures SameButUpdates(Escape(s, error, site), Escape(r, error, site))
  {
    hide StripUpdates;
    var m := Assistant(EscapedReply(error));
    var tail := [MessageStart(m), MessageEnd(m), TurnEnd(m.reply, []), AgentEnd(s.news + [m])];
    BothLogs(s.log, r.log, tail, tail);
  }

  lemma BothEnd(s: Run, r: Run, cause: Cause)
    requires SameButUpdates(s, r)
    ensures SameButUpdates(End(s, cause), End(r, cause))
  {
    hide StripUpdates;
    BothLogs(s.log, r.log, [AgentEnd(s.news)], [AgentEnd(s.news)]);
  }

  lemma BothPollNext(s: Run, r: Run, calls: bool, steering: seq<Message>, a: TurnInput, b: TurnInput)
    requires SameButUpdates(s, r) && SameButSchedule(a, b)
    ensures SameButUpdates(PollNext(s, calls, steering, a), PollNext(r, calls, steering, b))
  {
    hide AwaitPoll, StripUpdates, Escape, End;
    var one := AwaitPoll(s.world, Steering, a.after);
    if one.PollThrew? {
      BothEscape(s.(world := one.world), r.(world := one.world), one.error, OutsideTurn);
    } else {
      var two := AwaitPoll(one.world, FollowUps, a.followUp);
      if two.PollThrew? {
        BothEscape(s.(world := two.world), r.(world := two.world), two.error, OutsideTurn);
      } else {
        BothEnd(s.(world := two.world), r.(world := two.world), Stopped);
      }
    }
  }

  /** Two phases alike but for progress reports. */
  predicate SamePhase(p: Phase, q: Phase) {
    p.(events := []) == q.(events := []) && StripUpdates(p.events) == StripUpdates(q.events)
  }

  lemma BothPhases(cfg: Config, calls: seq<Call>, a: PhaseInput, b: PhaseInput, w: World)
    requires a.calls == b.calls && a.last == b.last
    ensures SamePhase(Execute(cfg, calls, a, w), Execute(cfg, calls, b, w))
  {
    hide Parallel, Sequential, StripUpdates;
    if cfg.mode.InParallel? { PhaseIgnoresSchedule(cfg, calls, a, b, w); }
  }

  lemma BothRunTools(s: Run, r: Run, p: Phase, q: Phase, reply: Reply)
    requires SameButUpdates(s, r) && SamePhase(p, q) && s.turns != []
    ensures SameButUpdates(RunTools(s, p, reply), RunTools(r, q, reply))
  {
    hide StripUpdates, Escape;
    BothLogs(s.log, r.log, p.events, q.events);
    var turns := Committed(s.turns, p.results);
    var s' := s.(log := s.log + p.events, world := p.world, turns := turns);
    var r' := r.(log := r.log + q.events, world := q.world, turns := turns);
    match p.ending
    case Failed(error) => BothEscape(s', r', error, InsideTurn);
    case Completed(_) => BothLogs(s'.log, r'.log, [TurnEnd(reply, p.results)], [TurnEnd(reply, p.results)]);
  }

  lemma BothAfterReply(cfg: Config, s: Run, r: Run, reply: Reply, a: TurnInput, b: TurnInput)
    requires SameButUpdates(s, r) && SameButSchedule(a, b) && s.turns != []
    ensures SameButUpdates(AfterReply(cfg, s, reply, a), AfterReply(cfg, r, reply, b))
  {
    hide Execute, StripUpdates, PollNext, RunTools;
    var calls := Calls(reply.content);
    if calls == [] {
      var end := [TurnEnd(reply, [])];
      BothLogs(s.log, r.log, end, end);
      BothPollNext(s.(log := s.log + end), r.(log := r.log + end), false, [], a, b);
    } else {
      BothPhases(cfg, calls, a.tools, b.tools, s.world);
      var p, q := Execute(cfg, calls, a.tools, s.world), Execute(cfg, calls, b.tools, s.world);
      BothRunTools(s, r, p, q, reply);
      if p.ending.Completed? {
        BothPollNext(RunTools(s, p, reply), RunTools(r, q, reply), true, p.ending.steering, a, b);
      }
    }
  }

  lemma BothAsk(s: Run, r: Run, p: Provider)
    requires SameButUpdates(s, r)
    ensures SameButUpdates(Ask(Inject(s), s.pending, p), Ask(Inject(r), r.pending, p))
  {
    hide StripUpdates, StreamReply, Pairs;
    var opening, out := (if s.firstTurn then [] else [TurnStart]) + Pairs(s.pending), StreamReply(p);
    assert Inject(s).log == s.log + opening && Inject(r).log == r.log + opening;
    BothLogs(s.log, r.log, opening, opening);
    BothLogs(s.log + opening, r.log + opening, out.events, out.events);
  }

  lemma BothPass(cfg: Config, s: Run, r: Run, a: TurnInput, b: TurnInput)
    requires SameButUpdates(s, r) && SameButSchedule(a, b)
    ensures SameButUpdates(Pass(cfg, s, a), Pass(cfg, r, b))
  {
    hide StripUpdates, StreamReply, AfterReply, Inject, End;
    BothAsk(s, r, a.provider);
    var asked, asked' := Ask(Inject(s), s.pending, a.provider), Ask(Inject(r), r.pending, a.provider);
    var reply := StreamReply(a.provider).reply;
    if StopsRun(reply) {
      var end := [TurnEnd(reply, [])];
      BothLogs(asked.log, asked'.log, end, end);
      BothEnd(asked.(log := asked.log + end), asked'.(log := asked'.log + end), ErrorReply);
    } else {
      BothAfterReply(cfg, asked, asked', reply, a, b);
    }
  }

  /** Schedule independence of whole runs: at every turn boundary, whatever order the
      concurrent tools of each turn reported and settled in, the queues, the context,
      newMessages, the turns and the outcome are the same, and so is the log but for
      tool_execution_update. */
  lemma {:induction false} RunsIgnoreSchedules(u: Setup, o: nat -> TurnInput, o': nat -> TurnInput, n: nat)
    requires forall k: nat :: k < n ==> SameButSchedule(o(k), o'(k))
    ensures SameButUpdates(Reached(u, o, n), Reached(u, o', n))
    decreases n
  {
    hide Pass, Begin, SameButSchedule, StripUpdates;
    if n > 0 {
      RunsIgnoreSchedules(u, o, o', n - 1);
      assert SameButSchedule(o(n - 1), o'(n - 1));
      BothPass(u.cfg, Reached(u, o, n - 1), Reached(u, o', n - 1), o(n - 1), o'(n - 1));
    }
  }
}
