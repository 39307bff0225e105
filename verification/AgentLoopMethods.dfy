/** agent-loop.ts as imperative code: the loops and in-place updates of a run,
    each method proved against its function in ReplyStream, ToolPhase and
    AgentLoop. */
module AgentLoopMethods {
  import opened Messages
  import opened Events
  import opened Queues
  import opened ReplyStream
  import opened ToolPhase
  import opened ToolPhaseFacts
  import opened AgentLoop
  import opened AgentLoopTheorems

  lemma JoinAssociates(a: Phase, b: Phase, c: Phase)
    ensures Join(Join(a, b), c) == Join(a, Join(b, c))
  {
  }

  lemma JoinPrepAssociates(a: Prep, b: Prep, c: Prep)
    ensures JoinPrep(JoinPrep(a, b), c) == JoinPrep(a, JoinPrep(b, c))
  {
  }

  lemma PrepareUnfolds(cfg: Config, calls: seq<Call>, inp: nat -> CallInput, i: nat, w: World)
    requires i < |calls|
    ensures var p := PrepareStep(cfg, calls, inp, i, w);
            PrepareAll(cfg, calls, inp, i, w)
            == if p.ending.Ready? then JoinPrep(p, PrepareAll(cfg, calls, inp, i + 1, p.world)) else p
  {
    hide PrepareStep;
  }

  lemma NothingToPrepare(cfg: Config, calls: seq<Call>, inp: nat -> CallInput, w: World)
    ensures PrepareAll(cfg, calls, inp, |calls|, w) == Prep([], [], [], [], |calls|, w, Ready)
  {
  }

  lemma NoSkips(cs: seq<Call>, emitStart: bool)
    requires cs == []
    ensures SkipEvents(cs, emitStart) == []
  {
  }

  function EndOf(steering: seq<Message>, threw: Option<string>): PhaseEnd {
    if threw.Some? then Failed(threw.value) else Completed(steering)
  }

  /** A run that ended stays as it is. */
  lemma {:induction false} DoneStays(u: Setup, o: nat -> TurnInput, n: nat, m: nat)
    requires n <= m && Reached(u, o, n).status.Done?
    ensures Reached(u, o, m) == Reached(u, o, n)
    decreases m - n
  {
    hide Pass, Begin;
    if n < m { DoneStays(u, o, n, m - 1); }
  }

  lemma HowItBegins(u: Setup, o: nat -> TurnInput)
    ensures var s := Begin(u.(initial := None));
            && s.status.Active? && s.pending == [] && s.firstTurn
            && Reached(u, o, 0)
            == if u.initial.None? then s
               else match AwaitPoll(u.world, Steering, u.initial.value)
                 case Heard(got, w') => s.(world := w', pending := got)
                 case PollThrew(error, w') => Escape(s.(world := w'), error, InsideTurn)
  {
    hide AwaitPoll, Pairs;
  }

  lemma GoesOn(u: Setup, o: nat -> TurnInput, n: nat)
    requires Reached(u, o, n).status.Active?
    ensures Reached(u, o, n + 1) == Pass(u.cfg, Reached(u, o, n), o(n))
  {
    hide Pass, Begin;
  }

  /** A run over finite input is not still active after so many passes. */
  lemma EndsWithin(u: Setup, o: nat -> TurnInput, n: nat, budget: nat)
    requires WorldFaithful(u.world) && FiniteInput(u, o, budget) && budget + 2 <= n
    ensures Reached(u, o, n).status.Done?
  {
    hide WorldFaithful, FiniteInput, Reached;
    RunTerminates(u, o, budget);
    DoneStays(u, o, budget + 2, n);
  }

  /** What a pass amounts to, given how it left the loop's variables. */
  ghost predicate PassLeads(cfg: Config, s: Run, t: TurnInput, stopped: bool, hasMore: bool, next: seq<Message>,
                            threw: Option<string>, site: Site, mid: Run)
  {
    var r := Pass(cfg, s, t);
    if threw.Some? then r == Escape(mid, threw.value, site)
    else if stopped then r == mid
    else
      && mid.status.Active? && mid.pending == next && !mid.firstTurn
      && r == if hasMore || |next| > 0 then mid else PollFollowUp(mid, t)
  }

  function PrepEndOf(steering: seq<Message>, threw: Option<string>): PrepEnd {
    if threw.Some? then PrepFailed(threw.value) else if steering != [] then Steered(steering) else Ready
  }

  class AgentRun {
    const cfg: Config
    const queues: MessageQueues
    /** currentContext.messages */
    var context: seq<Message>
    var newMessages: seq<Message>
    /** Everything pushed to the event stream. */
    var log: seq<Event>

    constructor (cfg: Config, queues: MessageQueues, context: seq<Message>)
      ensures this.cfg == cfg && this.queues == queues && this.context == context
      ensures newMessages == [] && log == []
    {
      this.cfg, this.queues, this.context := cfg, queues, context;
      newMessages, log := [], [];
    }

    /** What the caller sees of a finished phase. */
    ghost predicate Shows(ph: Phase, before: seq<Event>, results: seq<Message>, steering: seq<Message>,
                          threw: Option<string>)
      reads this, queues
    {
      && log == before + ph.events && results == ph.results && queues.world == ph.world
      && ph.ending == EndOf(steering, threw)
    }

    /** What the preparation loop leaves behind. */
    ghost predicate ShowsPrep(p: Prep, before: seq<Event>, results: seq<Message>, runnable: seq<nat>,
                              steering: seq<Message>, threw: Option<string>)
      reads this, queues
    {
      && log == before + p.events && results == p.results && runnable == p.runnable && queues.world == p.world
      && p.ending == PrepEndOf(steering, threw)
    }

    method Push(e: Event)
      modifies this`log
      ensures log == old(log) + [e]
    {
      log := log + [e];
    }

    method EmitMessagePair(m: Message)
      modifies this`log
      ensures log == old(log) + [MessageStart(m), MessageEnd(m)]
    {
      Push(MessageStart(m));
      Push(MessageEnd(m));
    }

    /** streamAssistantResponse, with the caller's catch. */
    method StreamAssistantResponse(p: Provider) returns (reply: Reply)
      modifies this`context, this`log
      ensures context == old(context) + StreamReply(p).appended
      ensures log == old(log) + StreamReply(p).events
      ensures reply == StreamReply(p).reply
    {
      var addedPartial := false;
      ghost var st := Streaming([], []);
      for i := 0 to |p.events|
        invariant context == old(context) + st.appended && log == old(log) + st.events
        invariant addedPartial <==> st.appended != []
        invariant StreamReply(p) == Consume(p, p.events[i..], st)
      {
        var e := p.events[i];
        assert p.events[i..][0] == e && p.events[i..][1..] == p.events[i + 1..];
        match e {
          case Started(partial) =>
            context := context + [Assistant(partial)];
            addedPartial := true;
            Push(MessageStart(Assistant(partial)));
          case Delta(partial) =>
            if addedPartial {
              context := context[|context| - 1 := Assistant(partial)];
              Push(MessageUpdate(Assistant(partial)));
            }
          case Finished =>
            if addedPartial {
              context := context[|context| - 1 := Assistant(p.final)];
            } else {
              context := context + [Assistant(p.final)];
              Push(MessageStart(Assistant(p.final)));
            }
            Push(MessageEnd(Assistant(p.final)));
            return p.final;
        }
        st := StreamStep(st, e);
      }
      assert p.events[|p.events|..] == [];
      match p.ending {
        case Throws(error, aborted) =>
          reply := FailedReply(error, aborted);
          EmitMessagePair(Assistant(reply));
          context := context + [Assistant(reply)];
        case Exhausted =>
          reply := p.final;
      }
    }

    method EmitToolCallOutcome(c: Call, o: Outcome) returns (m: Message)
      modifies this`log
      ensures m == ResultMessage(c, o) && log == old(log) + Emit(c, o)
    {
      Push(ToolEnd(c, o));
      m := ResultMessage(c, o);
      EmitMessagePair(m);
    }

    method SkipToolCall(c: Call, emitStart: bool) returns (m: Message)
      modifies this`log
      ensures m == ResultMessage(c, SKIPPED) && log == old(log) + SkipHead(c, emitStart)
    {
      if emitStart { Push(ToolStart(c)); }
      m := EmitToolCallOutcome(c, SKIPPED);
    }

    /** The skipping loops. */
    method SkipCalls(calls: seq<Call>, emitStart: bool) returns (results: seq<Message>)
      modifies this`log
      ensures results == Skips(calls) && log == old(log) + SkipEvents(calls, emitStart)
    {
      hide SkipEvents, SkipHead;
      results := [];
      assert SkipEvents(calls[|calls|..], emitStart) == [] by { NoSkips(calls[|calls|..], emitStart); }
      for i := 0 to |calls|
        invariant results == Skips(calls)[..i]
        invariant log + SkipEvents(calls[i..], emitStart) == old(log) + SkipEvents(calls, emitStart)
      {
        SkipUnfolds(calls[i..], emitStart);
        assert calls[i..][0] == calls[i] && calls[i..][1..] == calls[i + 1..];
        var m := SkipToolCall(calls[i], emitStart);
        results := results + [m];
      }
    }

    /** executePreparedToolCall: the tool reports its progress, then settles. */
    method ReportUpdates(c: Call, partials: seq<string>)
      modifies this`log
      ensures log == old(log) + Updates(c, partials)
    {
      for i := 0 to |partials|
        invariant log + Updates(c, partials[i..]) == old(log) + Updates(c, partials)
      {
        Push(ToolUpdate(c, partials[i]));
        assert partials[i..][0] == partials[i] && partials[i..][1..] == partials[i + 1..];
      }
    }

    /** One call, up to the poll after it. */
    method ExecuteCall(calls: seq<Call>, inp: nat -> CallInput, index: nat, ghost w: World)
      returns (result: Message, threw: Option<string>)
      requires index < |calls|
      modifies this`log
      ensures var one := ExecuteOne(cfg, calls, inp, index, w);
              && log == old(log) + one.events
              && one.results == (if threw.None? then [result] else []) && one.world == w
              && one.ending == EndOf([], threw)
    {
      var c, x := calls[index], inp(index);
      result, threw := ResultMessage(c, SKIPPED), None;
      Push(ToolStart(c));
      match Prepare(cfg.tools, c, x) {
        case Immediate(o) =>
          result := EmitToolCallOutcome(c, o);
        case Prepared =>
          ReportUpdates(c, x.updates);
          match Finalize(x) {
            case FinalThrows(error) => threw := Some(error);
            case Final(o) => result := EmitToolCallOutcome(c, o);
          }
      }
    }

    /** One call, its poll, and the skipping that the poll may cause. */
    method SequentialPass(calls: seq<Call>, inp: nat -> CallInput, index: nat)
      returns (results: seq<Message>, steering: seq<Message>, threw: Option<string>)
      requires index < |calls| && queues.Valid()
      modifies this`log, queues
      ensures queues.Valid()
      ensures var (step, more) := SequentialStep(cfg, calls, inp, index, old(queues.world));
              && log == old(log) + step.events && results == step.results && queues.world == step.world
              && step.ending == EndOf(steering, threw)
              && more == (threw.None? && steering == [])
    {
      hide ExecuteOne, AwaitPoll, WorldFaithful, SkipEvents, Skips;
      var result;
      steering := [];
      result, threw := ExecuteCall(calls, inp, index, queues.world);
      if threw.Some? {
        results := [];
        return;
      }
      results := [result];
      steering, threw := queues.Await(Steering, inp(index).poll);
      if threw.None? && |steering| > 0 {
        var skipped := SkipCalls(calls[index + 1..], true);
        results := results + skipped;
      }
    }

    method ExecuteToolCallsSequential(calls: seq<Call>, inp: nat -> CallInput)
      returns (results: seq<Message>, steering: seq<Message>, threw: Option<string>)
      requires queues.Valid()
      modifies this`log, queues
      ensures queues.Valid()
      ensures Shows(Sequential(cfg, calls, inp, 0, old(queues.world)), old(log), results, steering, threw)
    {
      hide SequentialStep, WorldFaithful;
      results, steering, threw := [], [], None;
      ghost var done := Phase([], [], [], [], queues.world, Completed([]));
      ghost var all := Sequential(cfg, calls, inp, 0, queues.world);
      for index := 0 to |calls|
        invariant queues.Valid() && steering == [] && threw == None
        invariant log == old(log) + done.events && results == done.results
        invariant all == Join(done, Sequential(cfg, calls, inp, index, queues.world))
      {
        ghost var step := SequentialStep(cfg, calls, inp, index, queues.world);
        JoinAssociates(done, step.0, Sequential(cfg, calls, inp, index + 1, step.0.world));
        var more;
        more, steering, threw := SequentialPass(calls, inp, index);
        results := results + more;
        done := Join(done, step.0);
        if threw.Some? || |steering| > 0 {
          return;
        }
      }
    }

    /** One pass of the preparation loop. */
    method PreparePass(calls: seq<Call>, inp: nat -> CallInput, index: nat)
      returns (results: seq<Message>, runnable: seq<nat>, steering: seq<Message>, threw: Option<string>)
      requires index < |calls| && queues.Valid()
      modifies this`log, queues
      ensures queues.Valid()
      ensures ShowsPrep(PrepareStep(cfg, calls, inp, index, old(queues.world)), old(log), results, runnable, steering,
              threw)
      ensures PrepareStep(cfg, calls, inp, index, old(queues.world)).next == index + 1
    {
      hide AwaitPoll, WorldFaithful, Emit;
      var c, x := calls[index], inp(index);
      results, runnable := [], [];
      Push(ToolStart(c));
      match Prepare(cfg.tools, c, x) {
        case Immediate(o) =>
          var m := EmitToolCallOutcome(c, o);
          results := [m];
        case Prepared =>
          runnable := [index];
      }
      steering, threw := queues.Await(Steering, x.poll);
    }

    /** The preparation loop. */
    method PrepareCalls(calls: seq<Call>, inp: nat -> CallInput)
      returns (results: seq<Message>, runnable: seq<nat>, next: nat, steering: seq<Message>, threw: Option<string>)
      requires queues.Valid()
      modifies this`log, queues
      ensures queues.Valid()
      ensures var prep := PrepareAll(cfg, calls, inp, 0, old(queues.world));
              ShowsPrep(prep, old(log), results, runnable, steering, threw) && next == prep.next
    {
      hide PrepareStep, WorldFaithful, PrepareAll;
      results, runnable, steering, threw := [], [], [], None;
      ghost var done := Prep([], [], [], [], 0, queues.world, Ready);
      ghost var all := PrepareAll(cfg, calls, inp, 0, queues.world);
      for index := 0 to |calls|
        invariant queues.Valid() && steering == [] && threw == None
        invariant log == old(log) + done.events && results == done.results && runnable == done.runnable
        invariant all == JoinPrep(done, PrepareAll(cfg, calls, inp, index, queues.world))
      {
        ghost var step := PrepareStep(cfg, calls, inp, index, queues.world);
        PrepareUnfolds(cfg, calls, inp, index, queues.world);
        JoinPrepAssociates(done, step, PrepareAll(cfg, calls, inp, index + 1, step.world));
        var answered, aside;
        answered, aside, steering, threw := PreparePass(calls, inp, index);
        results, runnable := results + answered, runnable + aside;
        done := JoinPrep(done, step);
        if threw.Some? || |steering| > 0 {
          return results, runnable, index + 1, steering, threw;
        }
      }
      next := |calls|;
      NothingToPrepare(cfg, calls, inp, queues.world);
    }

    method FinalizeJob(job: Job) returns (results: seq<Message>, threw: Option<string>)
      modifies this`log
      ensures match job.final
              case Final(o) =>
                log == old(log) + Emit(job.call, o) && results == [ResultMessage(job.call, o)] && threw == None
              case FinalThrows(error) => log == old(log) && results == [] && threw == Some(error)
    {
      results, threw := [], None;
      match job.final {
        case Final(o) =>
          var m := EmitToolCallOutcome(job.call, o);
          results := [m];
        case FinalThrows(error) =>
          threw := Some(error);
      }
    }

    /** The concurrent part: tools report and settle in whatever order, while the
        awaiting loop finalizes them in source order. */
    method RunPrepared(jobs: seq<Job>, schedule: seq<Sched>) returns (results: seq<Message>, threw: Option<string>)
      modifies this`log
      ensures var r := RunAll(jobs, schedule);
              log == old(log) + r.events && results == r.results && threw == r.failed
    {
      hide Emit;
      results, threw := [], None;
      var next: nat, settled: set<nat> := 0, {};
      ghost var r := IDLE;
      for i := 0 to |schedule|
        invariant r == Running(next, settled, r.events, results, threw) && next <= |jobs|
        invariant log == old(log) + r.events
        invariant RunSchedule(jobs, IDLE, schedule) == RunSchedule(jobs, r, schedule[i..])
      {
        assert schedule[i..][0] == schedule[i] && schedule[i..][1..] == schedule[i + 1..];
        r := RunStep(jobs, r, schedule[i]);
        if threw.None? {
          match schedule[i] {
            case Update(k, partial) =>
              if k < |jobs| { Push(ToolUpdate(jobs[k].call, partial)); }
            case Settles(k) =>
              if k < |jobs| { settled := settled + {k}; }
            case Resume =>
              if next < |jobs| && next in settled {
                var more;
                more, threw := FinalizeJob(jobs[next]);
                results := results + more;
                if threw.None? { next := next + 1; }
              }
          }
        }
      }
      while threw.None? && next < |jobs|
        invariant r == Running(next, settled, r.events, results, threw) && next <= |jobs|
        invariant log == old(log) + r.events
        invariant RunAll(jobs, schedule) == FinishAll(jobs, r)
        decreases |jobs| - next, threw.None?
      {
        r := FinalizeNext(jobs, r);
        var more;
        more, threw := FinalizeJob(jobs[next]);
        results := results + more;
        if threw.None? { next := next + 1; }
      }
    }

    method ExecuteToolCallsParallel(calls: seq<Call>, inp: PhaseInput)
      returns (results: seq<Message>, steering: seq<Message>, threw: Option<string>)
      requires queues.Valid()
      modifies this`log, queues
      ensures queues.Valid()
      ensures Shows(Parallel(cfg, calls, inp, old(queues.world)), old(log), results, steering, threw)
    {
      hide PrepareAll, AwaitPoll, WorldFaithful, SkipEvents, Skips, RunAll;
      PrepareAllStays(cfg, calls, inp.calls, 0, queues.world);
      var runnable, next;
      results, runnable, next, steering, threw := PrepareCalls(calls, inp.calls);
      if threw.Some? {
        return;
      }
      if |steering| > 0 {
        var waiting := SkipCalls(CallsAt(calls, runnable), false);
        var rest := SkipCalls(calls[next..], true);
        results := results + waiting + rest;
        return;
      }
      var more;
      more, threw := RunPrepared(Jobs(calls, inp.calls, runnable), inp.schedule);
      results := results + more;
      if threw.None? {
        steering, threw := queues.Await(Steering, inp.last);
      }
    }

    method ExecuteToolCalls(calls: seq<Call>, inp: PhaseInput)
      returns (results: seq<Message>, steering: seq<Message>, threw: Option<string>)
      requires queues.Valid()
      modifies this`log, queues
      ensures queues.Valid()
      ensures Shows(Execute(cfg, calls, inp, old(queues.world)), old(log), results, steering, threw)
    {
      if cfg.mode.Sequentially? {
        results, steering, threw := ExecuteToolCallsSequential(calls, inp.calls);
      } else {
        results, steering, threw := ExecuteToolCallsParallel(calls, inp);
      }
    }

    /** The pending messages join the logs before the next reply. */
    method InjectPending(pending: seq<Message>)
      modifies this
      ensures log == old(log) + Pairs(pending)
      ensures context == old(context) + pending && newMessages == old(newMessages) + pending
    {
      for i := 0 to |pending|
        invariant log + Pairs(pending[i..]) == old(log) + Pairs(pending)
        invariant context == old(context) + pending[..i] && newMessages == old(newMessages) + pending[..i]
      {
        assert pending[i..][0] == pending[i] && pending[i..][1..] == pending[i + 1..];
        EmitMessagePair(pending[i]);
        context := context + [pending[i]];
        newMessages := newMessages + [pending[i]];
      }
      assert pending[..|pending|] == pending;
    }

    /** The run's variables are those of `s`. */
    ghost predicate At(s: Run)
      reads this, queues
    {
      context == s.context && newMessages == s.news && log == s.log && queues.world == s.world
    }

    /** turn_start, the pending messages, and the reply. */
    method AskForReply(p: Provider, pending: seq<Message>, firstTurn: bool, ghost s: Run) returns (message: Reply)
      requires At(s) && s.pending == pending && s.firstTurn == firstTurn
      modifies this
      ensures At(Ask(Inject(s), pending, p)) && message == StreamReply(p).reply
    {
      hide StreamReply, Pairs;
      if !firstTurn { Push(TurnStart); }
      InjectPending(pending);
      message := StreamAssistantResponse(p);
      newMessages := newMessages + [Assistant(message)];
    }

    /** The tool calls of a reply, their results, and turn_end; `mid` is the state
        after it, or where an exception left. */
    method RunToolCalls(toolCalls: seq<Call>, message: Reply, t: TurnInput, ghost s: Run)
      returns (steering: seq<Message>, threw: Option<string>, ghost mid: Run)
      requires queues.Valid() && At(s) && s.turns != []
      modifies this, queues
      ensures queues.Valid() && At(mid)
      ensures var phase := Execute(cfg, toolCalls, t.tools, s.world);
              && phase.ending == EndOf(steering, threw)
              && RunTools(s, phase, message) == if threw.Some? then Escape(mid, threw.value, InsideTurn) else mid
    {
      hide Execute, WorldFaithful, Escape;
      ghost var phase := Execute(cfg, toolCalls, t.tools, queues.world);
      var toolResults;
      toolResults, steering, threw := ExecuteToolCalls(toolCalls, t.tools);
      if threw.Some? {
        mid := s.(log := log, world := queues.world, turns := Committed(s.turns, phase.results));
        return;
      }
      context := context + toolResults;
      newMessages := newMessages + toolResults;
      Push(TurnEnd(message, toolResults));
      mid := RunTools(s, phase, message);
    }

    /** One pass of the inner loop, up to turn_end.  `mid` is the state there. */
    method RunTurn(t: TurnInput, pending: seq<Message>, firstTurn: bool, ghost s: Run)
      returns (stopped: bool, hasMoreToolCalls: bool, steering: seq<Message>, threw: Option<string>, ghost mid: Run)
      requires queues.Valid() && At(s) && s.status.Active? && s.pending == pending && s.firstTurn == firstTurn
      modifies this, queues
      ensures queues.Valid() && At(mid)
      ensures var r := Pass(cfg, s, t);
              if threw.Some? then r == Escape(mid, threw.value, InsideTurn)
              else if stopped then r == mid && r.status == Done(newMessages, ErrorReply)
              else r == PollNext(mid, hasMoreToolCalls, steering, t)
                   && mid.status.Active? && mid.pending == [] && !mid.firstTurn
    {
      hide StreamReply, Execute, WorldFaithful, PollNext, Pairs, Escape;
      stopped, hasMoreToolCalls, steering, threw := false, false, [], None;
      var message := AskForReply(t.provider, pending, firstTurn, s);
      mid := Ask(Inject(s), pending, t.provider);
      if message.stop.Error? || message.stop.Aborted? {
        Push(TurnEnd(message, []));
        Push(AgentEnd(newMessages));
        stopped, mid := true, Pass(cfg, s, t);
        return;
      }
      var toolCalls := Calls(message.content);
      hasMoreToolCalls := |toolCalls| > 0;
      if hasMoreToolCalls {
        steering, threw, mid := RunToolCalls(toolCalls, message, t, mid);
      } else {
        Push(TurnEnd(message, []));
        mid := mid.(log := mid.log + [TurnEnd(message, [])]);
      }
    }

    /** One pass of the inner loop, with the poll that follows turn_end. */
    method RunPass(t: TurnInput, pending: seq<Message>, firstTurn: bool, ghost s: Run)
      returns (stopped: bool, hasMoreToolCalls: bool, next: seq<Message>, threw: Option<string>,
               ghost site: Site, ghost mid: Run)
      requires queues.Valid() && At(s) && s.status.Active? && s.pending == pending && s.firstTurn == firstTurn
      modifies this, queues
      ensures queues.Valid() && At(mid)
      ensures PassLeads(cfg, s, t, stopped, hasMoreToolCalls, next, threw, site, mid)
      ensures stopped && threw.None? ==> mid.status == Done(newMessages, ErrorReply)
    {
      hide Pass, WorldFaithful, AwaitPoll, Escape, PollFollowUp;
      var steering;
      next, site := [], InsideTurn;
      stopped, hasMoreToolCalls, steering, threw, mid := RunTurn(t, pending, firstTurn, s);
      if threw.Some? || stopped { return; }
      if |steering| > 0 {
        next := steering;
      } else {
        next, threw := queues.Await(Steering, t.after);
        mid := mid.(world := queues.world);
        if threw.Some? {
          site := OutsideTurn;
          return;
        }
      }
      mid := mid.(pending := next);
    }

    /** The poll before the first turn. */
    method AwaitInitial(initial: Option<PollPoint>, ghost u: Setup, ghost o: nat -> TurnInput)
      returns (pending: seq<Message>, threw: Option<string>, ghost last: Run)
      requires queues.Valid() && u.world == queues.world && u.initial == initial
      requires At(Begin(u.(initial := None)))
      modifies queues
      ensures queues.Valid() && At(last)
      ensures if threw.Some? then Reached(u, o, 0) == Escape(last, threw.value, InsideTurn)
              else Reached(u, o, 0) == last && last.pending == pending && last.firstTurn && last.status.Active?
    {
      hide WorldFaithful, AwaitPoll, Escape, Reached, Begin;
      HowItBegins(u, o);
      pending, threw := [], None;
      last := Begin(u.(initial := None));
      if initial.Some? {
        pending, threw := queues.Await(Steering, initial.value);
        last := last.(world := queues.world);
        if threw.None? { last := last.(pending := pending); }
      }
    }

    /** runLoop, watched for up to `limit` passes.  `k` counts them; an exception leaves
        through `threw`. */
    method RunLoop(o: nat -> TurnInput, initial: Option<PollPoint>, limit: nat, ghost u: Setup)
      returns (ended: bool, threw: Option<string>, ghost site: Site, ghost last: Run, ghost passes: nat)
      requires queues.Valid() && u.cfg == cfg && u.world == queues.world && u.initial == initial
      requires At(Begin(u.(initial := None)))
      modifies this, queues
      ensures queues.Valid() && At(last) && passes <= limit
      ensures Reached(u, o, passes) == if threw.Some? then Escape(last, threw.value, site) else last
      ensures threw.Some? ==> ended
      ensures threw.None? && ended ==> last.status.Done? && last.status.messages == newMessages
      ensures !ended ==> last.status.Active? && passes == limit
    {
      hide Pass, WorldFaithful, AwaitPoll, Escape, Reached, Begin;
      var k: nat, firstTurn := 0, true;
      var pending: seq<Message>;
      ended, site, passes := true, InsideTurn, 0;
      pending, threw, last := AwaitInitial(initial, u, o);
      if threw.Some? { return; }
      while true
        invariant queues.Valid() && threw == None && ended
        invariant At(last) && last.pending == pending && last.firstTurn == firstTurn
        invariant last == Reached(u, o, k) && last.status.Active? && k == passes <= limit
        decreases limit - k
      {
        ghost var k0 := k;
        var hasMoreToolCalls := true;
        while hasMoreToolCalls || |pending| > 0
          invariant queues.Valid() && threw == None && ended && k == passes <= limit
          invariant At(last) && last.pending == pending && last.firstTurn == firstTurn && last.status.Active?
          invariant hasMoreToolCalls || |pending| > 0 ==> last == Reached(u, o, k)
          invariant !hasMoreToolCalls && |pending| == 0 ==> k > 0 && Reached(u, o, k) == PollFollowUp(last, o(k - 1))
          invariant k0 < k || (k0 == k && hasMoreToolCalls)
          decreases limit - k
        {
          if k == limit {
            ended := false;
            return;
          }
          GoesOn(u, o, k);
          var stopped;
          stopped, hasMoreToolCalls, pending, threw, site, last := RunPass(o(k), pending, firstTurn, last);
          k, firstTurn, passes := k + 1, false, k + 1;
          if threw.Some? || stopped { return; }
        }
        var followUps;
        followUps, threw := queues.Await(FollowUps, o(k - 1).followUp);
        last := last.(world := queues.world);
        if threw.Some? {
          site := OutsideTurn;
          return;
        }
        if |followUps| == 0 {
          break;
        }
        pending := followUps;
        last := last.(pending := pending);
      }
      Push(AgentEnd(newMessages));
      last := End(last, Stopped);
    }

    /** emitErrorSequence */
    method EmitErrorSequence(error: string) returns (messages: seq<Message>)
      modifies this`log
      ensures messages == newMessages + [Assistant(EscapedReply(error))]
      ensures var m := Assistant(EscapedReply(error));
              log == old(log) + [MessageStart(m), MessageEnd(m), TurnEnd(m.reply, []), AgentEnd(messages)]
    {
      var m := Assistant(EscapedReply(error));
      EmitMessagePair(m);
      Push(TurnEnd(m.reply, []));
      messages := newMessages + [m];
      Push(AgentEnd(messages));
    }

    /** The events and messages a run starts with. */
    method Open(prompts: seq<Message>)
      requires newMessages == [] && log == []
      modifies this
      ensures log == [AgentStart, TurnStart] + Pairs(prompts)
      ensures newMessages == prompts && context == old(context) + prompts
    {
      newMessages := prompts;
      context := context + prompts;
      Push(AgentStart);
      Push(TurnStart);
      for i := 0 to |prompts|
        invariant log + Pairs(prompts[i..]) == [AgentStart, TurnStart] + Pairs(prompts)
        invariant newMessages == prompts && context == old(context) + prompts
      {
        assert prompts[i..][0] == prompts[i] && prompts[i..][1..] == prompts[i + 1..];
        EmitMessagePair(prompts[i]);
      }
    }

    /** agentLoop, or agentLoopContinue when there are no prompts, watched for up to
        `limit` passes: it has ended, or is still going after that many; a run over
        finite input has ended once the limit is above it. */
    method RunWithin(prompts: seq<Message>, initial: Option<PollPoint>, o: nat -> TurnInput, limit: nat, ghost u: Setup)
      returns (ended: bool, messages: seq<Message>, ghost passes: nat)
      requires queues.Valid() && newMessages == [] && log == []
      requires u == Setup(cfg, queues.world, context, prompts, initial)
      modifies this, queues
      ensures queues.Valid() && passes <= limit
      ensures var s := Reached(u, o, passes);
              && log == s.log && queues.world == s.world
              && (if ended then s.status.Done? && s.status.messages == messages
                  else s.status.Active? && s.news == messages && passes == limit)
      ensures forall budget: nat :: FiniteInput(u, o, budget) && budget + 2 <= limit ==> ended
    {
      hide Reached, WorldFaithful, FiniteInput, AwaitPoll;
      Open(prompts);
      var threw;
      ghost var site, last;
      ended, threw, site, last, passes := RunLoop(o, initial, limit, u);
      messages := newMessages;
      if threw.Some? {
        messages := EmitErrorSequence(threw.value);
      }
      forall budget: nat | FiniteInput(u, o, budget) && budget + 2 <= limit ensures ended {
        EndsWithin(u, o, limit, budget);
      }
    }
  }
}
