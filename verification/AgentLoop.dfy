/** runLoop and its two entry points (agent-loop.ts:80-278), one pass of the
    inner loop at a time.

    A run is driven by an endless supply of turn inputs; Reached(u, o, n) is
    the state after n passes, so every state of every run at a turn boundary is
    some Reached(...). */
module AgentLoop {
  import opened Messages
  import opened Events
  import opened Queues
  import opened ReplyStream
  import opened ToolPhase

  /** What one pass meets: the provider, the tools, and the two polls at its end. */
  datatype TurnInput = TurnInput(provider: Provider, tools: PhaseInput, after: PollPoint, followUp: PollPoint)

  /** Where an exception left the run. */
  datatype Site = InsideTurn | OutsideTurn

  datatype Cause = Stopped | ErrorReply | Threw(site: Site)

  /** `messages` is what agent_end carries. */
  datatype Status = Active | Done(messages: seq<Message>, cause: Cause)

  /** History of one pass: what it injected, the provider, the reply, and the
      tool results it committed. */
  datatype Turn = Turn(injected: seq<Message>, provider: Provider, reply: Reply, results: seq<Message>)

  /** The variables of a run.  `stream.push` appends to `log`; `turns` is history. */
  datatype Run = Run(world: World, context: seq<Message>, news: seq<Message>, log: seq<Event>,
                     pending: seq<Message>, firstTurn: bool, turns: seq<Turn>, status: Status)

  predicate StopsRun(r: Reply) { r.stop.Error? || r.stop.Aborted? }

  /** The message agentLoop makes of an exception that escapes runLoop. */
  function EscapedReply(error: string): Reply { Reply([Text(error)], Error, Some(error)) }

  /** stream.push({ type: "agent_end", ... }); stream.end(...) */
  function End(s: Run, cause: Cause): Run {
    s.(log := s.log + [AgentEnd(s.news)], status := Done(s.news, cause))
  }

  /** emitErrorSequence */
  function Escape(s: Run, error: string, site: Site): Run {
    var m := Assistant(EscapedReply(error));
    s.(log := s.log + [MessageStart(m), MessageEnd(m), TurnEnd(m.reply, []), AgentEnd(s.news + [m])],
       status := Done(s.news + [m], Threw(site)))
  }

  /** How a run starts: `initial` is the steering poll before the first turn, None
      when the Agent asked to skip it. */
  datatype Setup = Setup(cfg: Config, world: World, context: seq<Message>, prompts: seq<Message>,
                         initial: Option<PollPoint>)

  /** agentLoop (or, with no prompts, agentLoopContinue) up to the first pass of
      the inner loop. */
  function Begin(u: Setup): Run {
    var s := Run(u.world, u.context + u.prompts, u.prompts, [AgentStart, TurnStart] + Pairs(u.prompts),
                 [], true, [], Active);
    if u.initial.None? then s
    else match AwaitPoll(u.world, Steering, u.initial.value)
      case Heard(got, w') => s.(world := w', pending := got)
      case PollThrew(error, w') => Escape(s.(world := w'), error, InsideTurn)
  }

  /** turn_start, then the pending messages. */
  function Inject(s: Run): Run {
    s.(log := s.log + (if s.firstTurn then [] else [TurnStart]) + Pairs(s.pending),
       context := s.context + s.pending, news := s.news + s.pending, firstTurn := false, pending := [])
  }

  /** The assistant reply joins the logs. */
  function Ask(s: Run, injected: seq<Message>, p: Provider): Run {
    var out := StreamReply(p);
    s.(log := s.log + out.events, context := s.context + out.appended,
       news := s.news + [Assistant(out.reply)], turns := s.turns + [Turn(injected, p, out.reply, [])])
  }

  function Committed(turns: seq<Turn>, results: seq<Message>): seq<Turn>
    requires turns != []
  {
    turns[..|turns| - 1] + [turns[|turns| - 1].(results := results)]
  }

  /** The tool phase, up to turn_end. */
  function RunTools(s: Run, phase: Phase, r: Reply): Run
    requires s.turns != []
  {
    var s' := s.(log := s.log + phase.events, world := phase.world, turns := Committed(s.turns, phase.results));
    match phase.ending
    case Failed(error) => Escape(s', error, InsideTurn)
    case Completed(_) =>
      s'.(context := s.context + phase.results, news := s.news + phase.results,
          log := s'.log + [TurnEnd(r, phase.results)])
  }

  /** The follow-up poll, made when the run would stop. */
  function PollFollowUp(s: Run, t: TurnInput): Run {
    match AwaitPoll(s.world, FollowUps, t.followUp)
    case PollThrew(error, w') => Escape(s.(world := w'), error, OutsideTurn)
    case Heard(more, w') =>
      if more != [] then s.(world := w', pending := more) else End(s.(world := w'), Stopped)
  }

  /** The poll after turn_end, and the follow-up poll if the run would stop. */
  function PollNext(s: Run, calls: bool, steering: seq<Message>, t: TurnInput): Run {
    if steering != [] then s.(pending := steering)
    else match AwaitPoll(s.world, Steering, t.after)
      case PollThrew(error, w') => Escape(s.(world := w'), error, OutsideTurn)
      case Heard(got, w') =>
        if calls || got != [] then s.(world := w', pending := got)
        else PollFollowUp(s.(world := w'), t)
  }

  /** What follows a reply that does not stop the run. */
  function AfterReply(cfg: Config, s: Run, r: Reply, t: TurnInput): Run
    requires s.turns != []
  {
    var calls := Calls(r.content);
    if calls == [] then PollNext(s.(log := s.log + [TurnEnd(r, [])]), false, [], t)
    else
      var phase := Execute(cfg, calls, t.tools, s.world);
      var s' := RunTools(s, phase, r);
      if phase.ending.Failed? then s' else PollNext(s', true, phase.ending.steering, t)
  }

  /** One pass of the inner loop. */
  function Pass(cfg: Config, s: Run, t: TurnInput): Run {
    var asked := Ask(Inject(s), s.pending, t.provider);
    var r := StreamReply(t.provider).reply;
    if StopsRun(r) then End(asked.(log := asked.log + [TurnEnd(r, [])]), ErrorReply)
    else AfterReply(cfg, asked, r, t)
  }

  /** The state after `n` passes, or where the run ended before. */
  function Reached(u: Setup, o: nat -> TurnInput, n: nat): Run {
    if n == 0 then Begin(u)
    else
      var s := Reached(u, o, n - 1);
      if s.status.Done? then s else Pass(u.cfg, s, o(n - 1))
  }
}
