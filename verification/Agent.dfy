/** class Agent around the loop (agent.ts:362-600): the reducer that rebuilds the
    state from events, the end of _runLoop, and what prompt() and continue() do
    with the queues. */
module Agent {
  import opened Messages
  import opened Queues
  import opened ToolPhase
  import opened AgentLoop
  import Lines

  datatype AgentState = AgentState(messages: seq<Message>, isStreaming: bool, streamMessage: Option<Message>,
                                   pendingToolCalls: set<string>, error: Option<string>)

  /** The state while events are read, with the reader's local variable. */
  datatype Reading = Reading(state: AgentState, partial: Option<Message>)

  /** One event of the for-await loop. */
  function Reduce(r: Reading, e: Event): Reading {
    var st := r.state;
    match e
    case MessageStart(m) => Reading(st.(streamMessage := Some(m)), Some(m))
    case MessageUpdate(m) => Reading(st.(streamMessage := Some(m)), Some(m))
    case MessageEnd(m) => Reading(st.(streamMessage := None, messages := st.messages + [m]), None)
    case ToolStart(c) => r.(state := st.(pendingToolCalls := st.pendingToolCalls + {c.id}))
    case ToolEnd(c, _) => r.(state := st.(pendingToolCalls := st.pendingToolCalls - {c.id}))
    case TurnEnd(reply, _) =>
      if reply.errorMessage.Some? && reply.errorMessage.value != "" then r.(state := st.(error := reply.errorMessage))
      else r
    case AgentEnd(_) => r.(state := st.(isStreaming := false, streamMessage := None))
    case _ => r
  }

  function ReduceAll(r: Reading, es: seq<Event>): Reading
    decreases |es|
  {
    if es == [] then r else ReduceAll(Reduce(r, es[0]), es[1..])
  }

  predicate SaysSomething(b: Block) {
    match b
    case Text(t) => !Lines.Blank(t)
    case Thinking(t) => !Lines.Blank(t)
    case ToolCall(c) => !Lines.Blank(c.name)
    case ServerSide => false
  }

  predicate Meaningful(content: seq<Block>) {
    exists i :: 0 <= i < |content| && SaysSomething(content[i])
  }

  /** The message _runLoop's own catch appends. */
  const ABORTED_REQUEST := Reply([Text("")], Aborted, Some("Request was aborted"))

  /** What the end of _runLoop does with a message left open by the events. */
  datatype Remainder = Nothing | Keeps(message: Message) | Aborts

  function RemainderOf(partial: Option<Message>, aborted: bool): Remainder {
    match partial
    case Some(Assistant(reply)) =>
      if reply.content == [] then Nothing
      else if Meaningful(reply.content) then Keeps(partial.value)
      else if aborted then Aborts else Nothing
    case _ => Nothing
  }

  /** The rest of _runLoop: the open message, the catch, then `finally`. */
  function Finally(r: Reading, aborted: bool): AgentState {
    var st := r.state.(isStreaming := false, streamMessage := None, pendingToolCalls := {});
    match RemainderOf(r.partial, aborted)
    case Nothing => st
    case Keeps(m) => st.(messages := st.messages + [m])
    case Aborts => st.(messages := st.messages + [Assistant(ABORTED_REQUEST)], error := ABORTED_REQUEST.errorMessage)
  }

  /** _runLoop before the first event. */
  function Begun(st: AgentState): Reading {
    Reading(st.(isStreaming := true, streamMessage := None, error := None), None)
  }

  /** The Agent's state after a run whose events were `log`. */
  function AfterRun(st: AgentState, log: seq<Event>, aborted: bool): AgentState {
    Finally(ReduceAll(Begun(st), log), aborted)
  }

  // ----- prompt() and continue() -----

  const BUSY_PROMPT := "Agent is already processing a prompt. "
                     + "Use steer() or followUp() to queue messages, or wait for completion."
  const BUSY_CONTINUE := "Agent is already processing. Wait for completion before continuing."

  /** What a call to prompt() or continue() leads to: an exception, with what had
      been taken from the queues by then, or a run. */
  datatype Entrance =
    | Rejected(error: string, lost: seq<Message>, world: World)
    | Enters(prompts: seq<Message>, fromQueue: seq<Message>, skipInitialPoll: bool, world: World)

  /** prompt(messages) */
  function EnterPrompt(st: AgentState, hasModel: bool, w: World, messages: seq<Message>): Entrance {
    if st.isStreaming then Rejected(BUSY_PROMPT, [], w)
    else if !hasModel then Rejected("No model configured", [], w)
    else Enters(messages, [], false, w)
  }

  /** continue(); the queues are read before _runLoop looks at the model. */
  function EnterContinue(st: AgentState, hasModel: bool, w: World): Entrance {
    if st.isStreaming then Rejected(BUSY_CONTINUE, [], w)
    else if st.messages == [] then Rejected("No messages to continue from", [], w)
    else if st.messages[|st.messages| - 1].Assistant? then EnterFromQueues(hasModel, w)
    else Launch([], false, hasModel, w)
  }

  /** continue() after a reply: steering messages first, then follow-ups. */
  function EnterFromQueues(hasModel: bool, w: World): Entrance {
    var steering, w1 := Answer(w, Steering), AfterPoll(w, Steering);
    if steering != [] then Launch(steering, true, hasModel, w1)
    else
      var followUps, w2 := Answer(w1, FollowUps), AfterPoll(w1, FollowUps);
      if followUps != [] then Launch(followUps, false, hasModel, w2)
      else Rejected("Cannot continue from message role: assistant", [], w2)
  }

  /** The guard at the top of _runLoop. */
  function Launch(fromQueue: seq<Message>, skip: bool, hasModel: bool, w: World): Entrance {
    if hasModel then Enters(fromQueue, fromQueue, skip, w) else Rejected("No model configured", fromQueue, w)
  }

  // ----- A session: any interleaving of calls on one Agent -----

  /** A run in progress: the state it started from, its prompts, those of them that
      came from a queue, and the run itself. */
  datatype Live = Live(start: AgentState, prompts: seq<Message>, fromQueue: seq<Message>, run: Run)

  /** History: finished runs, and calls that threw holding queued messages. */
  datatype Record = Ran(live: Live) | Refused(lost: seq<Message>)

  datatype Session = Session(cfg: Config, state: AgentState, hasModel: bool, world: World, live: Option<Live>,
                             history: seq<Record>)

  datatype Input =
    | Queue(action: Action)
    | SetModel(present: bool)
    | SetMessages(messages: seq<Message>)
    | Prompt(messages: seq<Message>)
    | Continue
    | NextTurn(turn: TurnInput, aborted: bool)

  /** The queues, wherever they are being worked on. */
  function Now(x: Session): World { if x.live.Some? then x.live.value.run.world else x.world }

  /** The Agent's state as its listeners see it between two turns. */
  function State(x: Session): AgentState {
    if x.live.Some? then ReduceAll(Begun(x.live.value.start), x.live.value.run.log).state else x.state
  }

  /** A run that is over hands back the Agent. */
  function Proceed(x: Session, l: Live, aborted: bool): Session {
    if l.run.status.Active? then x.(live := Some(l))
    else x.(live := None, state := AfterRun(l.start, l.run.log, aborted), world := l.run.world,
            history := x.history + [Ran(l)])
  }

  /** The first poll of a run: prompt() and continue() get to it without awaiting
      anything, so nobody works on the queues before it, and the Agent's own callback
      does not throw. */
  const AT_ONCE := PollPoint([], None)

  /** How the Agent starts a run. */
  function SetupOf(cfg: Config, w: World, context: seq<Message>, prompts: seq<Message>, skip: bool): Setup {
    Setup(cfg, w, context, prompts, if skip then None else Some(AT_ONCE))
  }

  function Enter(x: Session, e: Entrance): Session {
    match e
    case Rejected(_, lost, w) =>
      if x.live.Some? then x else x.(world := w, history := x.history + [Refused(lost)])
    case Enters(prompts, fromQueue, skip, w) =>
      var u := SetupOf(x.cfg, w, x.state.messages, prompts, skip);
      Proceed(x, Live(x.state, prompts, fromQueue, Begin(u)), false)
  }

  function Step(x: Session, i: Input): Session {
    match i
    case Queue(a) =>
      if x.live.Some? then
        var l := x.live.value;
        x.(live := Some(l.(run := l.run.(world := Act(l.run.world, a)))))
      else x.(world := Act(x.world, a))
    case SetModel(present) => x.(hasModel := present)
    case SetMessages(ms) => if x.live.Some? then x else x.(state := x.state.(messages := ms))
    case Prompt(ms) => Enter(x, EnterPrompt(State(x), x.hasModel, Now(x), ms))
    case Continue => Enter(x, EnterContinue(State(x), x.hasModel, Now(x)))
    case NextTurn(t, aborted) =>
      if x.live.None? then x
      else
        var l := x.live.value;
        Proceed(x, l.(run := Pass(x.cfg, l.run, t)), aborted)
  }

  function StepAll(x: Session, inputs: seq<Input>): Session
    decreases |inputs|
  {
    if inputs == [] then x else StepAll(Step(x, inputs[0]), inputs[1..])
  }

  const IDLE_STATE := AgentState([], false, None, {}, None)

  function NewSession(cfg: Config, steeringMode: Mode, followUpMode: Mode): Session {
    Session(cfg, IDLE_STATE, true, Empty(steeringMode, followUpMode), None, [])
  }
}
