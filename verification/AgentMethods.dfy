/** class Agent as imperative code: its mutable state, the event-reading loop of
    _runLoop, prompt() and continue(). */
module AgentMethods {
  import opened Messages
  import opened Queues
  import opened ToolPhase
  import opened AgentLoop
  import opened AgentLoopTheorems
  import opened AgentLoopMethods
  import opened Agent

  /** One run: what drives it, for how many passes it is watched, and whether it was
      aborted. */
  datatype Drive = Drive(turns: nat -> TurnInput, limit: nat, aborted: bool)

  class AgentObject {
    const cfg: Config
    const queues: MessageQueues
    var hasModel: bool
    var messages: seq<Message>
    var isStreaming: bool
    var streamMessage: Option<Message>
    var pendingToolCalls: set<string>
    var error: Option<string>

    function State(): AgentState
      reads this
    {
      AgentState(messages, isStreaming, streamMessage, pendingToolCalls, error)
    }

    constructor (cfg: Config, queues: MessageQueues)
      ensures this.cfg == cfg && this.queues == queues && hasModel && State() == IDLE_STATE
    {
      this.cfg, this.queues, hasModel := cfg, queues, true;
      messages, isStreaming, streamMessage, pendingToolCalls, error := [], false, None, {}, None;
    }

    method AppendMessage(m: Message)
      modifies this`messages
      ensures messages == old(messages) + [m]
    {
      messages := messages + [m];
    }

    /** The for-await loop over a stretch of events, as they arrive: `from` is the local
        partial message before it. */
    method ReadEvents(log: seq<Event>, from: Option<Message>) returns (partial: Option<Message>)
      modifies this
      ensures Reading(State(), partial) == ReduceAll(Reading(old(State()), from), log)
      ensures hasModel == old(hasModel)
    {
      partial := from;
      for i := 0 to |log|
        invariant hasModel == old(hasModel)
        invariant ReduceAll(Reading(State(), partial), log[i..]) == ReduceAll(Reading(old(State()), from), log)
      {
        assert log[i..][0] == log[i] && log[i..][1..] == log[i + 1..];
        match log[i] {
          case MessageStart(m) => partial, streamMessage := Some(m), Some(m);
          case MessageUpdate(m) => partial, streamMessage := Some(m), Some(m);
          case MessageEnd(m) =>
            partial, streamMessage := None, None;
            AppendMessage(m);
          case ToolStart(c) => pendingToolCalls := pendingToolCalls + {c.id};
          case ToolEnd(c, _) => pendingToolCalls := pendingToolCalls - {c.id};
          case TurnEnd(reply, _) =>
            if reply.errorMessage.Some? && reply.errorMessage.value != "" { error := reply.errorMessage; }
          case AgentEnd(_) => isStreaming, streamMessage := false, None;
          case AgentStart =>
          case TurnStart =>
          case ToolUpdate(_, _) =>
        }
      }
    }

    /** The end of _runLoop: the message left open, the catch, `finally`. */
    method WindUp(partial: Option<Message>, aborted: bool)
      modifies this
      ensures State() == Finally(Reading(old(State()), partial), aborted) && hasModel == old(hasModel)
    {
      if partial.Some? && partial.value.Assistant? && |partial.value.reply.content| > 0 {
        var onlyEmpty := !Meaningful(partial.value.reply.content);
        if !onlyEmpty {
          AppendMessage(partial.value);
        } else if aborted {
          AppendMessage(Assistant(ABORTED_REQUEST));
          error := ABORTED_REQUEST.errorMessage;
        }
      }
      isStreaming, streamMessage, pendingToolCalls := false, None, {};
    }

    /** _runLoop, once it has a model: the Agent reads the events of the run, and winds up
        when the run has ended.  A run over finite input has, once the limit is above it. */
    method RunLoop(prompts: seq<Message>, skipInitialPoll: bool, d: Drive) returns (ended: bool, ghost passes: nat)
      requires queues.Valid()
      modifies this, queues
      ensures queues.Valid() && hasModel == old(hasModel)
      ensures var u := SetupOf(cfg, old(queues.world), old(messages), prompts, skipInitialPoll);
              LeftBy(old(State()), u, d, passes, ended)
    {
      hide Reached, FiniteInput, ReduceAll, Finally;
      ghost var u := SetupOf(cfg, queues.world, messages, prompts, skipInitialPoll);
      isStreaming, streamMessage, error := true, None, None;
      var run := new AgentRun(cfg, queues, messages);
      var result;
      ended, result, passes :=
        run.RunWithin(prompts, if skipInitialPoll then None else Some(AT_ONCE), d.turns, d.limit, u);
      var partial := ReadEvents(run.log, None);
      if ended { WindUp(partial, d.aborted); }
    }

    /** The Agent and its queues `passes` passes into the run from `u`: wound up if the
        run has ended, otherwise as reading its events so far leaves them. */
    ghost predicate LeftBy(before: AgentState, u: Setup, d: Drive, passes: nat, ended: bool)
      reads this, queues
    {
      var s := Reached(u, d.turns, passes);
      && queues.world == s.world && passes <= d.limit
      && (if ended then s.status.Done? && State() == AfterRun(before, s.log, d.aborted)
          else s.status.Active? && passes == d.limit && State() == ReduceAll(Begun(before), s.log).state)
      && (forall budget: nat :: FiniteInput(u, d.turns, budget) && budget + 2 <= d.limit ==> ended)
    }

    /** prompt(messages) */
    method Prompt(prompts: seq<Message>, d: Drive)
      returns (thrown: Option<string>, ended: bool, ghost passes: nat)
      requires queues.Valid()
      modifies this, queues
      ensures queues.Valid() && hasModel == old(hasModel)
      ensures Follows(EnterPrompt(old(State()), hasModel, old(queues.world), prompts), old(State()), d, passes, ended,
                      thrown)
    {
      hide FiniteInput, Reached, AfterRun;
      thrown, ended, passes := None, true, 0;
      if isStreaming {
        thrown := Some(BUSY_PROMPT);
      } else if !hasModel {
        thrown := Some("No model configured");
      } else {
        ended, passes := RunLoop(prompts, false, d);
      }
    }

    /** What a call that led to entrance `e` has done. */
    ghost predicate Follows(e: Entrance, before: AgentState, d: Drive, passes: nat, ended: bool,
                            thrown: Option<string>)
      reads this, queues
    {
      match e
      case Rejected(message, _, w) => thrown == Some(message) && State() == before && queues.world == w
      case Enters(prompts, _, skip, w) =>
        thrown == None && LeftBy(before, SetupOf(cfg, w, before.messages, prompts, skip), d, passes, ended)
    }

    /** continue() */
    method Continue(d: Drive) returns (thrown: Option<string>, ended: bool, ghost passes: nat)
      requires queues.Valid()
      modifies this, queues
      ensures queues.Valid() && hasModel == old(hasModel)
      ensures Follows(EnterContinue(old(State()), hasModel, old(queues.world)), old(State()), d, passes, ended, thrown)
    {
      hide FiniteInput, Reached, AfterRun, EnterFromQueues, Launch, LeftBy;
      thrown, ended, passes := None, true, 0;
      if isStreaming {
        thrown := Some(BUSY_CONTINUE);
        return;
      }
      if |messages| == 0 {
        thrown := Some("No messages to continue from");
        return;
      }
      if messages[|messages| - 1].Assistant? {
        thrown, ended, passes := ContinueFromQueues(d);
        return;
      }
      thrown, ended, passes := Start([], false, d);
    }

    /** continue() when the transcript ends in a reply. */
    method ContinueFromQueues(d: Drive) returns (thrown: Option<string>, ended: bool, ghost passes: nat)
      requires queues.Valid()
      modifies this, queues
      ensures queues.Valid() && hasModel == old(hasModel)
      ensures Follows(EnterFromQueues(hasModel, old(queues.world)), old(State()), d, passes, ended, thrown)
    {
      hide FiniteInput, Reached, AfterRun, Answer, AfterPoll, LeftBy;
      thrown, ended, passes := None, true, 0;
      var queuedSteering := queues.DequeueSteeringMessages();
      if |queuedSteering| > 0 {
        thrown, ended, passes := Start(queuedSteering, true, d);
        return;
      }
      var queuedFollowUp := queues.DequeueFollowUpMessages();
      if |queuedFollowUp| > 0 {
        thrown, ended, passes := Start(queuedFollowUp, false, d);
        return;
      }
      thrown := Some("Cannot continue from message role: assistant");
    }

    /** _runLoop with its guard. */
    method Start(fromQueue: seq<Message>, skip: bool, d: Drive)
      returns (thrown: Option<string>, ended: bool, ghost passes: nat)
      requires queues.Valid()
      modifies this, queues
      ensures queues.Valid() && hasModel == old(hasModel)
      ensures Follows(Launch(fromQueue, skip, hasModel, old(queues.world)), old(State()), d, passes, ended, thrown)
    {
      hide FiniteInput, Reached, AfterRun;
      thrown, ended, passes := None, true, 0;
      if !hasModel {
        thrown := Some("No model configured");
      } else {
        ended, passes := RunLoop(fromQueue, skip, d);
      }
    }
  }
}
