/** Where the queue operations of a session come from: its own inputs, and what other
    code does while a poll is awaited (packages/pi-agent-core/src/agent.ts:291-360). */
module QueueHistory {
  import opened Messages
  import opened Queues
  import opened ReplyStream
  import opened ToolPhase
  import opened AgentLoop
  import opened Agent

  /** The queues went from `w` to `w'`: the operations performed in between come after
      the earlier ones, and all are from `allowed`. */
  ghost predicate ActsIn(w: World, w': World, allowed: iset<Action>) {
    && w.acts <= w'.acts
    && forall k :: |w.acts| <= k < |w'.acts| ==> w'.acts[k] in allowed
  }

  lemma ActsThen(a: World, b: World, c: World, allowed: iset<Action>)
    requires ActsIn(a, b, allowed) && ActsIn(b, c, allowed)
    ensures ActsIn(a, c, allowed)
  {
    forall k | |a.acts| <= k < |c.acts| ensures c.acts[k] in allowed {
      if k < |b.acts| { assert c.acts[k] == b.acts[k]; }
    }
  }

  lemma SameActs(a: World, b: World, allowed: iset<Action>)
    requires a.acts == b.acts
    ensures ActsIn(a, b, allowed)
  {
  }

  lemma {:induction false} ActAllActs(w: World, actions: seq<Action>)
    ensures ActAll(w, actions).acts == w.acts + actions
    decreases |actions|
  {
    hide ApplyAll;
    if actions != [] { ActAllActs(Act(w, actions[0]), actions[1..]); }
  }

  lemma PollActs(w: World, from: Which, p: PollPoint, allowed: iset<Action>)
    requires forall a :: a in p.before ==> a in allowed
    ensures ActsIn(w, AwaitPoll(w, from, p).world, allowed)
  {
    hide ActAll, Apply;
    ActAllActs(w, p.before);
    var w' := AwaitPoll(w, from, p).world;
    assert w'.acts == w.acts + p.before;
    forall k | |w.acts| <= k < |w'.acts| ensures w'.acts[k] in allowed {
      assert w'.acts[k] == p.before[k - |w.acts|];
    }
  }

  /** What other code does while the polls of a tool phase are awaited. */
  ghost function PhaseActions(inp: PhaseInput): iset<Action> {
    iset a | (exists k: nat :: a in inp.calls(k).poll.before) || a in inp.last.before
  }

  ghost function TurnActions(t: TurnInput): iset<Action> {
    PhaseActions(t.tools) + (iset a | a in t.after.before || a in t.followUp.before)
  }

  /** What other code does while the polls of one input are awaited. */
  ghost function PollActions(i: Input): iset<Action> {
    match i
    case NextTurn(t, _) => TurnActions(t)
    case _ => iset{}
  }

  lemma {:induction false} SequentialActs(cfg: Config, calls: seq<Call>, inp: nat -> CallInput, i: nat, w: World,
                                          allowed: iset<Action>)
    requires i <= |calls| && forall k: nat :: forall a :: a in inp(k).poll.before ==> a in allowed
    ensures ActsIn(w, Sequential(cfg, calls, inp, i, w).world, allowed)
    decreases |calls| - i
  {
    hide AwaitPoll, OutcomeOf, Emit, Updates, Skips, SkipEvents, ActsIn;
    SameActs(w, w, allowed);
    if i < |calls| {
      PollActs(w, Steering, inp(i).poll, allowed);
      var w' := AwaitPoll(w, Steering, inp(i).poll).world;
      SequentialActs(cfg, calls, inp, i + 1, w', allowed);
      ActsThen(w, w', Sequential(cfg, calls, inp, i + 1, w').world, allowed);
    }
  }

  lemma {:induction false} PrepareActs(cfg: Config, calls: seq<Call>, inp: nat -> CallInput, i: nat, w: World,
                                       allowed: iset<Action>)
    requires i <= |calls| && forall k: nat :: forall a :: a in inp(k).poll.before ==> a in allowed
    ensures ActsIn(w, PrepareAll(cfg, calls, inp, i, w).world, allowed)
    decreases |calls| - i
  {
    hide AwaitPoll, Prepare, Emit, ActsIn;
    SameActs(w, w, allowed);
    if i < |calls| {
      PollActs(w, Steering, inp(i).poll, allowed);
      var w' := AwaitPoll(w, Steering, inp(i).poll).world;
      PrepareActs(cfg, calls, inp, i + 1, w', allowed);
      ActsThen(w, w', PrepareAll(cfg, calls, inp, i + 1, w').world, allowed);
    }
  }

  lemma PhaseActs(cfg: Config, calls: seq<Call>, inp: PhaseInput, w: World)
    ensures ActsIn(w, Execute(cfg, calls, inp, w).world, PhaseActions(inp))
  {
    hide AwaitPoll, Sequential, PrepareAll, RunAll, ActsIn, SkipEvents;
    var allowed := PhaseActions(inp);
    if cfg.mode.Sequentially? {
      SequentialActs(cfg, calls, inp.calls, 0, w, allowed);
    } else {
      PrepareActs(cfg, calls, inp.calls, 0, w, allowed);
      var prep := PrepareAll(cfg, calls, inp.calls, 0, w);
      PollActs(prep.world, Steering, inp.last, allowed);
      ActsThen(w, prep.world, AwaitPoll(prep.world, Steering, inp.last).world, allowed);
    }
  }

  lemma PollNextActs(s: Run, calls: bool, steering: seq<Message>, t: TurnInput)
    ensures ActsIn(s.world, PollNext(s, calls, steering, t).world, TurnActions(t))
  {
    hide AwaitPoll, ActsIn;
    var allowed := TurnActions(t);
    SameActs(s.world, s.world, allowed);
    PollActs(s.world, Steering, t.after, allowed);
    var w := AwaitPoll(s.world, Steering, t.after).world;
    PollActs(w, FollowUps, t.followUp, allowed);
    ActsThen(s.world, w, AwaitPoll(w, FollowUps, t.followUp).world, allowed);
  }

  lemma PassActs(cfg: Config, s: Run, t: TurnInput)
    ensures ActsIn(s.world, Pass(cfg, s, t).world, TurnActions(t))
  {
    hide PollNext, Execute, StreamReply, ActsIn, Events.Pairs, PhaseActions;
    var asked, r := Ask(Inject(s), s.pending, t.provider), StreamReply(t.provider).reply;
    SameActs(s.world, asked.world, TurnActions(t));
    if !StopsRun(r) {
      var calls := Calls(r.content);
      if calls == [] {
        PollNextActs(asked.(log := asked.log + [TurnEnd(r, [])]), false, [], t);
      } else {
        var phase := Execute(cfg, calls, t.tools, asked.world);
        PhaseActs(cfg, calls, t.tools, asked.world);
        MoreAllowed(asked.world, phase.world, PhaseActions(t.tools), TurnActions(t));
        if phase.ending.Completed? {
          var s' := RunTools(asked, phase, r);
          PollNextActs(s', true, phase.ending.steering, t);
          ActsThen(asked.world, phase.world, PollNext(s', true, phase.ending.steering, t).world, TurnActions(t));
        }
      }
    }
  }

  lemma MoreAllowed(a: World, b: World, some: iset<Action>, more: iset<Action>)
    requires ActsIn(a, b, some) && some <= more
    ensures ActsIn(a, b, more)
  {
  }

  lemma BeginActs(u: Setup)
    ensures ActsIn(u.world, Begin(u).world,
                   if u.initial.Some? then iset a | a in u.initial.value.before else iset{})
  {
    hide AwaitPoll, ActsIn, Events.Pairs;
    if u.initial.Some? {
      PollActs(u.world, Steering, u.initial.value, iset a | a in u.initial.value.before);
    } else {
      SameActs(u.world, u.world, iset{});
    }
  }

  lemma EntranceActs(st: AgentState, hasModel: bool, w: World, messages: seq<Message>)
    ensures EnterPrompt(st, hasModel, w, messages).world.acts == w.acts
    ensures EnterContinue(st, hasModel, w).world.acts == w.acts
  {
    hide Answer, Apply;
  }

  lemma EnterActs(x: Session, e: Entrance)
    requires e.world.acts == Now(x).acts
    ensures ActsIn(Now(x), Now(Enter(x, e)), iset{})
  {
    hide Begin, ActsIn, AfterRun;
    SameActs(Now(x), e.world, iset{});
    SameActs(Now(x), Now(x), iset{});
    if e.Enters? {
      var u := SetupOf(x.cfg, e.world, x.state.messages, e.prompts, e.skipInitialPoll);
      BeginActs(u);
      MoreAllowed(u.world, Begin(u).world, if u.initial.Some? then iset a | a in u.initial.value.before else iset{},
                  iset{});
      ActsThen(Now(x), e.world, Begin(u).world, iset{});
    }
  }

  /** The operations performed on the queues during one input: exactly the operation of a
      Queue input; nothing for a change of model or messages, or a call that starts a run;
      and in a turn operations that other code performed while a poll of it was awaited. */
  lemma StepActs(x: Session, i: Input)
    ensures i.Queue? ==> Now(Step(x, i)).acts == Now(x).acts + [i.action]
    ensures !i.Queue? ==> ActsIn(Now(x), Now(Step(x, i)), PollActions(i))
  {
    hide Pass, Enter, EnterPrompt, EnterContinue, ActsIn, TurnActions, ReduceAll, AfterRun;
    match i
    case Queue(a) =>
    case SetModel(_) => SameActs(Now(x), Now(Step(x, i)), PollActions(i));
    case SetMessages(_) => SameActs(Now(x), Now(Step(x, i)), PollActions(i));
    case Prompt(ms) =>
      EntranceActs(State(x), x.hasModel, Now(x), ms);
      EnterActs(x, EnterPrompt(State(x), x.hasModel, Now(x), ms));
    case Continue =>
      EntranceActs(State(x), x.hasModel, Now(x), []);
      EnterActs(x, EnterContinue(State(x), x.hasModel, Now(x)));
    case NextTurn(t, aborted) =>
      if x.live.Some? {
        PassActs(x.cfg, x.live.value.run, t);
      } else {
        SameActs(Now(x), Now(x), PollActions(i));
      }
  }

  /** The operations a session performs on the queues itself. */
  function QueueInputs(inputs: seq<Input>): seq<Action> {
    if inputs == [] then []
    else (if inputs[0].Queue? then [inputs[0].action] else []) + QueueInputs(inputs[1..])
  }

  /** Nobody works on the queues while a poll of this input is awaited. */
  ghost predicate Undisturbed(i: Input) { PollActions(i) == iset{} }

  lemma OwnActs(x: Session, i: Input)
    requires Undisturbed(i)
    ensures Now(Step(x, i)).acts == Now(x).acts + QueueInputs([i])
  {
    hide Step, Now, ActsIn;
    StepActs(x, i);
    assert [i][1..] == [];
    if !i.Queue? { NoneAllowed(Now(x), Now(Step(x, i)), PollActions(i)); }
  }

  lemma QueueInputsSplit(i: Input, rest: seq<Input>)
    ensures QueueInputs([i] + rest) == QueueInputs([i]) + QueueInputs(rest)
  {
    assert ([i] + rest)[1..] == rest && [i][1..] == [];
  }

  /** When nobody works on the queues while a poll is awaited, the operations performed
      are exactly the session's own, in order. */
  lemma {:induction false} HistoryIs(x: Session, inputs: seq<Input>)
    requires forall i :: i in inputs ==> Undisturbed(i)
    ensures Now(StepAll(x, inputs)).acts == Now(x).acts + QueueInputs(inputs)
    decreases |inputs|
  {
    hide Step, Now, Undisturbed, QueueInputs;
    if inputs == [] {
      assert QueueInputs(inputs) == [] by { NoInputs(); }
    } else {
      assert inputs[0] in inputs;
      OwnActs(x, inputs[0]);
      HistoryIs(Step(x, inputs[0]), inputs[1..]);
      QueueInputsSplit(inputs[0], inputs[1..]);
      assert inputs == [inputs[0]] + inputs[1..];
    }
  }

  lemma NoInputs()
    ensures QueueInputs([]) == []
  {
  }

  lemma NoneAllowed(a: World, b: World, allowed: iset<Action>)
    requires ActsIn(a, b, allowed) && allowed == iset{}
    ensures b.acts == a.acts
  {
    hide ActsIn;
    ActsGrow(a, b, allowed);
    if |a.acts| < |b.acts| { SomeAllowed(a, b, allowed); }
  }

  lemma ActsGrow(a: World, b: World, allowed: iset<Action>)
    requires ActsIn(a, b, allowed)
    ensures a.acts <= b.acts
  {
  }

  lemma SomeAllowed(a: World, b: World, allowed: iset<Action>)
    requires ActsIn(a, b, allowed) && |a.acts| < |b.acts|
    ensures allowed != iset{}
  {
    assert b.acts[|a.acts|] in allowed;
  }
}
