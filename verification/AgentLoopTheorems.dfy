/** What holds at every turn boundary of every run. */
module AgentLoopTheorems {
  import opened Messages
  import opened Queues
  import opened ReplyStream
  import opened ToolPhase
  import opened ToolPhaseFacts
  import opened ToolPhaseTheorems
  import opened AgentLoop

  // ----- Polls: exactly once, in order, with priority for steering -----

  function Injected(turns: seq<Turn>): seq<Message> {
    if turns == [] then [] else Injected(turns[..|turns| - 1]) + turns[|turns| - 1].injected
  }

  /** Everything polled since `before` was injected into a turn, once and in poll
      order, or is about to be. */
  predicate NothingLost(before: seq<Message>, s: Run) {
    && WorldFaithful(s.world)
    && Got(s.world.polls) == before + Injected(s.turns) + s.pending
    && (s.status.Done? ==> s.pending == [])
  }

  /** The polls a pass added to `a`, giving `b`, when its reply had calls or not:
      all but the last came back empty; a follow-up poll is the last one, comes
      right after an empty steering poll, and only when there were no calls. */
  predicate PollDiscipline(a: seq<Poll>, b: seq<Poll>, calls: bool, next: seq<Message>) {
    && |a| <= |b| && b[..|a|] == a
    && (forall k :: |a| <= k < |b| - 1 ==> b[k].got == [] && b[k].from.Steering?)
    && (if |b| == |a| then next == [] else next == b[|b| - 1].got)
    && (|b| > |a| && b[|b| - 1].from.FollowUps? ==> !calls && |b| - 1 > |a|)
  }

  lemma {:induction false} InjectedAppend(turns: seq<Turn>, t: Turn)
    ensures Injected(turns + [t]) == Injected(turns) + t.injected
  {
    assert (turns + [t])[..|turns|] == turns;
  }

  lemma CommittedInjected(turns: seq<Turn>, results: seq<Message>)
    requires turns != []
    ensures Injected(Committed(turns, results)) == Injected(turns)
  {
    InjectedAppend(turns[..|turns| - 1], turns[|turns| - 1].(results := results));
  }

  lemma PollNextDiscipline(a: seq<Poll>, s: Run, calls: bool, steering: seq<Message>, t: TurnInput)
    requires WorldFaithful(s.world) && s.pending == [] && s.status.Active?
    requires PolledOnly(a, s.world.polls, steering)
    requires steering != [] ==> calls
    ensures var r := PollNext(s, calls, steering, t);
            && WorldFaithful(r.world)
            && PollDiscipline(a, r.world.polls, calls, r.pending)
            && Got(r.world.polls) == Got(s.world.polls) + (if steering != [] then [] else r.pending)
            && (steering != [] ==> r.pending == steering)
            && (r.status.Done? ==> r.pending == [])
            && (r.status.Active? ==> calls || r.pending != [])
            && r.turns == s.turns && r.news == s.news && r.context == s.context
  {
    hide AwaitPoll, WorldFaithful, Got, PollFollowUp;
    if steering == [] {
      AwaitPollKeepsFaith(s.world, Steering, t.after);
      var first := AwaitPoll(s.world, Steering, t.after);
      if first.Heard? && first.got == [] && !calls { FollowUpDiscipline(a, s.(world := first.world), t); }
    }
  }

  lemma FollowUpDiscipline(a: seq<Poll>, s: Run, t: TurnInput)
    requires WorldFaithful(s.world) && s.pending == [] && s.status.Active?
    requires |a| < |s.world.polls| && PolledOnly(a, s.world.polls, [])
    ensures var r := PollFollowUp(s, t);
            && WorldFaithful(r.world)
            && PollDiscipline(a, r.world.polls, false, r.pending)
            && Got(r.world.polls) == Got(s.world.polls) + r.pending
            && (r.status.Done? <==> r.pending == [])
            && r.turns == s.turns && r.news == s.news && r.context == s.context
  {
    hide AwaitPoll, WorldFaithful, Got;
    AwaitPollKeepsFaith(s.world, FollowUps, t.followUp);
  }

  /** What AfterReply does to the queues and to the pending messages. */
  lemma AfterReplyPolls(cfg: Config, s: Run, r: Reply, t: TurnInput)
    requires WorldFaithful(s.world) && s.pending == [] && s.turns != [] && s.status.Active?
    ensures var s' := AfterReply(cfg, s, r, t);
            && WorldFaithful(s'.world)
            && PollDiscipline(s.world.polls, s'.world.polls, Calls(r.content) != [], s'.pending)
            && Got(s'.world.polls) == Got(s.world.polls) + s'.pending
            && (s'.status.Done? ==> s'.pending == [])
            && (s'.status.Active? ==> Calls(r.content) != [] || s'.pending != [])
            && s'.turns != [] && Injected(s'.turns) == Injected(s.turns)
  {
    hide AwaitPoll, WorldFaithful, Got, PollNext, Execute, Injected;
    var calls := Calls(r.content);
    if calls == [] {
      NoPolls(s.world);
      PollNextDiscipline(s.world.polls, s.(log := s.log + [TurnEnd(r, [])]), false, [], t);
    } else {
      PhaseShape(cfg, calls, t.tools, s.world);
      var phase := Execute(cfg, calls, t.tools, s.world);
      CommittedInjected(s.turns, phase.results);
      if phase.ending.Completed? {
        PollNextDiscipline(s.world.polls, RunTools(s, phase, r), true, phase.ending.steering, t);
      }
    }
  }

  /** One pass keeps every polled message and polls in the right order. */
  lemma PassPolls(cfg: Config, before: seq<Message>, s: Run, t: TurnInput)
    requires NothingLost(before, s) && s.status.Active?
    ensures var s', r := Pass(cfg, s, t), StreamReply(t.provider).reply;
            && NothingLost(before, s')
            && PollDiscipline(s.world.polls, s'.world.polls, Calls(r.content) != [], s'.pending)
            && (s'.status.Active? ==> Calls(r.content) != [] || s'.pending != [])
            && (StopsRun(r) ==> s'.world == s.world)
  {
    hide WorldFaithful, Got, AfterReply, StreamReply, Injected;
    var asked := Ask(Inject(s), s.pending, t.provider);
    var r := StreamReply(t.provider).reply;
    InjectedAppend(s.turns, Turn(s.pending, t.provider, r, []));
    if !StopsRun(r) { AfterReplyPolls(cfg, asked, r, t); }
  }

  lemma BeginPolls(u: Setup)
    requires WorldFaithful(u.world)
    ensures var s := Begin(u);
            NothingLost(Got(u.world.polls), s) && s.turns == []
            && PollDiscipline(u.world.polls, s.world.polls, true, s.pending)
  {
    hide AwaitPoll, WorldFaithful, Got;
    NoPolls(u.world);
    if u.initial.Some? { AwaitPollKeepsFaith(u.world, Steering, u.initial.value); }
  }

  /** Exactly-once delivery over a whole run: at every turn boundary, whatever
      happened to the queues meanwhile and however the run ended, each message a
      poll dequeued has been injected into one turn, in order, or is about to be
      injected; and each queue agrees with its ledger. */
  lemma {:induction false} ExactlyOnceDelivery(u: Setup, o: nat -> TurnInput, n: nat)
    requires WorldFaithful(u.world)
    ensures NothingLost(Got(u.world.polls), Reached(u, o, n))
    decreases n
  {
    hide NothingLost, Pass, Begin, WorldFaithful;
    if n == 0 {
      BeginPolls(u);
    } else {
      ExactlyOnceDelivery(u, o, n - 1);
      var s := Reached(u, o, n - 1);
      if s.status.Active? { PassPolls(u.cfg, Got(u.world.polls), s, o(n - 1)); }
    }
  }

  /** Steering has priority: every pass of every run polls follow-ups at most
      once, last, right after an empty steering poll and a reply without calls;
      and what it carries to the next turn is the answer of one poll. */
  lemma SteeringPriority(u: Setup, o: nat -> TurnInput, n: nat)
    requires WorldFaithful(u.world)
    requires Reached(u, o, n).status.Active?
    ensures var a, b := Reached(u, o, n),
                        Reached(u, o, n + 1);
            PollDiscipline(a.world.polls, b.world.polls,
                           Calls(StreamReply(o(n).provider).reply.content) != [], b.pending)
  {
    hide NothingLost, Pass, Begin, WorldFaithful;
    ExactlyOnceDelivery(u, o, n);
    PassPolls(u.cfg, Got(u.world.polls), Reached(u, o, n), o(n));
  }

  // ----- Turn bound and termination -----

  function ToolTurns(turns: seq<Turn>): nat {
    if turns == [] then 0
    else ToolTurns(turns[..|turns| - 1]) + (if Calls(turns[|turns| - 1].reply.content) != [] then 1 else 0)
  }

  predicate Bounded(s: Run) {
    |s.turns| <= (if s.status.Active? then 0 else 1) + ToolTurns(s.turns) + |Injected(s.turns)| + |s.pending|
  }

  lemma ToolTurnsAppend(turns: seq<Turn>, t: Turn)
    ensures ToolTurns(turns + [t]) == ToolTurns(turns) + (if Calls(t.reply.content) != [] then 1 else 0)
  {
    assert (turns + [t])[..|turns|] == turns;
  }

  lemma CommittedToolTurns(turns: seq<Turn>, results: seq<Message>)
    requires turns != []
    ensures ToolTurns(Committed(turns, results)) == ToolTurns(turns)
    ensures |Committed(turns, results)| == |turns|
  {
    ToolTurnsAppend(turns[..|turns| - 1], turns[|turns| - 1].(results := results));
  }

  lemma AfterReplyTurns(cfg: Config, s: Run, r: Reply, t: TurnInput)
    requires s.turns != []
    ensures var s' := AfterReply(cfg, s, r, t);
            ToolTurns(s'.turns) == ToolTurns(s.turns) && |s'.turns| == |s.turns|
  {
    hide AwaitPoll, Execute, ToolTurns, Committed;
    if Calls(r.content) != [] {
      CommittedToolTurns(s.turns, Execute(cfg, Calls(r.content), t.tools, s.world).results);
    }
  }

  lemma PassBounded(cfg: Config, before: seq<Message>, s: Run, t: TurnInput)
    requires NothingLost(before, s) && s.status.Active? && Bounded(s)
    ensures Bounded(Pass(cfg, s, t)) && |Pass(cfg, s, t).turns| == |s.turns| + 1
  {
    hide WorldFaithful, Got, AfterReply, StreamReply, Injected, ToolTurns, NothingLost;
    var asked := Ask(Inject(s), s.pending, t.provider);
    var r := StreamReply(t.provider).reply;
    InjectedAppend(s.turns, Turn(s.pending, t.provider, r, []));
    ToolTurnsAppend(s.turns, Turn(s.pending, t.provider, r, []));
    PassPolls(cfg, before, s, t);
    if !StopsRun(r) {
      FaithOf(before, s);
      AfterReplyPolls(cfg, asked, r, t);
      AfterReplyTurns(cfg, asked, r, t);
    }
  }

  lemma FaithOf(before: seq<Message>, s: Run)
    requires NothingLost(before, s)
    ensures WorldFaithful(s.world)
  {
  }

  /** A run has at most one turn more than there were replies with tool calls and
      messages delivered from the queues. */
  lemma {:induction false} TurnBound(u: Setup, o: nat -> TurnInput, n: nat)
    requires WorldFaithful(u.world)
    ensures var s := Reached(u, o, n);
            && Bounded(s)
            && (s.status.Active? ==> |s.turns| == n)
            && |s.turns| <= 1 + ToolTurns(s.turns) + |Got(s.world.polls)| - |Got(u.world.polls)|
    decreases n
  {
    hide Pass, Begin, WorldFaithful, Bounded, NothingLost;
    if n == 0 {
      BeginPolls(u);
      NothingYet(Begin(u));
    } else {
      TurnBound(u, o, n - 1);
      ExactlyOnceDelivery(u, o, n - 1);
      var s := Reached(u, o, n - 1);
      if s.status.Active? { PassBounded(u.cfg, Got(u.world.polls), s, o(n - 1)); }
    }
    ExactlyOnceDelivery(u, o, n);
    BoundFromPolls(Got(u.world.polls), Reached(u, o, n));
  }

  lemma NothingYet(s: Run)
    requires s.turns == []
    ensures Bounded(s)
  {
  }

  lemma BoundFromPolls(before: seq<Message>, s: Run)
    requires NothingLost(before, s) && Bounded(s)
    ensures |s.turns| <= 1 + ToolTurns(s.turns) + |Got(s.world.polls)| - |before|
  {
  }

  /** Everything ever enqueued in either queue. */
  function EverEnqueued(w: World): nat {
    |w.steering.ledger| + |w.followUp.ledger|
  }

  /** Along the run, tool-call replies and enqueued messages stay below `budget`. */
  ghost predicate FiniteInput(u: Setup, o: nat -> TurnInput, budget: nat) {
    forall n :: ToolTurns(Reached(u, o, n).turns) + EverEnqueued(Reached(u, o, n).world) <= budget
  }

  lemma {:induction false} GotSplits(polls: seq<Poll>)
    ensures |Got(polls)| == |GotFrom(polls, Steering)| + |GotFrom(polls, FollowUps)|
  {
    if polls != [] { GotSplits(polls[1..]); }
  }

  lemma DeliveredAtMostEnqueued(w: World)
    requires WorldFaithful(w)
    ensures |Got(w.polls)| <= EverEnqueued(w)
  {
    GotSplits(w.polls);
    FatesPartition(w.steering.ledger);
    FatesPartition(w.followUp.ledger);
  }

  /** Termination: if tool-call replies and enqueued messages are finite, every
      run ends, within one pass more than their number. */
  lemma RunTerminates(u: Setup, o: nat -> TurnInput, budget: nat)
    requires WorldFaithful(u.world) && FiniteInput(u, o, budget)
    ensures Reached(u, o, budget + 2).status.Done?
  {
    var s := Reached(u, o, budget + 2);
    TurnBound(u, o, budget + 2);
    ExactlyOnceDelivery(u, o, budget + 2);
    FaithOf(Got(u.world.polls), s);
    DeliveredAtMostEnqueued(s.world);
  }

  /** `ms` is nothing, or the answer of a single poll. */
  predicate FromOnePoll(polls: seq<Poll>, ms: seq<Message>) {
    ms == [] || exists p :: p in polls && p.got == ms
  }

  predicate OnePollEach(s: Run) {
    && (forall t :: t in s.turns ==> FromOnePoll(s.world.polls, t.injected))
    && FromOnePoll(s.world.polls, s.pending)
  }

  lemma MorePolls(a: seq<Poll>, b: seq<Poll>, calls: bool, next: seq<Message>, ms: seq<Message>)
    requires PollDiscipline(a, b, calls, next)
    ensures FromOnePoll(a, ms) ==> FromOnePoll(b, ms)
    ensures FromOnePoll(b, next)
  {
    if ms != [] && FromOnePoll(a, ms) {
      var p :| p in a && p.got == ms;
      assert p in b[..|a|];
    }
    if next != [] { assert b[|b| - 1] in b; }
  }

  lemma PollNextTurns(s: Run, calls: bool, steering: seq<Message>, t: TurnInput)
    ensures PollNext(s, calls, steering, t).turns == s.turns
  {
    hide AwaitPoll;
  }

  lemma AfterReplyKeepsInjected(cfg: Config, s: Run, r: Reply, t: TurnInput)
    requires s.turns != []
    ensures var s' := AfterReply(cfg, s, r, t);
            |s'.turns| == |s.turns|
            && (forall k :: 0 <= k < |s.turns| ==> s'.turns[k].(results := []) == s.turns[k].(results := []))
            && (forall k :: 0 <= k < |s.turns| - 1 ==> s'.turns[k] == s.turns[k])
  {
    hide AwaitPoll, Execute, PollNext;
    if Calls(r.content) != [] {
      var phase := Execute(cfg, Calls(r.content), t.tools, s.world);
      if phase.ending.Completed? { PollNextTurns(RunTools(s, phase, r), true, phase.ending.steering, t); }
    } else {
      PollNextTurns(s.(log := s.log + [TurnEnd(r, [])]), false, [], t);
    }
  }

  lemma PassOnePollEach(cfg: Config, before: seq<Message>, s: Run, t: TurnInput)
    requires NothingLost(before, s) && s.status.Active? && OnePollEach(s)
    ensures OnePollEach(Pass(cfg, s, t))
  {
    hide WorldFaithful, Got, AfterReply, StreamReply, Injected, NothingLost, FromOnePoll, PollDiscipline;
    var asked := Ask(Inject(s), s.pending, t.provider);
    var r := StreamReply(t.provider).reply;
    var s' := Pass(cfg, s, t);
    PassPolls(cfg, before, s, t);
    if !StopsRun(r) { AfterReplyKeepsInjected(cfg, asked, r, t); }
    MorePolls(s.world.polls, s'.world.polls, Calls(r.content) != [], s'.pending, []);
    forall x | x in s'.turns ensures FromOnePoll(s'.world.polls, x.injected) {
      var k :| 0 <= k < |s'.turns| && s'.turns[k] == x;
      assert x.(results := []) == asked.turns[k].(results := []);
      MorePolls(s.world.polls, s'.world.polls, Calls(r.content) != [], s'.pending, x.injected);
      assert k < |s.turns| ==> s.turns[k] in s.turns && s.turns[k].injected == x.injected;
    }
  }

  lemma {:induction false} RunsInjectPolls(u: Setup, o: nat -> TurnInput, n: nat)
    requires WorldFaithful(u.world)
    ensures OnePollEach(Reached(u, o, n))
    decreases n
  {
    hide Pass, WorldFaithful, OnePollEach, NothingLost;
    if n == 0 {
      BeginPolls(u);
      BeginOnePoll(u);
    } else {
      RunsInjectPolls(u, o, n - 1);
      ExactlyOnceDelivery(u, o, n - 1);
      var s := Reached(u, o, n - 1);
      if s.status.Active? { PassOnePollEach(u.cfg, Got(u.world.polls), s, o(n - 1)); }
    }
  }

  lemma BeginOnePoll(u: Setup)
    requires WorldFaithful(u.world)
    ensures OnePollEach(Begin(u))
  {
    hide WorldFaithful, Begin;
    BeginPolls(u);
    MorePolls(u.world.polls, Begin(u).world.polls, true, Begin(u).pending, []);
  }

  /** In one-at-a-time mode the polls inject at most one queued message into any turn
      of a run.  Prompts that came from a queue are counted over sessions, by
      OneQueuedMessagePerTurn. */
  lemma OneMessagePerTurn(u: Setup, o: nat -> TurnInput, n: nat)
    requires WorldFaithful(u.world)
    requires forall p :: p in Reached(u, o, n).world.polls ==> p.mode.OneAtATime?
    ensures forall t :: t in Reached(u, o, n).turns ==> |t.injected| <= 1
  {
    hide Reached;
    RunsInjectPolls(u, o, n);
    ExactlyOnceDelivery(u, o, n);
  }
}
