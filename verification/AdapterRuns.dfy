/** Agent runs whose replies all come from the adapter: the two sets of proofs
    composed. */
module AdapterRuns {
  import opened Messages
  import opened Events
  import opened Queues
  import opened ReplyStream
  import opened ToolPhase
  import opened AgentLoop
  import opened AgentLoopTheorems
  import opened AgentLogTheorems
  import opened ConversationTheorems
  import Adapter

  /** Every reply comes from a finished request of the adapter. */
  ghost predicate AdapterProvides(o: nat -> TurnInput) {
    forall k :: FromAdapter(o(k).provider)
  }

  ghost predicate FromAdapter(p: Provider) {
    exists a: Adapter.Adapter :: Adapter.Grammatical(a) && a.done && p == Adapter.ProviderOf(a)
  }

  predicate PlainText(p: Provider) {
    Conforming(p) && Calls(p.final.content) == []
  }

  lemma FromAdapterIsPlain(p: Provider)
    requires FromAdapter(p)
    ensures PlainText(p) && Calls(StreamReply(p).reply.content) == []
  {
    var a: Adapter.Adapter :| Adapter.Grammatical(a) && a.done && p == Adapter.ProviderOf(a);
    Adapter.AdapterConforms(a);
    ConformingReply(p, p.events, Streaming([], []));
  }

  lemma {:induction false} ConformingReply(p: Provider, evs: seq<ProviderEvent>, st: Streaming)
    ensures var r := Consume(p, evs, st).reply; r == p.final || Calls(r.content) == []
    decreases |evs|
  {
    if evs != [] && !evs[0].Finished? { ConformingReply(p, evs[1..], StreamStep(st, evs[0])); }
  }

  /** How many polls returned something. */
  function Fruitful(polls: seq<Poll>): nat {
    if polls == [] then 0 else (if polls[0].got != [] then 1 else 0) + Fruitful(polls[1..])
  }

  lemma {:induction false} FruitfulSplit(a: seq<Poll>, b: seq<Poll>)
    ensures Fruitful(a + b) == Fruitful(a) + Fruitful(b)
  {
    if a == [] {
      assert a + b == b;
    } else {
      assert (a + b)[1..] == a[1..] + b;
      FruitfulSplit(a[1..], b);
    }
  }

  lemma {:induction false} AllFruitless(polls: seq<Poll>)
    requires forall k :: 0 <= k < |polls| ==> polls[k].got == []
    ensures Fruitful(polls) == 0
  {
    if polls != [] { AllFruitless(polls[1..]); }
  }

  /** A pass polls until something comes, so it adds one fruitful poll or none. */
  lemma OneFruitful(a: seq<Poll>, b: seq<Poll>, calls: bool, next: seq<Message>)
    requires PollDiscipline(a, b, calls, next)
    ensures Fruitful(b) == Fruitful(a) + (if next != [] then 1 else 0)
  {
    if |b| > |a| {
      var mid := b[|a|..|b| - 1];
      assert b == a + (mid + [b[|b| - 1]]);
      FruitfulSplit(a, mid + [b[|b| - 1]]);
      FruitfulSplit(mid, [b[|b| - 1]]);
      assert [b[|b| - 1]][1..] == [];
      AllFruitless(mid);
    } else {
      assert b == a;
    }
  }

  /** Turns so far, against the polls made after turns. */
  predicate OneTurnPerPoll(start: nat, s: Run) {
    && (s.turns == [] ==> s.status.Done? || Fruitful(s.world.polls) == start)
    && (s.turns != [] ==>
          |s.turns| + (if s.pending != [] then 1 else 0) == 1 + Fruitful(s.world.polls) - start)
    && !ToolPhaseThrew(s)
    && CallsMade(s.turns) == []
    && (forall k :: 0 <= k < |s.turns| ==> PlainText(s.turns[k].provider))
  }

  /** Fruitful polls made before the first turn. */
  function StartCount(u: Setup): nat { Fruitful(Begin(u).world.polls) }

  lemma PlainAfterReply(cfg: Config, s: Run, r: Reply, t: TurnInput)
    requires s.turns != [] && s.status.Active? && Calls(r.content) == []
    ensures var s' := AfterReply(cfg, s, r, t); s'.turns == s.turns && !ToolPhaseThrew(s')
  {
    hide PollNext;
    PollNextKeeps(s.(log := s.log + [TurnEnd(r, [])]), false, [], t);
  }

  lemma PlainPass(cfg: Config, s: Run, t: TurnInput)
    requires s.status.Active? && Calls(StreamReply(t.provider).reply.content) == []
    ensures var s' := Pass(cfg, s, t);
            && s'.turns == s.turns + [Turn(s.pending, t.provider, StreamReply(t.provider).reply, [])]
            && !ToolPhaseThrew(s')
  {
    hide AfterReply, StreamReply;
    var asked := Ask(Inject(s), s.pending, t.provider);
    var r := StreamReply(t.provider).reply;
    if !StopsRun(r) { PlainAfterReply(cfg, asked, r, t); }
  }

  lemma PlainTurn(turns: seq<Turn>, t: Turn)
    requires CallsMade(turns) == [] && Calls(t.reply.content) == []
    ensures CallsMade(turns + [t]) == []
  {
    assert (turns + [t])[..|turns|] == turns;
  }

  lemma PassTurnPerPoll(cfg: Config, before: seq<Message>, start: nat, s: Run, t: TurnInput)
    requires NothingLost(before, s) && s.status.Active? && OneTurnPerPoll(start, s)
    requires s.turns != [] ==> s.pending != []
    requires PlainText(t.provider) && Calls(StreamReply(t.provider).reply.content) == []
    ensures var s' := Pass(cfg, s, t);
            OneTurnPerPoll(start, s') && s'.turns != [] && (s'.status.Active? ==> s'.pending != [])
  {
    hide Pass, StreamReply, NothingLost, PollDiscipline, Fruitful, CallsMade, PlainText;
    var s' := Pass(cfg, s, t);
    PassPolls(cfg, before, s, t);
    PlainPass(cfg, s, t);
    OneFruitful(s.world.polls, s'.world.polls, false, s'.pending);
    PlainTurn(s.turns, Turn(s.pending, t.provider, StreamReply(t.provider).reply, []));
    EndsEmpty(before, s');
  }

  lemma EndsEmpty(before: seq<Message>, s: Run)
    requires NothingLost(before, s)
    ensures s.status.Done? ==> s.pending == []
  {
  }

  lemma {:induction false} AdapterRunsHold(u: Setup, o: nat -> TurnInput, n: nat)
    requires WorldFaithful(u.world) && AdapterProvides(o)
    ensures var s := Reached(u, o, n);
            && OneTurnPerPoll(StartCount(u), s)
            && (n > 0 && s.status.Active? ==> s.turns != [])
            && (s.status.Active? && s.turns != [] ==> s.pending != [])
    decreases n
  {
    hide Pass, Begin, WorldFaithful, OneTurnPerPoll, FromAdapter, StartCount, NothingLost, PollDiscipline, Got,
         StreamReply,
         PlainText;
    if n == 0 {
      BeginPolls(u);
      BeginTurnPerPoll(u);
    } else {
      AdapterRunsHold(u, o, n - 1);
      ExactlyOnceDelivery(u, o, n - 1);
      var s := Reached(u, o, n - 1);
      if s.status.Active? {
        assert FromAdapter(o(n - 1).provider);
        FromAdapterIsPlain(o(n - 1).provider);
        PassTurnPerPoll(u.cfg, Got(u.world.polls), StartCount(u), s, o(n - 1));
      }
    }
  }

  lemma BeginTurnPerPoll(u: Setup)
    ensures OneTurnPerPoll(StartCount(u), Begin(u)) && Begin(u).turns == []
  {
    hide AwaitPoll, Fruitful;
  }

  /** An Agent run over the adapter: no tool is ever started, every log is kept in
      order, and the run has one turn, plus one for every poll made after a turn
      that returned something (counting the turn about to start). */
  lemma AdapterRunsAreSimple(u: Setup, o: nat -> TurnInput, n: nat)
    requires WorldFaithful(u.world) && AdapterProvides(o) && Reached(u, o, n).turns != []
    ensures var s := Reached(u, o, n);
            && StartedCalls(s.log) == [] && EndedCalls(s.log) == []
            && AllClosed(s.turns) && AllCommit(s.turns) && AllLeaveOne(s.turns)
            && |s.turns| + (if s.status.Active? then 1 else 0) == 1 + Fruitful(s.world.polls) - StartCount(u)
  {
    hide Reached, WorldFaithful, StartCount, Fruitful;
    AdapterRunsHold(u, o, n);
    ExactlyOnceDelivery(u, o, n);
    EndsEmpty(Got(u.world.polls), Reached(u, o, n));
    ToolLifecycle(u, o, n);
    NoCallsEnd(Reached(u, o, n));
    PlainProviders(Reached(u, o, n).turns);
  }

  lemma NoCallsEnd(s: Run)
    requires ToolsPaired(s.log, s.turns) && CallsMade(s.turns) == []
    ensures StartedCalls(s.log) == [] && EndedCalls(s.log) == []
  {
    assert |multiset(EndedCalls(s.log))| == 0;
  }

  lemma PlainProviders(turns: seq<Turn>)
    requires forall k :: 0 <= k < |turns| ==> PlainText(turns[k].provider)
    ensures AllClosed(turns) && AllCommit(turns) && AllLeaveOne(turns)
  {
    forall p | p in Providers(turns) ensures ClosesWhatItOpens(p) && Commits(p) && LeavesOneMessage(p) {
      var k :| 0 <= k < |turns| && Providers(turns)[k] == p;
      ConformingKeepsEveryLog(p);
    }
  }
}
