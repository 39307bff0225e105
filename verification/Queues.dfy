/** The two message queues of class Agent (agent.ts:110-360).

    A Lane is one queue with its delivery mode.  A Track adds history variables:
    the ledger of everything ever enqueued, in order, each entry with the one
    fate it has met, and the lists that left the queue each way.  Faithful says
    the slices and filters of the code agree with that ledger. */
module Queues {
  import opened Messages

  datatype Origin = ByUser | BySystem
  datatype Entry = Entry(message: Message, origin: Origin)
  datatype Mode = AllAtOnce | OneAtATime
  datatype Lane = Lane(entries: seq<Entry>, mode: Mode)

  function Texts(es: seq<Entry>): (ms: seq<Message>)
    ensures |ms| == |es|
    ensures forall i :: 0 <= i < |es| ==> ms[i] == es[i].message
  {
    if es == [] then [] else [es[0].message] + Texts(es[1..])
  }

  /** queue.filter(e => (e.origin === "user") == user) */
  function OfOrigin(es: seq<Entry>, user: bool): seq<Entry> {
    if es == [] then []
    else if es[0].origin.ByUser? == user then [es[0]] + OfOrigin(es[1..], user)
    else OfOrigin(es[1..], user)
  }

  /** dequeueSteeringMessages / dequeueFollowUpMessages: what is taken, what stays. */
  function Taken(l: Lane): seq<Entry> {
    if l.mode.OneAtATime? then (if |l.entries| > 0 then l.entries[..1] else []) else l.entries
  }

  function Left(l: Lane): Lane {
    l.(entries := l.entries[|Taken(l)|..])
  }

  // ----- The ledger -----

  datatype Fate = Waiting | Delivered | Drained | Cleared
  datatype Item = Item(entry: Entry, fate: Fate)

  function Pick(l: seq<Item>, f: Fate): seq<Entry> {
    if l == [] then []
    else if l[0].fate == f then [l[0].entry] + Pick(l[1..], f)
    else Pick(l[1..], f)
  }

  function Entries(l: seq<Item>): seq<Entry> {
    if l == [] then [] else [l[0].entry] + Entries(l[1..])
  }

  /** Every waiting entry whose origin is wanted meets fate `f`. */
  function Settle(l: seq<Item>, f: Fate, usersOnly: bool): seq<Item> {
    if l == [] then []
    else [if l[0].fate.Waiting? && (usersOnly ==> l[0].entry.origin.ByUser?)
          then l[0].(fate := f) else l[0]] + Settle(l[1..], f, usersOnly)
  }

  /** The oldest waiting entry is delivered. */
  function SettleFirst(l: seq<Item>): seq<Item> {
    if l == [] then []
    else if l[0].fate.Waiting? then [l[0].(fate := Delivered)] + l[1..]
    else [l[0]] + SettleFirst(l[1..])
  }

  /** Nothing that met fate `f` is younger than a waiting entry it could have
      overtaken. */
  predicate InOrder(l: seq<Item>, f: Fate) {
    l == []
    || ((l[0].fate.Waiting? && (f.Drained? ==> l[0].entry.origin.ByUser?) ==> Pick(l[1..], f) == [])
        && InOrder(l[1..], f))
  }

  datatype Track = Track(lane: Lane, ledger: seq<Item>, delivered: seq<Entry>,
                         drained: seq<Entry>, cleared: seq<Entry>)

  predicate Faithful(t: Track) {
    && t.lane.entries == Pick(t.ledger, Waiting)
    && t.delivered == Pick(t.ledger, Delivered)
    && t.drained == Pick(t.ledger, Drained)
    && t.cleared == Pick(t.ledger, Cleared)
    && InOrder(t.ledger, Delivered) && InOrder(t.ledger, Drained) && InOrder(t.ledger, Cleared)
  }

  datatype LaneOp = Enqueue(entry: Entry) | Take | Drain | Clear | SetMode(mode: Mode)

  /** One queue operation, as the code performs it on the queue, with the ledger
      updated from the operation's meaning alone. */
  function Apply(t: Track, op: LaneOp): Track {
    var q := t.lane.entries;
    match op
    case Enqueue(e) => t.(lane := t.lane.(entries := q + [e]), ledger := t.ledger + [Item(e, Waiting)])
    case Take => t.(lane := Left(t.lane), delivered := t.delivered + Taken(t.lane),
                    ledger := if t.lane.mode.OneAtATime? then SettleFirst(t.ledger)
                              else Settle(t.ledger, Delivered, false))
    case Drain => t.(lane := t.lane.(entries := OfOrigin(q, false)), drained := t.drained + OfOrigin(q, true),
                     ledger := Settle(t.ledger, Drained, true))
    case Clear => t.(lane := t.lane.(entries := []), cleared := t.cleared + q,
                     ledger := Settle(t.ledger, Cleared, false))
    case SetMode(m) => t.(lane := t.lane.(mode := m))
  }

  function ApplyAll(t: Track, ops: seq<LaneOp>): Track
    decreases |ops|
  {
    if ops == [] then t else ApplyAll(Apply(t, ops[0]), ops[1..])
  }

  function Enqueued(ops: seq<LaneOp>): seq<Entry> {
    if ops == [] then []
    else if ops[0].Enqueue? then [ops[0].entry] + Enqueued(ops[1..])
    else Enqueued(ops[1..])
  }

  function Fresh(m: Mode): Track { Track(Lane([], m), [], [], [], []) }

  // ----- Ledger lemmas -----

  lemma {:induction false} PickAppend(l: seq<Item>, x: Item, f: Fate)
    ensures Pick(l + [x], f) == Pick(l, f) + (if x.fate == f then [x.entry] else [])
    ensures Entries(l + [x]) == Entries(l) + [x.entry]
  {
    if l != [] {
      assert (l + [x])[1..] == l[1..] + [x];
      PickAppend(l[1..], x, f);
    }
  }

  lemma {:induction false} WaitingKeepsOrder(l: seq<Item>, e: Entry, f: Fate)
    requires InOrder(l, f) && !f.Waiting?
    ensures InOrder(l + [Item(e, Waiting)], f)
  {
    var x := Item(e, Waiting);
    if l != [] {
      assert (l + [x])[1..] == l[1..] + [x];
      PickAppend(l[1..], x, f);
      WaitingKeepsOrder(l[1..], e, f);
    }
  }

  /** Settling everything moves the whole queue, in order, behind the entries
      that met the same fate before. */
  lemma {:induction false} SettlePicks(l: seq<Item>, f: Fate)
    requires (f.Cleared? || f.Delivered?) && InOrder(l, f)
    ensures var r := Settle(l, f, false);
            && Pick(r, f) == Pick(l, f) + Pick(l, Waiting)
            && Pick(r, Waiting) == []
            && Entries(r) == Entries(l)
            && InOrder(r, f)
  {
    if l != [] { SettlePicks(l[1..], f); }
  }

  /** Draining moves exactly the user's waiting entries and leaves the others. */
  lemma {:induction false} DrainPicks(l: seq<Item>)
    requires InOrder(l, Drained)
    ensures var q, r := Pick(l, Waiting), Settle(l, Drained, true);
            && Pick(r, Drained) == Pick(l, Drained) + OfOrigin(q, true)
            && Pick(r, Waiting) == OfOrigin(q, false)
            && Entries(r) == Entries(l)
            && InOrder(r, Drained)
  {
    if l != [] {
      DrainPicks(l[1..]);
      var q, q1 := Pick(l, Waiting), Pick(l[1..], Waiting);
      assert if l[0].fate.Waiting? then q[1..] == q1 else q == q1;
    }
  }

  lemma {:induction false} SettleOthers(l: seq<Item>, f: Fate, users: bool, g: Fate)
    requires !f.Waiting? && !g.Waiting? && f != g && InOrder(l, g)
    ensures Pick(Settle(l, f, users), g) == Pick(l, g) && InOrder(Settle(l, f, users), g)
  {
    if l != [] { SettleOthers(l[1..], f, users, g); }
  }

  lemma {:induction false} SettleFirstPicks(l: seq<Item>)
    requires InOrder(l, Delivered)
    ensures var q, r := Pick(l, Waiting), SettleFirst(l);
            && Pick(r, Delivered) == Pick(l, Delivered) + (if q == [] then [] else q[..1])
            && Pick(r, Waiting) == (if q == [] then [] else q[1..])
            && Entries(r) == Entries(l)
            && InOrder(r, Delivered)
  {
    if l != [] && !l[0].fate.Waiting? { SettleFirstPicks(l[1..]); }
  }

  lemma {:induction false} SettleFirstOthers(l: seq<Item>, g: Fate)
    requires (g.Drained? || g.Cleared?) && InOrder(l, g)
    ensures Pick(SettleFirst(l), g) == Pick(l, g) && InOrder(SettleFirst(l), g)
  {
    if l != [] && !l[0].fate.Waiting? { SettleFirstOthers(l[1..], g); }
  }

  /** Each queue operation keeps the queue and the three ways out of it in step
      with the ledger, and forgets nothing that was ever enqueued. */
  lemma ApplyKeepsFaith(t: Track, op: LaneOp)
    requires Faithful(t)
    ensures Faithful(Apply(t, op))
    ensures Entries(Apply(t, op).ledger) == Entries(t.ledger) + Enqueued([op])
  {
    assert Enqueued([op]) == if op.Enqueue? then [op.entry] else [];
    match op
    case Enqueue(e) =>
      var x := Item(e, Waiting);
      PickAppend(t.ledger, x, Waiting);
      PickAppend(t.ledger, x, Delivered);
      PickAppend(t.ledger, x, Drained);
      PickAppend(t.ledger, x, Cleared);
      WaitingKeepsOrder(t.ledger, e, Delivered);
      WaitingKeepsOrder(t.ledger, e, Drained);
      WaitingKeepsOrder(t.ledger, e, Cleared);
    case Take =>
      if t.lane.mode.OneAtATime? {
        SettleFirstPicks(t.ledger);
        SettleFirstOthers(t.ledger, Drained);
        SettleFirstOthers(t.ledger, Cleared);
      } else {
        SettlePicks(t.ledger, Delivered);
        SettleOthers(t.ledger, Delivered, false, Drained);
        SettleOthers(t.ledger, Delivered, false, Cleared);
      }
    case Drain =>
      DrainPicks(t.ledger);
      SettleOthers(t.ledger, Drained, true, Delivered);
      SettleOthers(t.ledger, Drained, true, Cleared);
    case Clear =>
      SettlePicks(t.ledger, Cleared);
      SettleOthers(t.ledger, Cleared, false, Delivered);
      SettleOthers(t.ledger, Cleared, false, Drained);
    case SetMode(_) =>
  }

  /** For every history of operations on a queue: each message ever enqueued is
      in exactly one of waiting, delivered, drained or cleared, and each of the
      four lists is in enqueue order. */
  lemma {:induction false} ExactlyOneFate(t: Track, ops: seq<LaneOp>)
    requires Faithful(t)
    ensures var r := ApplyAll(t, ops);
            && Faithful(r)
            && Entries(r.ledger) == Entries(t.ledger) + Enqueued(ops)
    decreases |ops|
  {
    hide Faithful, Apply, Entries;
    if ops != [] {
      ApplyKeepsFaith(t, ops[0]);
      ExactlyOneFate(Apply(t, ops[0]), ops[1..]);
      assert Enqueued(ops) == Enqueued([ops[0]]) + Enqueued(ops[1..]);
    }
  }

  /** The four lists account for every ledger entry. */
  lemma {:induction false} FatesPartition(l: seq<Item>)
    ensures multiset(Entries(l)) == multiset(Pick(l, Waiting)) + multiset(Pick(l, Delivered))
                                    + multiset(Pick(l, Drained)) + multiset(Pick(l, Cleared))
    ensures |l| == |Pick(l, Waiting)| + |Pick(l, Delivered)| + |Pick(l, Drained)| + |Pick(l, Cleared)|
  {
    if l != [] { FatesPartition(l[1..]); }
  }

  /** First in, first out: nothing still waiting is older than something delivered. */
  lemma {:induction false} DeliveredBeforeWaiting(l: seq<Item>, i: nat, j: nat)
    requires InOrder(l, Delivered)
    requires i < j < |l| && l[i].fate.Waiting?
    ensures !l[j].fate.Delivered?
  {
    if i == 0 {
      if l[j].fate.Delivered? { PickNonempty(l[1..], j - 1); }
    } else {
      DeliveredBeforeWaiting(l[1..], i - 1, j - 1);
    }
  }

  lemma {:induction false} PickNonempty(l: seq<Item>, j: nat)
    requires j < |l|
    ensures Pick(l, l[j].fate) != []
  {
    if j > 0 { PickNonempty(l[1..], j - 1); }
  }

  // ----- Both queues -----

  datatype Which = Steering | FollowUps

  /** What the rest of the program may do to the queues between two polls. */
  datatype Action =
    | Steer(message: Message, origin: Origin)
    | FollowUp(message: Message, origin: Origin)
    | DrainUser | ClearSteering | ClearFollowUps | ClearAll
    | SetSteeringMode(mode: Mode) | SetFollowUpMode(mode: Mode)

  datatype Poll = Poll(from: Which, mode: Mode, got: seq<Message>)

  /** Both queues with their ledgers, every poll made and every action performed so
      far. */
  datatype World = World(steering: Track, followUp: Track, polls: seq<Poll>, acts: seq<Action>)

  function Both(w: World, s: seq<LaneOp>, f: seq<LaneOp>): World {
    w.(steering := ApplyAll(w.steering, s), followUp := ApplyAll(w.followUp, f))
  }

  function SteeringOps(a: Action): seq<LaneOp> {
    match a
    case Steer(m, o) => [Enqueue(Entry(m, o))]
    case DrainUser => [Drain]
    case ClearSteering => [Clear]
    case ClearAll => [Clear]
    case SetSteeringMode(m) => [SetMode(m)]
    case _ => []
  }

  function FollowUpOps(a: Action): seq<LaneOp> {
    match a
    case FollowUp(m, o) => [Enqueue(Entry(m, o))]
    case DrainUser => [Drain]
    case ClearFollowUps => [Clear]
    case ClearAll => [Clear]
    case SetFollowUpMode(m) => [SetMode(m)]
    case _ => []
  }

  function Act(w: World, a: Action): World {
    Both(w, SteeringOps(a), FollowUpOps(a)).(acts := w.acts + [a])
  }

  /** What the steer calls among these actions enqueued, in order. */
  function SteeredBy(acts: seq<Action>): seq<Entry> {
    if acts == [] then []
    else
      var last := acts[|acts| - 1];
      SteeredBy(acts[..|acts| - 1]) + (if last.Steer? then [Entry(last.message, last.origin)] else [])
  }

  /** What the followUp calls enqueued. */
  function FollowedUpBy(acts: seq<Action>): seq<Entry> {
    if acts == [] then []
    else
      var last := acts[|acts| - 1];
      FollowedUpBy(acts[..|acts| - 1]) + (if last.FollowUp? then [Entry(last.message, last.origin)] else [])
  }

  lemma EnqueuedByAct(acts: seq<Action>, a: Action)
    ensures SteeredBy(acts + [a]) == SteeredBy(acts) + Enqueued(SteeringOps(a))
    ensures FollowedUpBy(acts + [a]) == FollowedUpBy(acts) + Enqueued(FollowUpOps(a))
  {
    assert (acts + [a])[..|acts|] == acts;
    if SteeringOps(a) != [] { assert SteeringOps(a)[1..] == []; }
    if FollowUpOps(a) != [] { assert FollowUpOps(a)[1..] == []; }
  }

  function ActAll(w: World, actions: seq<Action>): World
    decreases |actions|
  {
    if actions == [] then w else ActAll(Act(w, actions[0]), actions[1..])
  }

  function LaneOf(w: World, from: Which): Lane {
    if from.Steering? then w.steering.lane else w.followUp.lane
  }

  /** The messages a poll of `from` returns now. */
  function Answer(w: World, from: Which): seq<Message> {
    Texts(Taken(LaneOf(w, from)))
  }

  /** One dequeueSteeringMessages or dequeueFollowUpMessages. */
  function AfterPoll(w: World, from: Which): World {
    var record := Poll(from, LaneOf(w, from).mode, Answer(w, from));
    if from.Steering? then w.(steering := Apply(w.steering, Take), polls := w.polls + [record])
    else w.(followUp := Apply(w.followUp, Take), polls := w.polls + [record])
  }

  function GotFrom(polls: seq<Poll>, from: Which): seq<Message> {
    if polls == [] then []
    else if polls[0].from == from then polls[0].got + GotFrom(polls[1..], from)
    else GotFrom(polls[1..], from)
  }

  /** Everything the polls returned, in poll order. */
  function Got(polls: seq<Poll>): seq<Message> {
    if polls == [] then [] else polls[0].got + Got(polls[1..])
  }

  predicate OneWhenOneAtATime(p: Poll) {
    p.mode.OneAtATime? ==> |p.got| <= 1
  }

  predicate WorldFaithful(w: World) {
    && Faithful(w.steering) && Faithful(w.followUp)
    && GotFrom(w.polls, Steering) == Texts(w.steering.delivered)
    && GotFrom(w.polls, FollowUps) == Texts(w.followUp.delivered)
    && Entries(w.steering.ledger) == SteeredBy(w.acts)
    && Entries(w.followUp.ledger) == FollowedUpBy(w.acts)
    && forall p :: p in w.polls ==> OneWhenOneAtATime(p)
  }

  function Empty(steeringMode: Mode, followUpMode: Mode): World {
    World(Fresh(steeringMode), Fresh(followUpMode), [], [])
  }

  lemma {:induction false} GotAppend(polls: seq<Poll>, p: Poll)
    ensures Got(polls + [p]) == Got(polls) + p.got
    ensures GotFrom(polls + [p], p.from) == GotFrom(polls, p.from) + p.got
    ensures forall from :: from != p.from ==> GotFrom(polls + [p], from) == GotFrom(polls, from)
  {
    if polls == [] {
      assert [p][1..] == [];
    } else {
      assert (polls + [p])[1..] == polls[1..] + [p];
      GotAppend(polls[1..], p);
    }
  }

  lemma ActKeepsFaith(w: World, a: Action)
    requires WorldFaithful(w)
    ensures WorldFaithful(Act(w, a)) && Act(w, a).polls == w.polls && Act(w, a).acts == w.acts + [a]
    ensures Act(w, a).steering.delivered == w.steering.delivered
    ensures Act(w, a).followUp.delivered == w.followUp.delivered
  {
    hide Faithful, ApplyAll, Enqueued, SteeredBy, FollowedUpBy;
    ExactlyOneFate(w.steering, SteeringOps(a));
    ExactlyOneFate(w.followUp, FollowUpOps(a));
    OneOp(w.steering, SteeringOps(a));
    OneOp(w.followUp, FollowUpOps(a));
    EnqueuedByAct(w.acts, a);
  }

  lemma OneOp(t: Track, ops: seq<LaneOp>)
    requires |ops| <= 1
    ensures ApplyAll(t, ops) == if ops == [] then t else Apply(t, ops[0])
  {
    if ops != [] { assert ApplyAll(Apply(t, ops[0]), ops[1..]) == Apply(t, ops[0]); }
  }

  lemma {:induction false} ActAllKeepsFaith(w: World, actions: seq<Action>)
    requires WorldFaithful(w)
    ensures WorldFaithful(ActAll(w, actions)) && ActAll(w, actions).polls == w.polls
    ensures ActAll(w, actions).acts == w.acts + actions
    decreases |actions|
  {
    if actions != [] {
      ActKeepsFaith(w, actions[0]);
      ActAllKeepsFaith(Act(w, actions[0]), actions[1..]);
    }
  }

  lemma PollKeepsFaith(w: World, from: Which)
    requires WorldFaithful(w)
    ensures WorldFaithful(AfterPoll(w, from))
    ensures Got(AfterPoll(w, from).polls) == Got(w.polls) + Answer(w, from)
  {
    GotAppend(w.polls, Poll(from, LaneOf(w, from).mode, Answer(w, from)));
    TakeKeepsFaith(if from.Steering? then w.steering else w.followUp);
  }

  lemma TakeKeepsFaith(t: Track)
    requires Faithful(t)
    ensures Faithful(Apply(t, Take))
    ensures Texts(Apply(t, Take).delivered) == Texts(t.delivered) + Texts(Taken(t.lane))
    ensures Entries(Apply(t, Take).ledger) == Entries(t.ledger)
  {
    ApplyKeepsFaith(t, Take);
  }

  /** One await of a config callback: what others do meanwhile, and whether the
      callback throws.  The Agent's own callbacks never throw. */
  datatype PollPoint = PollPoint(before: seq<Action>, throws: Option<string>)

  datatype Polled = Heard(got: seq<Message>, world: World) | PollThrew(error: string, world: World)

  function AwaitPoll(w: World, from: Which, p: PollPoint): Polled {
    var now := ActAll(w, p.before);
    if p.throws.Some? then PollThrew(p.throws.value, now)
    else Heard(Answer(now, from), AfterPoll(now, from))
  }

  /** A poll takes from its queue exactly what it hands over. */
  lemma AwaitPollKeepsFaith(w: World, from: Which, p: PollPoint)
    requires WorldFaithful(w)
    ensures var r := AwaitPoll(w, from, p);
            && WorldFaithful(r.world)
            && Got(r.world.polls) == Got(w.polls) + (if r.Heard? then r.got else [])
            && r.world.acts == w.acts + p.before
            && (r.PollThrew? ==> r.world.polls == w.polls)
            && (r.Heard? ==> |r.world.polls| == |w.polls| + 1 && r.world.polls[..|w.polls|] == w.polls
                             && r.world.polls[|w.polls|].from == from && r.world.polls[|w.polls|].got == r.got)
  {
    ActAllKeepsFaith(w, p.before);
    PollKeepsFaith(ActAll(w, p.before), from);
  }

  // ----- What each operation changes -----

  /** Filtering by origin, entry by entry. */
  lemma OfOriginOne(e: Entry, user: bool)
    ensures OfOrigin([e], user) == if (e.origin == ByUser) == user then [e] else []
  {
    assert [e][1..] == [];
  }

  lemma {:induction false} OfOriginAppend(a: seq<Entry>, b: seq<Entry>, user: bool)
    ensures OfOrigin(a + b, user) == OfOrigin(a, user) + OfOrigin(b, user)
  {
    if a == [] {
      assert a + b == b;
    } else {
      assert (a + b)[1..] == a[1..] + b;
      OfOriginAppend(a[1..], b, user);
    }
  }

  /** The fates after waiting entries, or only the user's, met fate `f`. */
  predicate Settles(l: seq<Item>, r: seq<Item>, f: Fate, usersOnly: bool) {
    && |r| == |l|
    && forall k :: 0 <= k < |l| ==>
         r[k] == if l[k].fate == Waiting && (usersOnly ==> l[k].entry.origin == ByUser) then l[k].(fate := f) else l[k]
  }

  lemma {:induction false} SettleIs(l: seq<Item>, f: Fate, usersOnly: bool)
    ensures Settles(l, Settle(l, f, usersOnly), f, usersOnly)
  {
    if l != [] { SettleIs(l[1..], f, usersOnly); }
  }

  /** Entry `k` is the oldest that waits. */
  predicate Oldest(l: seq<Item>, k: nat)
    requires k < |l|
  {
    l[k].fate == Waiting && forall j :: 0 <= j < k ==> l[j].fate != Waiting
  }

  /** The oldest waiting entry, if there is one, is delivered, and nothing else. */
  predicate DeliversFirst(l: seq<Item>, r: seq<Item>) {
    |r| == |l| && forall k :: 0 <= k < |l| ==> r[k] == if Oldest(l, k) then l[k].(fate := Delivered) else l[k]
  }

  lemma OldestBehind(x: Item, l: seq<Item>, k: nat)
    requires k < |l|
    ensures Oldest([x] + l, k + 1) <==> x.fate != Waiting && Oldest(l, k)
  {
    var all := [x] + l;
    assert all[0] == x && forall j :: 0 <= j < |l| ==> all[j + 1] == l[j];
    if Oldest(l, k) && x.fate != Waiting {
      assert forall j :: 0 <= j < k + 1 ==> all[j].fate != Waiting;
    }
    if Oldest(all, k + 1) {
      forall j | 0 <= j < k ensures l[j].fate != Waiting {
        assert all[j + 1] == l[j];
      }
    }
  }

  lemma {:induction false} SettleFirstIs(l: seq<Item>)
    ensures DeliversFirst(l, SettleFirst(l))
  {
    if l != [] {
      hide Oldest;
      var rest := l[1..];
      assert l == [l[0]] + rest;
      SettleFirstIs(rest);
      assert Oldest(l, 0) <==> l[0].fate == Waiting by { OldestFirst(l); }
      forall k | 0 <= k < |l|
        ensures SettleFirst(l)[k] == if Oldest(l, k) then l[k].(fate := Delivered) else l[k]
      {
        if k > 0 { OldestBehind(l[0], rest, k - 1); }
      }
    }
  }

  lemma OldestFirst(l: seq<Item>)
    requires l != []
    ensures Oldest(l, 0) <==> l[0].fate == Waiting
  {
  }

  /** One more entry waits at the end. */
  predicate Enqueues(t: Track, r: Track, e: Entry) {
    r == t.(lane := t.lane.(entries := t.lane.entries + [e]), ledger := t.ledger + [Item(e, Waiting)])
  }

  /** The queue is emptied: what waited was cleared. */
  predicate Empties(t: Track, r: Track) {
    && r.lane == Lane([], t.lane.mode) && Settles(t.ledger, r.ledger, Cleared, false)
    && r.cleared == t.cleared + t.lane.entries && r.delivered == t.delivered && r.drained == t.drained
  }

  /** The user's waiting entries leave, and are drained. */
  predicate DrainsUsers(t: Track, r: Track) {
    && r.lane == Lane(OfOrigin(t.lane.entries, false), t.lane.mode) && Settles(t.ledger, r.ledger, Drained, true)
    && r.drained == t.drained + OfOrigin(t.lane.entries, true) && r.delivered == t.delivered && r.cleared == t.cleared
  }

  /** What each operation does to each of the two queues, with its mode, its fates and its
      three ways out; a queue it is not about is left alone. */
  lemma ActChanges(w: World, a: Action)
    ensures var r := Act(w, a);
            && r.polls == w.polls && r.acts == w.acts + [a]
            && match a
               case Steer(m, o) => Enqueues(w.steering, r.steering, Entry(m, o)) && r.followUp == w.followUp
               case FollowUp(m, o) => Enqueues(w.followUp, r.followUp, Entry(m, o)) && r.steering == w.steering
               case DrainUser => DrainsUsers(w.steering, r.steering) && DrainsUsers(w.followUp, r.followUp)
               case ClearSteering => Empties(w.steering, r.steering) && r.followUp == w.followUp
               case ClearFollowUps => Empties(w.followUp, r.followUp) && r.steering == w.steering
               case ClearAll => Empties(w.steering, r.steering) && Empties(w.followUp, r.followUp)
               case SetSteeringMode(m) =>
                 r.steering == w.steering.(lane := w.steering.lane.(mode := m)) && r.followUp == w.followUp
               case SetFollowUpMode(m) =>
                 r.followUp == w.followUp.(lane := w.followUp.lane.(mode := m)) && r.steering == w.steering
  {
    hide Settle, OfOrigin, ApplyAll, Settles;
    OneOp(w.steering, SteeringOps(a));
    OneOp(w.followUp, FollowUpOps(a));
    SettleIs(w.steering.ledger, Cleared, false);
    SettleIs(w.followUp.ledger, Cleared, false);
    SettleIs(w.steering.ledger, Drained, true);
    SettleIs(w.followUp.ledger, Drained, true);
  }

  /** What a dequeue hands over and leaves, by mode; the other queue is left alone. */
  lemma PollChanges(w: World, from: Which)
    ensures var q, r := LaneOf(w, from), AfterPoll(w, from);
            && (q.mode == OneAtATime ==>
                  Answer(w, from) == (if q.entries == [] then [] else [q.entries[0].message])
                  && LaneOf(r, from) == Lane(if q.entries == [] then [] else q.entries[1..], OneAtATime))
            && (q.mode == AllAtOnce ==> Answer(w, from) == Texts(q.entries) && LaneOf(r, from) == Lane([], AllAtOnce))
            && r.acts == w.acts && r.polls == w.polls + [Poll(from, q.mode, Answer(w, from))]
            && (if from.Steering? then r.followUp == w.followUp else r.steering == w.steering)
  {
    hide SettleFirst, Settle;
    var q := LaneOf(w, from);
    if q.entries != [] && q.mode == OneAtATime { assert q.entries[..1] == [q.entries[0]]; }
  }

  /** And its fates: everything that waited, or the oldest, is delivered. */
  lemma PollDelivers(w: World, from: Which)
    ensures var t := if from.Steering? then w.steering else w.followUp;
            var r := if from.Steering? then AfterPoll(w, from).steering else AfterPoll(w, from).followUp;
            && r.drained == t.drained && r.cleared == t.cleared
            && (if t.lane.mode == OneAtATime then DeliversFirst(t.ledger, r.ledger)
                else Settles(t.ledger, r.ledger, Delivered, false))
  {
    hide SettleFirst, Settle, DeliversFirst, Settles;
    var t := if from.Steering? then w.steering else w.followUp;
    SettleFirstIs(t.ledger);
    SettleIs(t.ledger, Delivered, false);
  }

  /** The queue part of class Agent. */
  class MessageQueues {
    var steeringQueue: seq<Entry>
    var followUpQueue: seq<Entry>
    var steeringMode: Mode
    var followUpMode: Mode
    ghost var world: World

    ghost predicate Valid() reads this {
      && world.steering.lane == Lane(steeringQueue, steeringMode)
      && world.followUp.lane == Lane(followUpQueue, followUpMode)
      && WorldFaithful(world)
    }

    constructor (steeringMode: Mode, followUpMode: Mode)
      ensures Valid() && world == Empty(steeringMode, followUpMode)
      ensures this.steeringMode == steeringMode && this.followUpMode == followUpMode
      ensures steeringQueue == [] && followUpQueue == []
    {
      this.steeringMode, this.followUpMode := steeringMode, followUpMode;
      steeringQueue, followUpQueue := [], [];
      world := Empty(steeringMode, followUpMode);
    }

    /** Every public operation on the queues, with what it returns. */
    method Perform(a: Action) returns (steering: seq<Message>, followUp: seq<Message>)
      requires Valid()
      modifies this
      ensures Valid() && world == Act(old(world), a)
      ensures steering == (if a.DrainUser? then Texts(OfOrigin(old(steeringQueue), true)) else [])
      ensures followUp == (if a.DrainUser? then Texts(OfOrigin(old(followUpQueue), true)) else [])
      ensures steeringQueue == match a
                               case Steer(m, o) => old(steeringQueue) + [Entry(m, o)]
                               case DrainUser => OfOrigin(old(steeringQueue), false)
                               case ClearSteering => []
                               case ClearAll => []
                               case _ => old(steeringQueue)
      ensures followUpQueue == match a
                               case FollowUp(m, o) => old(followUpQueue) + [Entry(m, o)]
                               case DrainUser => OfOrigin(old(followUpQueue), false)
                               case ClearFollowUps => []
                               case ClearAll => []
                               case _ => old(followUpQueue)
      ensures steeringMode == (if a.SetSteeringMode? then a.mode else old(steeringMode))
      ensures followUpMode == (if a.SetFollowUpMode? then a.mode else old(followUpMode))
    {
      ActKeepsFaith(world, a);
      OneOp(world.steering, SteeringOps(a));
      OneOp(world.followUp, FollowUpOps(a));
      steering, followUp := [], [];
      match a {
        case Steer(m, o) => steeringQueue := steeringQueue + [Entry(m, o)];
        case FollowUp(m, o) => followUpQueue := followUpQueue + [Entry(m, o)];
        case DrainUser =>
          steering := Texts(OfOrigin(steeringQueue, true));
          followUp := Texts(OfOrigin(followUpQueue, true));
          steeringQueue := OfOrigin(steeringQueue, false);
          followUpQueue := OfOrigin(followUpQueue, false);
        case ClearSteering => steeringQueue := [];
        case ClearFollowUps => followUpQueue := [];
        case ClearAll => steeringQueue, followUpQueue := [], [];
        case SetSteeringMode(m) => steeringMode := m;
        case SetFollowUpMode(m) => followUpMode := m;
      }
      world := Act(world, a);
    }

    method PerformAll(actions: seq<Action>)
      requires Valid()
      modifies this
      ensures Valid() && world == ActAll(old(world), actions)
    {
      for i := 0 to |actions|
        invariant Valid() && ActAll(old(world), actions) == ActAll(world, actions[i..])
      {
        var _, _ := Perform(actions[i]);
        assert actions[i..][1..] == actions[i + 1..];
      }
    }

    method DequeueSteeringMessages() returns (got: seq<Message>)
      requires Valid()
      modifies this
      ensures Valid() && got == Answer(old(world), Steering) && world == AfterPoll(old(world), Steering)
      ensures steeringMode == old(steeringMode) && followUpMode == old(followUpMode)
      ensures followUpQueue == old(followUpQueue)
      ensures steeringMode == OneAtATime && old(steeringQueue) != [] ==>
                got == [old(steeringQueue)[0].message] && steeringQueue == old(steeringQueue)[1..]
      ensures steeringMode == AllAtOnce || old(steeringQueue) == [] ==>
                got == Texts(old(steeringQueue)) && steeringQueue == []
    {
      PollKeepsFaith(world, Steering);
      world := AfterPoll(world, Steering);
      if steeringMode.OneAtATime? {
        if |steeringQueue| > 0 {
          var first := steeringQueue[0];
          steeringQueue := steeringQueue[1..];
          return [first.message];
        }
        return [];
      }
      got := Texts(steeringQueue);
      steeringQueue := [];
    }

    method DequeueFollowUpMessages() returns (got: seq<Message>)
      requires Valid()
      modifies this
      ensures Valid() && got == Answer(old(world), FollowUps) && world == AfterPoll(old(world), FollowUps)
      ensures steeringMode == old(steeringMode) && followUpMode == old(followUpMode)
      ensures steeringQueue == old(steeringQueue)
      ensures followUpMode == OneAtATime && old(followUpQueue) != [] ==>
                got == [old(followUpQueue)[0].message] && followUpQueue == old(followUpQueue)[1..]
      ensures followUpMode == AllAtOnce || old(followUpQueue) == [] ==>
                got == Texts(old(followUpQueue)) && followUpQueue == []
    {
      PollKeepsFaith(world, FollowUps);
      world := AfterPoll(world, FollowUps);
      if followUpMode.OneAtATime? {
        if |followUpQueue| > 0 {
          var first := followUpQueue[0];
          followUpQueue := followUpQueue[1..];
          return [first.message];
        }
        return [];
      }
      got := Texts(followUpQueue);
      followUpQueue := [];
    }

    /** Awaiting config.getSteeringMessages or config.getFollowUpMessages. */
    method Await(from: Which, p: PollPoint) returns (got: seq<Message>, threw: Option<string>)
      requires Valid()
      modifies this
      ensures Valid()
      ensures match AwaitPoll(old(world), from, p)
              case Heard(ms, w) => got == ms && threw == None && world == w
              case PollThrew(error, w) => threw == Some(error) && world == w
    {
      PerformAll(p.before);
      got, threw := [], p.throws;
      if threw.None? {
        if from.Steering? {
          got := DequeueSteeringMessages();
        } else {
          got := DequeueFollowUpMessages();
        }
      }
    }

    method HasQueuedMessages() returns (b: bool)
      requires Valid()
      ensures b <==> Pick(world.steering.ledger, Waiting) != [] || Pick(world.followUp.ledger, Waiting) != []
    {
      b := |steeringQueue| > 0 || |followUpQueue| > 0;
    }
  }
}
