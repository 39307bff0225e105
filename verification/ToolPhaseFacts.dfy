/** What holds of every tool phase: one start, one end and one result per call;
    which calls ran; in which order results come; independence of scheduling. */
module ToolPhaseFacts {
  import opened Messages
  import opened Events
  import opened Queues
  import opened ToolPhase

  // ----- The events of single steps -----

  lemma EmitPiece(c: Call, o: Outcome, open: set<string>)
    ensures Piece(Emit(c, o), [], [c], [ResultMessage(c, o)])
    ensures PendingIds(open, Emit(c, o)) == open - {c.id}
    ensures Paired(open, Emit(c, o)) <==> c.id in open
  {
    var m := ResultMessage(c, o);
    var pair := [MessageStart(m), MessageEnd(m)];
    assert Emit(c, o)[1..] == pair;
    PairFacts(m, open - {c.id});
  }

  lemma StartPiece(c: Call, open: set<string>)
    ensures Piece([ToolStart(c)], [c], [], [])
    ensures PendingIds(open, [ToolStart(c)]) == open + {c.id}
    ensures Paired(open, [ToolStart(c)]) <==> c.id !in open
  {
    assert [ToolStart(c)][1..] == [];
  }

  lemma {:induction false} UpdatesPiece(c: Call, partials: seq<string>, open: set<string>)
    ensures Piece(Updates(c, partials), [], [], [])
    ensures PendingIds(open, Updates(c, partials)) == open && Paired(open, Updates(c, partials))
  {
    if partials != [] { UpdatesPiece(c, partials[1..], open); }
  }

  function IdSet(cs: seq<Call>): set<string> {
    if cs == [] then {} else {cs[0].id} + IdSet(cs[1..])
  }

  lemma {:induction false} NotInIdSet(cs: seq<Call>, id: string)
    requires forall j :: 0 <= j < |cs| ==> cs[j].id != id
    ensures id !in IdSet(cs)
  {
    if cs != [] { NotInIdSet(cs[1..], id); }
  }

  /** A call's start, then anything that starts and ends nothing, then its end. */
  lemma OneCallPiece(c: Call, mid: seq<Event>, o: Outcome, open: set<string>)
    requires Piece(mid, [], [], [])
    requires forall s :: PendingIds(s, mid) == s && Paired(s, mid)
    ensures Piece([ToolStart(c)] + mid, [c], [], [])
    ensures Piece([ToolStart(c)] + mid + Emit(c, o), [c], [c], [ResultMessage(c, o)])
    ensures PendingIds(open, [ToolStart(c)] + mid + Emit(c, o)) == open - {c.id}
    ensures c.id !in open ==> Paired(open, [ToolStart(c)] + mid + Emit(c, o)) && Paired(open, [ToolStart(c)] + mid)
  {
    StartPiece(c, open);
    EmitPiece(c, o, open + {c.id});
    JoinPieces([ToolStart(c)], [c], [], [], mid, [], [], [], [c], [], []);
    JoinPieces([ToolStart(c)] + mid, [c], [], [], Emit(c, o), [], [c], [ResultMessage(c, o)],
               [c], [c], [ResultMessage(c, o)]);
    PendingSplit(open, [ToolStart(c)], mid);
    PendingSplit(open, [ToolStart(c)] + mid, Emit(c, o));
  }

  function SkipHead(c: Call, emitStart: bool): seq<Event> {
    (if emitStart then [ToolStart(c)] else []) + Emit(c, SKIPPED)
  }

  lemma SkipHeadPiece(c: Call, emitStart: bool, open: set<string>)
    ensures Piece(SkipHead(c, emitStart), if emitStart then [c] else [], [c], [ResultMessage(c, SKIPPED)])
    ensures PendingIds(open, SkipHead(c, emitStart)) == open - {c.id}
    ensures (if emitStart then c.id !in open else c.id in open) ==> Paired(open, SkipHead(c, emitStart))
  {
    EmitPiece(c, SKIPPED, open);
    OneCallPiece(c, [], SKIPPED, open);
    assert [ToolStart(c)] + [] + Emit(c, SKIPPED) == [ToolStart(c)] + Emit(c, SKIPPED);
    assert [] + Emit(c, SKIPPED) == Emit(c, SKIPPED);
  }

  lemma SkipUnfolds(cs: seq<Call>, emitStart: bool)
    requires cs != []
    ensures SkipEvents(cs, emitStart) == SkipHead(cs[0], emitStart) + SkipEvents(cs[1..], emitStart)
  {
  }

  lemma SkipsUnfold(cs: seq<Call>)
    requires cs != []
    ensures cs == [cs[0]] + cs[1..] && Skips(cs) == [ResultMessage(cs[0], SKIPPED)] + Skips(cs[1..])
  {
  }

  lemma {:induction false} SkipPiece(cs: seq<Call>, emitStart: bool)
    ensures Piece(SkipEvents(cs, emitStart), if emitStart then cs else [], cs, Skips(cs))
    decreases |cs|
  {
    if cs == [] {
      assert Skips(cs) == [];
    } else {
      hide Piece, SkipEvents, SkipHead, Skips;
      var c, rest := cs[0], cs[1..];
      SkipHeadPiece(c, emitStart, {});
      SkipPiece(rest, emitStart);
      SkipUnfolds(cs, emitStart);
      SkipsUnfold(cs);
      var m := ResultMessage(c, SKIPPED);
      if emitStart {
        JoinPieces(SkipHead(c, true), [c], [c], [m], SkipEvents(rest, true), rest, rest, Skips(rest), cs, cs,
          Skips(cs));
      } else {
        JoinPieces(SkipHead(c, false), [], [c], [m], SkipEvents(rest, false), [], rest, Skips(rest), [], cs, Skips(cs));
      }
    }
  }

  lemma {:induction false} SkipEnds(cs: seq<Call>, emitStart: bool, open: set<string>)
    ensures PendingIds(open, SkipEvents(cs, emitStart)) == open - IdSet(cs)
    decreases |cs|
  {
    if cs != [] {
      hide SkipEvents, SkipHead, PendingIds;
      SkipHeadPiece(cs[0], emitStart, open);
      SkipEnds(cs[1..], emitStart, open - {cs[0].id});
      SkipUnfolds(cs, emitStart);
      PendingSplit(open, SkipHead(cs[0], emitStart), SkipEvents(cs[1..], emitStart));
    }
  }

  /** Skipping distinct calls pairs their ids: freshly started, or started before. */
  lemma {:induction false} SkipPaired(cs: seq<Call>, emitStart: bool, open: set<string>)
    requires Distinct(Ids(cs))
    requires if emitStart then open !! IdSet(cs) else IdSet(cs) <= open
    ensures Paired(open, SkipEvents(cs, emitStart))
    decreases |cs|
  {
    if cs != [] {
      var c := cs[0];
      SkipHeadPiece(c, emitStart, open);
      DistinctTail(cs);
      assert IdSet(cs) == {c.id} + IdSet(cs[1..]);
      SkipPaired(cs[1..], emitStart, open - {c.id});
      assert SkipEvents(cs, emitStart) == SkipHead(c, emitStart) + SkipEvents(cs[1..], emitStart);
      PendingSplit(open, SkipHead(c, emitStart), SkipEvents(cs[1..], emitStart));
    }
  }

  lemma DistinctTail(cs: seq<Call>)
    requires cs != [] && Distinct(Ids(cs))
    ensures Distinct(Ids(cs[1..])) && cs[0].id !in IdSet(cs[1..])
  {
    var tail := cs[1..];
    assert Ids(cs)[1..] == Ids(tail);
    forall j | 0 <= j < |tail| ensures tail[j].id != cs[0].id {
      assert Ids(cs)[0] != Ids(cs)[j + 1];
    }
    NotInIdSet(tail, cs[0].id);
  }

  // ----- Shape of a phase -----

  predicate Answers(m: Message, c: Call) {
    m.ToolResult? && m.callId == c.id && m.toolName == c.name
  }

  /** Result `j` answers call `ks[j]`. */
  predicate Aligned(calls: seq<Call>, ks: seq<nat>, ms: seq<Message>) {
    && Within(ks, |calls|) && |ms| == |ks|
    && (forall j :: 0 <= j < |ks| ==> Answers(ms[j], calls[ks[j]]))
  }

  lemma AlignedAppend(calls: seq<Call>, a: seq<nat>, ms: seq<Message>, b: seq<nat>, ns: seq<Message>)
    requires Aligned(calls, a, ms) && Aligned(calls, b, ns)
    ensures Aligned(calls, a + b, ms + ns)
    ensures CallsAt(calls, a + b) == CallsAt(calls, a) + CallsAt(calls, b)
  {
  }

  lemma SkipsAligned(calls: seq<Call>, ks: seq<nat>)
    requires Within(ks, |calls|)
    ensures Aligned(calls, ks, Skips(CallsAt(calls, ks)))
  {
  }

  /** Each result answers the call it stands for, in the log as in the list; a
      completed phase started every call once, in source order, and answered
      each exactly once. */
  predicate Shaped(calls: seq<Call>, from: nat, p: Phase)
    requires from <= |calls|
  {
    && Aligned(calls, p.order, p.results)
    && Piece(p.events, StartedCalls(p.events), CallsAt(calls, p.order), p.results)
    && (p.ending.Completed? ==>
        && StartedCalls(p.events) == calls[from..]
        && multiset(p.order) == multiset(Range(from, |calls|)))
  }

  /** New polls are steering polls; all but the last came back empty, and the
      last returned `got`. */
  predicate PolledOnly(a: seq<Poll>, b: seq<Poll>, got: seq<Message>) {
    && |a| <= |b| && b[..|a|] == a
    && (forall k :: |a| <= k < |b| ==> b[k].from.Steering?)
    && (forall k :: |a| <= k < |b| - 1 ==> b[k].got == [])
    && (if |a| == |b| then got == [] else b[|b| - 1].got == got)
  }

  predicate WorldFollows(w: World, p: Phase) {
    var got := if p.ending.Completed? then p.ending.steering else [];
    && WorldFaithful(p.world)
    && Got(p.world.polls) == Got(w.polls) + got
    && PolledOnly(w.polls, p.world.polls, got)
  }

  lemma PolledThen(a: seq<Poll>, b: seq<Poll>, c: seq<Poll>, got: seq<Message>)
    requires PolledOnly(a, b, []) && PolledOnly(b, c, got)
    ensures PolledOnly(a, c, got)
  {
    assert c[..|a|] == c[..|b|][..|a|];
    forall k | |a| <= k < |c|
      ensures c[k].from.Steering? && (k < |c| - 1 ==> c[k].got == [])
    {
      if k < |b| { assert c[k] == c[..|b|][k]; }
    }
  }

  lemma NoPolls(w: World)
    ensures PolledOnly(w.polls, w.polls, []) && Got(w.polls) + [] == Got(w.polls)
  {
  }

  lemma AwaitSteering(w: World, p: PollPoint)
    requires WorldFaithful(w)
    ensures var r := AwaitPoll(w, Steering, p);
            && WorldFaithful(r.world)
            && PolledOnly(w.polls, r.world.polls, if r.Heard? then r.got else [])
            && Got(r.world.polls) == Got(w.polls) + (if r.Heard? then r.got else [])
  {
    hide AwaitPoll, WorldFaithful, Got;
    AwaitPollKeepsFaith(w, Steering, p);
  }

  lemma ExecuteOneShape(cfg: Config, calls: seq<Call>, inp: nat -> CallInput, i: nat, w: World, open: set<string>)
    requires i < |calls|
    ensures var one, c := ExecuteOne(cfg, calls, inp, i, w), calls[i];
            && one.world == w
            && one.order == (if one.ending.Failed? then [] else [i])
            && |one.results| == |one.order|
            && (one.ending.Completed? ==> Answers(one.results[0], c) && one.ending.steering == [])
            && Piece(one.events, [c], if one.ending.Failed? then [] else [c], one.results)
            && (one.ending.Completed? ==> PendingIds(open, one.events) == open - {c.id})
            && (c.id !in open ==> Paired(open, one.events))
  {
    var c, x := calls[i], inp(i);
    var mid := if Prepare(cfg.tools, c, x).Prepared? then Updates(c, x.updates) else [];
    UpdatesPiece(c, x.updates, open);
    forall s ensures PendingIds(s, mid) == s && Paired(s, mid) {
      UpdatesPiece(c, x.updates, s);
    }
    var f := OutcomeOf(cfg.tools, c, x);
    OneCallPiece(c, mid, if f.Final? then f.outcome else SKIPPED, open);
  }

  lemma JoinShapes(calls: seq<Call>, i: nat, one: Phase, rest: Phase)
    requires i < |calls| && one.order == [i] && |one.results| == 1 && Answers(one.results[0], calls[i])
    requires Piece(one.events, [calls[i]], [calls[i]], one.results)
    requires Shaped(calls, i + 1, rest)
    ensures Shaped(calls, i, Join(one, rest))
  {
    JoinPieces(one.events, [calls[i]], [calls[i]], one.results,
               rest.events, StartedCalls(rest.events), CallsAt(calls, rest.order), rest.results,
               [calls[i]] + StartedCalls(rest.events), CallsAt(calls, [i] + rest.order), one.results + rest.results);
    assert calls[i..] == [calls[i]] + calls[i + 1..];
    assert Range(i, |calls|) == [i] + Range(i + 1, |calls|);
  }

  lemma SkipRestShape(calls: seq<Call>, i: nat, got: seq<Message>, w: World)
    requires i <= |calls|
    ensures Shaped(calls, i, SkipRest(calls, i, got, w))
  {
    SkipPiece(calls[i..], true);
    assert CallsAt(calls, Range(i, |calls|)) == calls[i..];
  }

  lemma NothingShaped(calls: seq<Call>, i: nat, p: Phase)
    requires i <= |calls| && p.order == [] && p.results == []
    requires Piece(p.events, StartedCalls(p.events), [], [])
    requires p.ending.Completed? ==> i == |calls| && StartedCalls(p.events) == []
    ensures Shaped(calls, i, p)
  {
    assert CallsAt(calls, []) == [];
    assert calls[|calls|..] == [] && Range(|calls|, |calls|) == [];
  }

  /** One call is done and nothing else is. */
  predicate OneDone(calls: seq<Call>, i: nat, p: Phase)
    requires i < |calls|
  {
    && p.order == [i] && |p.results| == 1 && Answers(p.results[0], calls[i])
    && Piece(p.events, [calls[i]], [calls[i]], p.results)
  }

  /** Results stand in source order from `i` on. */
  predicate InSourceOrder(calls: seq<Call>, i: nat, p: Phase) {
    i + |p.order| <= |calls| && p.order == Range(i, i + |p.order|)
  }

  lemma StoppedAfterOne(calls: seq<Call>, i: nat, p: Phase)
    requires i < |calls| && OneDone(calls, i, p) && p.ending.Failed?
    ensures Shaped(calls, i, p) && InSourceOrder(calls, i, p)
  {
    assert CallsAt(calls, [i]) == [calls[i]];
    assert Range(i, i + 1) == [i];
  }

  lemma WentOn(calls: seq<Call>, i: nat, p: Phase, rest: Phase)
    requires i < |calls| && OneDone(calls, i, p)
    requires Shaped(calls, i + 1, rest) && InSourceOrder(calls, i + 1, rest)
    ensures Shaped(calls, i, Join(p, rest)) && InSourceOrder(calls, i, Join(p, rest))
  {
    JoinShapes(calls, i, p, rest);
    assert [i] + Range(i + 1, i + 1 + |rest.order|) == Range(i, i + 1 + |rest.order|);
  }

  lemma SkippedAfterOne(calls: seq<Call>, i: nat, p: Phase, got: seq<Message>, w: World)
    requires i < |calls| && OneDone(calls, i, p)
    ensures Shaped(calls, i, Join(p, SkipRest(calls, i + 1, got, w)))
    ensures InSourceOrder(calls, i, Join(p, SkipRest(calls, i + 1, got, w)))
  {
    hide Shaped, OneDone;
    SkipRestShape(calls, i + 1, got, w);
    WentOn(calls, i, p, SkipRest(calls, i + 1, got, w));
  }

  /** One pass of the sequential loop: either the phase is over, or one call is
      done and the loop goes on. */
  lemma SequentialStepShape(cfg: Config, calls: seq<Call>, inp: nat -> CallInput, i: nat, w: World)
    requires i < |calls|
    ensures var (p, more) := SequentialStep(cfg, calls, inp, i, w);
            if more then OneDone(calls, i, p) else Shaped(calls, i, p) && InSourceOrder(calls, i, p)
  {
    hide ExecuteOne, AwaitPoll, SkipRest, Shaped, InSourceOrder, Piece;
    ExecuteOneShape(cfg, calls, inp, i, w, {});
    var one := ExecuteOne(cfg, calls, inp, i, w);
    if one.ending.Failed? {
      StoppedBeforeOne(calls, i, one);
      return;
    }
    match AwaitPoll(w, Steering, inp(i).poll)
    case PollThrew(error, w') => StoppedAfterOne(calls, i, one.(world := w', ending := Failed(error)));
    case Heard(got, w') => SkippedAfterOne(calls, i, one, got, w');
  }

  lemma StoppedBeforeOne(calls: seq<Call>, i: nat, p: Phase)
    requires i < |calls| && p.order == [] && p.results == [] && p.ending.Failed?
    requires Piece(p.events, [calls[i]], [], p.results)
    ensures Shaped(calls, i, p) && InSourceOrder(calls, i, p)
  {
    NothingShaped(calls, i, p);
  }

  lemma SequentialStepFollows(cfg: Config, calls: seq<Call>, inp: nat -> CallInput, i: nat, w: World)
    requires i < |calls| && WorldFaithful(w)
    ensures var (p, more) := SequentialStep(cfg, calls, inp, i, w);
            WorldFollows(w, p) && (more ==> p.ending == Completed([]))
  {
    hide ExecuteOne, AwaitPoll, WorldFaithful, PolledOnly, Got;
    NoPolls(w);
    ExecuteOneShape(cfg, calls, inp, i, w, {});
    AwaitSteering(w, inp(i).poll);
  }

  lemma FollowsJoin(w: World, a: Phase, b: Phase)
    requires WorldFollows(w, a) && a.ending == Completed([]) && WorldFollows(a.world, b)
    ensures WorldFollows(w, Join(a, b))
  {
    hide WorldFaithful, Got, PolledOnly;
    PolledThen(w.polls, a.world.polls, b.world.polls, if b.ending.Completed? then b.ending.steering else []);
  }

  /** Sequential mode, from any call on: one start, one end and one result per
      call, in source order; no poll follows one that returned something, and
      nothing a poll returned is lost. */
  lemma {:induction false} SequentialShape(cfg: Config, calls: seq<Call>, inp: nat -> CallInput, i: nat, w: World)
    requires i <= |calls| && WorldFaithful(w)
    ensures var p := Sequential(cfg, calls, inp, i, w);
            Shaped(calls, i, p) && InSourceOrder(calls, i, p) && WorldFollows(w, p)
    decreases |calls| - i
  {
    hide SequentialStep, OneDone, WorldFaithful;
    if i == |calls| {
      NoPolls(w);
      NothingShaped(calls, i, Sequential(cfg, calls, inp, i, w));
    } else {
      hide Shaped, InSourceOrder;
      SequentialStepShape(cfg, calls, inp, i, w);
      SequentialStepFollows(cfg, calls, inp, i, w);
      var (p, more) := SequentialStep(cfg, calls, inp, i, w);
      if more {
        SequentialShape(cfg, calls, inp, i + 1, p.world);
        var rest := Sequential(cfg, calls, inp, i + 1, p.world);
        WentOn(calls, i, p, rest);
        FollowsJoin(w, p, rest);
      }
    }
  }
}
