/** The main results about one reply's tool calls, for both execution modes. */
module ToolPhaseTheorems {
  import opened Messages
  import opened Events
  import opened Queues
  import opened ToolPhase
  import opened ToolPhaseFacts
  import opened ParallelFacts

  // ----- Shape of a parallel phase -----

  lemma InterruptedAligned(cfg: Config, calls: seq<Call>, inp: nat -> CallInput, prep: Prep, got: seq<Message>)
    requires PrepShaped(cfg, calls, inp, 0, prep)
    ensures var p := Interrupted(calls, prep, got);
            && Aligned(calls, p.order, p.results)
            && CallsAt(calls, p.order)
               == CallsAt(calls, prep.immediate) + CallsAt(calls, prep.runnable) + calls[prep.next..]
  {
    hide Piece;
    var tail := Range(prep.next, |calls|);
    assert CallsAt(calls, tail) == calls[prep.next..];
    ImmediateAnswers(cfg, calls, inp, prep.immediate);
    SkipsAligned(calls, prep.runnable);
    SkipsAligned(calls, tail);
    AlignedAppend(calls, prep.immediate, prep.results, prep.runnable, Skips(CallsAt(calls, prep.runnable)));
    AlignedAppend(calls, prep.immediate + prep.runnable, prep.results + Skips(CallsAt(calls, prep.runnable)),
                  tail, Skips(calls[prep.next..]));
  }

  lemma InterruptedPiece(cfg: Config, calls: seq<Call>, inp: nat -> CallInput, prep: Prep, got: seq<Message>)
    requires PrepShaped(cfg, calls, inp, 0, prep)
    ensures var p := Interrupted(calls, prep, got);
            Piece(p.events, calls,
              CallsAt(calls, prep.immediate) + CallsAt(calls, prep.runnable) + calls[prep.next..], p.results)
  {
    hide Piece;
    var waiting, rest := CallsAt(calls, prep.runnable), calls[prep.next..];
    var early := CallsAt(calls, prep.immediate);
    SkipPiece(waiting, false);
    SkipPiece(rest, true);
    assert calls == calls[0..prep.next] + rest;
    JoinPieces(prep.events, calls[0..prep.next], early, prep.results,
               SkipEvents(waiting, false), [], waiting, Skips(waiting),
               calls[0..prep.next], early + waiting, prep.results + Skips(waiting));
    JoinPieces(prep.events + SkipEvents(waiting, false), calls[0..prep.next], early + waiting,
               prep.results + Skips(waiting), SkipEvents(rest, true), rest, rest, Skips(rest),
               calls, early + waiting + rest, prep.results + Skips(waiting) + Skips(rest));
  }

  lemma MakeShaped(calls: seq<Call>, p: Phase)
    requires Aligned(calls, p.order, p.results)
    requires Piece(p.events, calls, CallsAt(calls, p.order), p.results)
    requires p.ending.Completed? ==> multiset(p.order) == multiset(Range(0, |calls|))
    ensures Shaped(calls, 0, p)
  {
    assert calls[0..] == calls;
  }

  lemma InterruptedShape(cfg: Config, calls: seq<Call>, inp: nat -> CallInput, prep: Prep, got: seq<Message>)
    requires PrepShaped(cfg, calls, inp, 0, prep)
    ensures Shaped(calls, 0, Interrupted(calls, prep, got))
  {
    hide Piece, Aligned, CallsAt, Skips, SkipEvents;
    InterruptedAligned(cfg, calls, inp, prep, got);
    InterruptedPiece(cfg, calls, inp, prep, got);
    SelectPartition(cfg, calls, inp, 0, prep.next);
    assert Range(0, prep.next) + Range(prep.next, |calls|) == Range(0, |calls|);
    MakeShaped(calls, Interrupted(calls, prep, got));
  }

  lemma ImmediateAnswers(cfg: Config, calls: seq<Call>, inp: nat -> CallInput, ks: seq<nat>)
    requires Within(ks, |calls|)
    ensures Aligned(calls, ks, ImmediateResults(cfg, calls, inp, ks))
  {
  }

  lemma {:induction false} JobAnswers(jobs: seq<Job>, n: nat)
    requires n <= BeforeFailure(jobs) && n <= |jobs|
    ensures forall j :: 0 <= j < n ==>
              (jobs[j].final.Final? && JobResults(jobs, n)[j] == ResultMessage(jobs[j].call, jobs[j].final.outcome))
    decreases n
  {
    if n > 0 {
      JobAnswers(jobs[1..], n - 1);
      forall j | 0 <= j < n
        ensures jobs[j].final.Final? && JobResults(jobs, n)[j] == ResultMessage(jobs[j].call, jobs[j].final.outcome)
      {
        if j > 0 { assert jobs[j] == jobs[1..][j - 1]; }
      }
    }
  }

  /** The concurrent part answers a prefix of the runnable calls. */
  lemma RanPiece(calls: seq<Call>, inp: PhaseInput, ks: seq<nat>, open: set<string>)
    requires Within(ks, |calls|)
    ensures var run := RunAll(Jobs(calls, inp.calls, ks), inp.schedule);
            && run.next <= |ks| && (run.failed.None? ==> run.next == |ks|)
            && Aligned(calls, ks[..run.next], run.results)
            && Piece(run.events, [], CallsAt(calls, ks[..run.next]), run.results)
            && PendingIds(open, run.events) == open - IdSet(CallsAt(calls, ks[..run.next]))
            && (Distinct(Ids(CallsAt(calls, ks[..run.next]))) && IdSet(CallsAt(calls, ks[..run.next])) <= open
                ==> Paired(open, run.events))
  {
    hide RunAll, Piece;
    var jobs := Jobs(calls, inp.calls, ks);
    var run := RunAll(jobs, inp.schedule);
    ScheduleIndependence(jobs, inp.schedule);
    RunAllPiece(jobs, inp.schedule, open);
    JobAnswers(jobs, run.next);
    assert JobCalls(jobs)[..run.next] == CallsAt(calls, ks[..run.next]);
  }

  lemma RanShape(cfg: Config, calls: seq<Call>, inp: PhaseInput, prep: Prep)
    requires PrepShaped(cfg, calls, inp.calls, 0, prep) && prep.ending.Ready?
    ensures Shaped(calls, 0, Ran(calls, inp, prep))
  {
    hide AwaitPoll, RunAll, Piece, Aligned, CallsAt, Prepare, Select, ImmediateResults;
    var run := RunAll(Jobs(calls, inp.calls, prep.runnable), inp.schedule);
    RanPiece(calls, inp, prep.runnable, {});
    var ended := prep.runnable[..run.next];
    ImmediateAnswers(cfg, calls, inp.calls, prep.immediate);
    AlignedAppend(calls, prep.immediate, prep.results, ended, run.results);
    assert calls[0..prep.next] == calls;
    JoinPieces(prep.events, calls, CallsAt(calls, prep.immediate), prep.results,
               run.events, [], CallsAt(calls, ended), run.results,
               calls, CallsAt(calls, prep.immediate + ended), prep.results + run.results);
    SelectPartition(cfg, calls, inp.calls, 0, prep.next);
    if run.failed.None? { assert ended == prep.runnable; }
    MakeShaped(calls, Ran(calls, inp, prep));
  }

  lemma RanFollows(calls: seq<Call>, inp: PhaseInput, w: World, prep: Prep)
    requires Within(prep.runnable, |calls|) && PrepFollows(w, prep) && prep.ending.Ready?
    ensures WorldFollows(w, Ran(calls, inp, prep))
  {
    hide AwaitPoll, RunAll, WorldFaithful, PolledOnly, Got;
    AwaitSteering(prep.world, inp.last);
    var last := AwaitPoll(prep.world, Steering, inp.last);
    PolledThen(w.polls, prep.world.polls, last.world.polls, if last.Heard? then last.got else []);
  }

  /** A phase of either mode starts each call once in source order, ends and
      answers each exactly once, and keeps every polled message. */
  lemma PhaseShape(cfg: Config, calls: seq<Call>, inp: PhaseInput, w: World)
    requires WorldFaithful(w)
    ensures Shaped(calls, 0, Execute(cfg, calls, inp, w)) && WorldFollows(w, Execute(cfg, calls, inp, w))
  {
    hide Shaped, WorldFollows, WorldFaithful, Ran, Interrupted;
    if cfg.mode.Sequentially? {
      SequentialShape(cfg, calls, inp.calls, 0, w);
    } else {
      PrepareAllShape(cfg, calls, inp.calls, 0, w);
      ParallelShape(cfg, calls, inp, w, PrepareAll(cfg, calls, inp.calls, 0, w));
    }
  }

  lemma ParallelShape(cfg: Config, calls: seq<Call>, inp: PhaseInput, w: World, prep: Prep)
    requires prep == PrepareAll(cfg, calls, inp.calls, 0, w)
    requires PrepShaped(cfg, calls, inp.calls, 0, prep) && PrepFollows(w, prep)
    ensures Shaped(calls, 0, Parallel(cfg, calls, inp, w)) && WorldFollows(w, Parallel(cfg, calls, inp, w))
  {
    hide PrepareAll, AwaitPoll, RunAll, Piece, Aligned, WorldFaithful, PolledOnly, Got;
    match prep.ending
    case PrepFailed(_) =>
      StoppedShape(cfg, calls, inp.calls, prep);
    case Steered(got) =>
      InterruptedShape(cfg, calls, inp.calls, prep, got);
    case Ready =>
      RanShape(cfg, calls, inp, prep);
      RanFollows(calls, inp, w, prep);
  }

  lemma StoppedShape(cfg: Config, calls: seq<Call>, inp: nat -> CallInput, prep: Prep)
    requires PrepShaped(cfg, calls, inp, 0, prep) && prep.ending.PrepFailed?
    ensures Shaped(calls, 0,
            Phase(prep.events, prep.immediate, prep.results, [], prep.world, Failed(prep.ending.error)))
  {
    ImmediateAnswers(cfg, calls, inp, prep.immediate);
  }

  // ----- Tool lifecycle -----

  /** Every id these calls use is closed at the end; if the ids are distinct and
      none was open, every start and end in between is strictly paired. */
  predicate Closes(calls: seq<Call>, open: set<string>, es: seq<Event>) {
    && PendingIds(open, es) == open - IdSet(calls)
    && (Distinct(Ids(calls)) && open !! IdSet(calls) ==> Paired(open, es))
  }

  lemma JoinCloses(c: Call, rest: seq<Call>, open: set<string>, a: seq<Event>, b: seq<Event>)
    requires PendingIds(open, a) == open - {c.id} && (c.id !in open ==> Paired(open, a))
    requires Closes(rest, open - {c.id}, b)
    ensures Closes([c] + rest, open, a + b)
  {
    var calls := [c] + rest;
    assert calls[1..] == rest;
    assert IdSet(calls) == {c.id} + IdSet(rest);
    PendingSplit(open, a, b);
    if Distinct(Ids(calls)) { DistinctTail(calls); }
  }

  lemma SkipCloses(cs: seq<Call>, open: set<string>)
    ensures Closes(cs, open, SkipEvents(cs, true))
  {
    SkipEnds(cs, true, open);
    if Distinct(Ids(cs)) && open !! IdSet(cs) { SkipPaired(cs, true, open); }
  }

  lemma {:induction false} SequentialCloses(cfg: Config, calls: seq<Call>, inp: nat -> CallInput, i: nat, w: World,
                                            open: set<string>)
    requires i <= |calls|
    requires Sequential(cfg, calls, inp, i, w).ending.Completed?
    ensures Closes(calls[i..], open, Sequential(cfg, calls, inp, i, w).events)
    decreases |calls| - i
  {
    hide ExecuteOne, AwaitPoll, Closes;
    if i == |calls| {
      NothingCloses(calls[i..], open);
    } else {
      assert calls[i..] == [calls[i]] + calls[i + 1..];
      ExecuteOneShape(cfg, calls, inp, i, w, open);
      var one := ExecuteOne(cfg, calls, inp, i, w);
      var polled := AwaitPoll(w, Steering, inp(i).poll);
      if one.ending.Completed? && polled.Heard? {
        if polled.got != [] {
          SkipCloses(calls[i + 1..], open - {calls[i].id});
          JoinCloses(calls[i], calls[i + 1..], open, one.events, SkipEvents(calls[i + 1..], true));
        } else {
          SequentialCloses(cfg, calls, inp, i + 1, polled.world, open - {calls[i].id});
          JoinCloses(calls[i], calls[i + 1..], open, one.events,
            Sequential(cfg, calls, inp, i + 1, polled.world).events);
        }
      }
    }
  }

  lemma NothingCloses(cs: seq<Call>, open: set<string>)
    requires cs == []
    ensures Closes(cs, open, [])
  {
    assert IdSet(cs) == {};
  }

  /** After preparation, what is open is at most what was open plus the runnable
      calls; exactly that, strictly paired, when ids are distinct. */
  predicate PrepOpens(cs: seq<Call>, runnable: seq<Call>, open: set<string>, es: seq<Event>) {
    && PendingIds(open, es) <= open + IdSet(runnable)
    && (Distinct(Ids(cs)) && open !! IdSet(cs) ==>
          Paired(open, es) && PendingIds(open, es) == open + IdSet(runnable))
  }

  lemma {:induction false} PrepareAllOpens(cfg: Config, calls: seq<Call>, inp: nat -> CallInput, i: nat, w: World,
                                           open: set<string>)
    requires i <= |calls|
    ensures var p := PrepareAll(cfg, calls, inp, i, w);
            i <= p.next <= |calls| && Within(p.runnable, |calls|)
            && PrepOpens(calls[i..p.next], CallsAt(calls, p.runnable), open, p.events)
    decreases |calls| - i
  {
    hide PrepareStep, PrepOpens, PrepShaped;
    PrepareAllStays(cfg, calls, inp, i, w);
    if i == |calls| {
      NothingOpens(calls, open);
    } else {
      var p := PrepareStep(cfg, calls, inp, i, w);
      PrepareStepShape(cfg, calls, inp, i, w, open);
      StepOpens(cfg, calls, inp, i, w);
      if p.ending.Ready? {
        PrepareAllOpens(cfg, calls, inp, i + 1, p.world, PendingIds(open, p.events));
        PrepareAllStays(cfg, calls, inp, i + 1, p.world);
        var rest := PrepareAll(cfg, calls, inp, i + 1, p.world);
        JoinOpens(calls, i, p, rest, open);
      } else {
        OneOpens(calls, i, p, open);
      }
    }
  }

  lemma NothingOpens(calls: seq<Call>, open: set<string>)
    ensures PrepOpens(calls[|calls|..|calls|], CallsAt(calls, []), open, [])
  {
    assert CallsAt(calls, []) == [] && IdSet(CallsAt(calls, [])) == {};
  }

  lemma StepOpens(cfg: Config, calls: seq<Call>, inp: nat -> CallInput, i: nat, w: World)
    requires i < |calls|
    ensures var p := PrepareStep(cfg, calls, inp, i, w);
            p.next == i + 1 && (p.runnable == [] || p.runnable == [i])
  {
    hide AwaitPoll;
  }

  /** What one preparation step does to the open set. */
  predicate OpensOne(calls: seq<Call>, i: nat, p: Prep, open: set<string>)
    requires i < |calls|
  {
    && p.next == i + 1 && (p.runnable == [] || p.runnable == [i])
    && PendingIds(open, p.events) == (if p.runnable == [] then open - {calls[i].id} else open + {calls[i].id})
    && (calls[i].id !in open ==> Paired(open, p.events))
  }

  lemma OneOpens(calls: seq<Call>, i: nat, p: Prep, open: set<string>)
    requires i < |calls| && OpensOne(calls, i, p, open)
    ensures PrepOpens(calls[i..p.next], CallsAt(calls, p.runnable), open, p.events)
  {
    assert calls[i..i + 1] == [calls[i]];
    assert IdSet([calls[i]]) == {calls[i].id};
    if p.runnable == [] { assert IdSet(CallsAt(calls, p.runnable)) == {}; }
    else { assert CallsAt(calls, p.runnable) == [calls[i]]; }
  }

  lemma JoinOpens(calls: seq<Call>, i: nat, a: Prep, b: Prep, open: set<string>)
    requires i < |calls| && OpensOne(calls, i, a, open)
    requires i + 1 <= b.next <= |calls| && Within(b.runnable, |calls|)
    requires PrepOpens(calls[i + 1..b.next], CallsAt(calls, b.runnable), PendingIds(open, a.events), b.events)
    ensures Within(a.runnable + b.runnable, |calls|)
    ensures PrepOpens(calls[i..b.next], CallsAt(calls, a.runnable + b.runnable), open, a.events + b.events)
  {
    hide PendingIds, Paired, PrepOpens;
    var c, cs, later := calls[i], calls[i..b.next], CallsAt(calls, b.runnable);
    assert cs == [c] + calls[i + 1..b.next];
    if a.runnable == [] {
      assert a.runnable + b.runnable == b.runnable;
      AnsweredThenOpens(c, calls[i + 1..b.next], later, open, a.events, b.events);
    } else {
      assert CallsAt(calls, a.runnable + b.runnable) == [c] + later;
      SetAsideThenOpens(c, calls[i + 1..b.next], later, open, a.events, b.events);
    }
  }

  lemma AnsweredThenOpens(c: Call, cs: seq<Call>, later: seq<Call>, open: set<string>, a: seq<Event>, b: seq<Event>)
    requires PendingIds(open, a) == open - {c.id} && (c.id !in open ==> Paired(open, a))
    requires PrepOpens(cs, later, open - {c.id}, b)
    ensures PrepOpens([c] + cs, later, open, a + b)
  {
    hide PendingIds, Paired, Distinct, Ids;
    PendingSplit(open, a, b);
    assert ([c] + cs)[1..] == cs && IdSet([c] + cs) == {c.id} + IdSet(cs);
    if Distinct(Ids([c] + cs)) { DistinctTail([c] + cs); }
    if c.id !in open { assert open - {c.id} == open; }
  }

  lemma SetAsideThenOpens(c: Call, cs: seq<Call>, later: seq<Call>, open: set<string>, a: seq<Event>, b: seq<Event>)
    requires PendingIds(open, a) == open + {c.id} && (c.id !in open ==> Paired(open, a))
    requires PrepOpens(cs, later, open + {c.id}, b)
    ensures PrepOpens([c] + cs, [c] + later, open, a + b)
  {
    hide PendingIds, Paired, Distinct, Ids;
    PendingSplit(open, a, b);
    assert ([c] + cs)[1..] == cs && IdSet([c] + cs) == {c.id} + IdSet(cs);
    assert IdSet([c] + later) == {c.id} + IdSet(later);
    if Distinct(Ids([c] + cs)) { DistinctTail([c] + cs); }
  }

  lemma InterruptedCloses(calls: seq<Call>, prep: Prep, got: seq<Message>)
    requires prep.next <= |calls| && Within(prep.runnable, |calls|)
    requires PrepOpens(calls[0..prep.next], CallsAt(calls, prep.runnable), {}, prep.events)
    requires Distinct(Ids(calls)) ==> Distinct(Ids(CallsAt(calls, prep.runnable)))
    ensures var es := Interrupted(calls, prep, got).events;
            PendingIds({}, es) == {} && (Distinct(Ids(calls)) ==> Paired({}, es))
  {
    hide Piece, Distinct, Ids, CallsAt, SkipEvents;
    var waiting, rest := CallsAt(calls, prep.runnable), calls[prep.next..];
    var left := PendingIds({}, prep.events);
    SkipEnds(waiting, false, left);
    SkipEnds(rest, true, {});
    assert left - IdSet(waiting) == {} && {} - IdSet(rest) == {};
    PendingSplit({}, prep.events, SkipEvents(waiting, false));
    PendingSplit({}, prep.events + SkipEvents(waiting, false), SkipEvents(rest, true));
    if Distinct(Ids(calls)) {
      DistinctParts(calls, prep.next);
      SkipPaired(waiting, false, left);
      SkipPaired(rest, true, {});
    }
  }

  lemma DistinctParts(calls: seq<Call>, n: nat)
    requires n <= |calls| && Distinct(Ids(calls))
    ensures Distinct(Ids(calls[0..n])) && Distinct(Ids(calls[n..]))
  {
    assert Ids(calls[0..n]) == Ids(calls)[0..n] && Ids(calls[n..]) == Ids(calls)[n..];
  }

  lemma RanCloses(calls: seq<Call>, inp: PhaseInput, prep: Prep)
    requires prep.next == |calls| && Within(prep.runnable, |calls|)
    requires PrepOpens(calls[0..prep.next], CallsAt(calls, prep.runnable), {}, prep.events)
    requires Distinct(Ids(calls)) ==> Distinct(Ids(CallsAt(calls, prep.runnable)))
    requires Ran(calls, inp, prep).ending.Completed?
    ensures var es := Ran(calls, inp, prep).events;
            PendingIds({}, es) == {} && (Distinct(Ids(calls)) ==> Paired({}, es))
  {
    hide AwaitPoll, RunAll, Piece, Aligned;
    var left := PendingIds({}, prep.events);
    RanPiece(calls, inp, prep.runnable, left);
    var run := RunAll(Jobs(calls, inp.calls, prep.runnable), inp.schedule);
    assert prep.runnable[..|prep.runnable|] == prep.runnable;
    PendingSplit({}, prep.events, run.events);
    assert calls[0..|calls|] == calls;
  }

  lemma RunnableDistinct(cfg: Config, calls: seq<Call>, inp: nat -> CallInput, lo: nat, hi: nat)
    requires lo <= hi <= |calls| && Distinct(Ids(calls))
    ensures var ks := Select(cfg, calls, inp, lo, hi, true);
            Within(ks, |calls|) && Distinct(Ids(CallsAt(calls, ks)))
  {
    SelectIncreasing(cfg, calls, inp, lo, hi, true);
    var ks := Select(cfg, calls, inp, lo, hi, true);
    var ids := Ids(CallsAt(calls, ks));
    forall a, b | 0 <= a < b < |ids| ensures ids[a] != ids[b] {
      assert Ids(calls)[ks[a]] != Ids(calls)[ks[b]];
    }
  }

  predicate Increasing(s: seq<nat>, lo: nat, hi: nat) {
    && (forall j :: 0 <= j < |s| ==> lo <= s[j] < hi)
    && (forall a, b :: 0 <= a < b < |s| ==> s[a] < s[b])
  }

  lemma PrependIncreasing(s: seq<nat>, lo: nat, hi: nat)
    requires lo < hi && Increasing(s, lo + 1, hi)
    ensures Increasing([lo] + s, lo, hi) && Increasing(s, lo, hi)
  {
  }

  lemma {:induction false} SelectIncreasing(cfg: Config, calls: seq<Call>, inp: nat -> CallInput, lo: nat, hi: nat,
                                            prepared: bool)
    requires lo <= hi <= |calls|
    ensures Increasing(Select(cfg, calls, inp, lo, hi, prepared), lo, hi)
    decreases hi - lo
  {
    hide Increasing;
    if lo < hi {
      SelectIncreasing(cfg, calls, inp, lo + 1, hi, prepared);
      PrependIncreasing(Select(cfg, calls, inp, lo + 1, hi, prepared), lo, hi);
    } else {
      NothingIncreasing(lo, hi);
    }
  }

  lemma NothingIncreasing(lo: nat, hi: nat)
    ensures Increasing([], lo, hi)
  {
  }

  /** At the end of every completed phase the Agent's pendingToolCalls set is
      empty again, also when calls share an id; with distinct ids every id is
      open exactly from its start to its end. */
  lemma PhaseCloses(cfg: Config, calls: seq<Call>, inp: PhaseInput, w: World)
    requires Execute(cfg, calls, inp, w).ending.Completed? && WorldFaithful(w)
    ensures var es := Execute(cfg, calls, inp, w).events;
            PendingIds({}, es) == {} && (Distinct(Ids(calls)) ==> Paired({}, es))
  {
    if cfg.mode.Sequentially? {
      SequentialCloses(cfg, calls, inp.calls, 0, w, {});
      assert calls[0..] == calls;
    } else {
      hide AwaitPoll, RunAll, PrepareAll, PrepOpens, Interrupted, Ran;
      var prep := PrepareAll(cfg, calls, inp.calls, 0, w);
      PrepareAllShape(cfg, calls, inp.calls, 0, w);
      PrepareAllOpens(cfg, calls, inp.calls, 0, w, {});
      if Distinct(Ids(calls)) { RunnableDistinct(cfg, calls, inp.calls, 0, prep.next); }
      match prep.ending
      case PrepFailed(_) =>
      case Steered(got) => InterruptedCloses(calls, prep, got);
      case Ready => RanCloses(calls, inp, prep);
    }
  }

  // ----- Which calls run, and in which order results come -----

  /** The documented order, "assistant source order" (types.ts:20-27). */
  predicate SourceOrder(calls: seq<Call>, p: Phase) {
    p.order == Range(0, |calls|)
  }

  /** No call of [lo, hi) that is answered at once follows one that is prepared. */
  predicate ImmediateFirst(cfg: Config, calls: seq<Call>, inp: nat -> CallInput, lo: nat, hi: nat)
    requires hi <= |calls|
  {
    forall a, b :: lo <= a < b < hi && Prepare(cfg.tools, calls[a], inp(a)).Prepared?
                   ==> Prepare(cfg.tools, calls[b], inp(b)).Prepared?
  }

  lemma {:induction false} PartitionIsIdentity(cfg: Config, calls: seq<Call>, inp: nat -> CallInput, lo: nat, hi: nat)
    requires lo <= hi <= |calls|
    ensures Select(cfg, calls, inp, lo, hi, false) + Select(cfg, calls, inp, lo, hi, true) == Range(lo, hi)
            <==> ImmediateFirst(cfg, calls, inp, lo, hi)
    decreases hi - lo
  {
    hide Prepare;
    if lo < hi {
      PartitionIsIdentity(cfg, calls, inp, lo + 1, hi);
      var F, T := Select(cfg, calls, inp, lo + 1, hi, false), Select(cfg, calls, inp, lo + 1, hi, true);
      var R := Range(lo + 1, hi);
      assert Range(lo, hi) == [lo] + R;
      SelectIncreasing(cfg, calls, inp, lo + 1, hi, false);
      if Prepare(cfg.tools, calls[lo], inp(lo)).Immediate? {
        assert [lo] + F + T == [lo] + (F + T);
        assert ([lo] + (F + T))[1..] == F + T && ([lo] + R)[1..] == R;
      } else {
        AllPrepared(cfg, calls, inp, lo + 1, hi);
        if F == [] {
          assert [] + ([lo] + T) == [lo] + ([] + T);
          assert ([lo] + ([] + T))[1..] == [] + T && ([lo] + R)[1..] == R;
        } else {
          assert (F + ([lo] + T))[0] == F[0] > lo;
        }
      }
    }
  }

  lemma {:induction false} AllPrepared(cfg: Config, calls: seq<Call>, inp: nat -> CallInput, lo: nat, hi: nat)
    requires lo <= hi <= |calls|
    ensures Select(cfg, calls, inp, lo, hi, false) == []
            <==> forall k :: lo <= k < hi ==> Prepare(cfg.tools, calls[k], inp(k)).Prepared?
    decreases hi - lo
  {
    if lo < hi { AllPrepared(cfg, calls, inp, lo + 1, hi); }
  }

  lemma TailAside(split: seq<nat>, next: nat, n: nat)
    requires |split| == next <= n
    ensures split + Range(next, n) == Range(0, n) <==> split == Range(0, next)
  {
    assert Range(0, n) == Range(0, next) + Range(next, n);
    assert (split + Range(next, n))[..next] == split;
    assert (Range(0, next) + Range(next, n))[..next] == Range(0, next);
  }

  lemma InterruptedOrder(cfg: Config, calls: seq<Call>, inp: nat -> CallInput, prep: Prep, got: seq<Message>)
    requires PrepShaped(cfg, calls, inp, 0, prep)
    ensures SourceOrder(calls, Interrupted(calls, prep, got)) <==> ImmediateFirst(cfg, calls, inp, 0, prep.next)
  {
    hide Piece, ImmediateFirst, ImmediateResults, Prepare, CallsAt;
    PartitionIsIdentity(cfg, calls, inp, 0, prep.next);
    SelectPartition(cfg, calls, inp, 0, prep.next);
    var split := prep.immediate + prep.runnable;
    assert |multiset(split)| == |multiset(Range(0, prep.next))|;
    TailAside(split, prep.next, |calls|);
  }

  lemma RanOrder(cfg: Config, calls: seq<Call>, inp: PhaseInput, prep: Prep)
    requires PrepShaped(cfg, calls, inp.calls, 0, prep) && prep.ending.Ready?
    requires Ran(calls, inp, prep).ending.Completed?
    ensures SourceOrder(calls, Ran(calls, inp, prep)) <==> ImmediateFirst(cfg, calls, inp.calls, 0, |calls|)
    ensures Ran(calls, inp, prep).order == prep.immediate + prep.runnable
  {
    hide Piece, ImmediateFirst, AwaitPoll, RunAll;
    PartitionIsIdentity(cfg, calls, inp.calls, 0, prep.next);
    RunAllStays(Jobs(calls, inp.calls, prep.runnable), inp.schedule);
    assert prep.runnable[..|prep.runnable|] == prep.runnable;
  }

  /** Source order of a completed phase, by where its preparation loop stopped. */
  lemma SourceOrderByLoop(cfg: Config, calls: seq<Call>, inp: PhaseInput, w: World)
    requires WorldFaithful(w) && Execute(cfg, calls, inp, w).ending.Completed?
    ensures var next := PrepareAll(cfg, calls, inp.calls, 0, w).next;
            next <= |calls|
            && (SourceOrder(calls, Execute(cfg, calls, inp, w))
                <==> (cfg.mode.Sequentially? || ImmediateFirst(cfg, calls, inp.calls, 0, next)))
  {
    hide AwaitPoll, RunAll, PrepareAll, Sequential, ImmediateFirst, Ran, Interrupted, Piece, WorldFollows,
         WorldFaithful;
    var prep := PrepareAll(cfg, calls, inp.calls, 0, w);
    PrepareAllShape(cfg, calls, inp.calls, 0, w);
    if cfg.mode.Sequentially? {
      SequentialShape(cfg, calls, inp.calls, 0, w);
      SequentialComplete(calls, Sequential(cfg, calls, inp.calls, 0, w));
    } else {
      match prep.ending
      case PrepFailed(_) =>
      case Steered(got) => InterruptedOrder(cfg, calls, inp.calls, prep, got);
      case Ready => RanOrder(cfg, calls, inp, prep);
    }
  }

  lemma SequentialComplete(calls: seq<Call>, p: Phase)
    requires Shaped(calls, 0, p) && InSourceOrder(calls, 0, p) && p.ending.Completed?
    ensures SourceOrder(calls, p)
  {
    hide Piece, Aligned;
    assert |multiset(p.order)| == |multiset(Range(0, |calls|))|;
  }

  /** The result of call `k` when it is not skipped, and when it is. */
  predicate Executed(cfg: Config, calls: seq<Call>, inp: nat -> CallInput, k: nat, m: Message)
    requires k < |calls|
  {
    var f := OutcomeOf(cfg.tools, calls[k], inp(k));
    f.Final? && m == ResultMessage(calls[k], f.outcome)
  }

  /** Results `ms` are those of calls `ks`, none skipped. */
  predicate AllExecuted(cfg: Config, calls: seq<Call>, inp: nat -> CallInput, ks: seq<nat>, ms: seq<Message>) {
    && Within(ks, |calls|) && |ms| == |ks|
    && forall j :: 0 <= j < |ks| ==> Executed(cfg, calls, inp, ks[j], ms[j])
  }

  /** A sequential phase executes calls [from, next) and skips the others; `next`
      is the end unless a poll interrupted it. */
  predicate PrefixThenSkips(cfg: Config, calls: seq<Call>, inp: nat -> CallInput, from: nat, next: nat, p: Phase) {
    && from <= next <= |calls| && |p.results| == |calls| - from
    && AllExecuted(cfg, calls, inp, Range(from, next), p.results[..next - from])
    && p.results[next - from..] == Skips(calls[next..])
    && p.ran == Select(cfg, calls, inp, from, next, true)
    && (p.ending == Completed([]) ==> next == |calls|)
  }

  lemma {:induction false} SequentialPrefix(cfg: Config, calls: seq<Call>, inp: nat -> CallInput, i: nat, w: World)
    returns (next: nat)
    requires i <= |calls|
    requires Sequential(cfg, calls, inp, i, w).ending.Completed?
    ensures PrefixThenSkips(cfg, calls, inp, i, next, Sequential(cfg, calls, inp, i, w))
    decreases |calls| - i
  {
    hide AwaitPoll, PrefixThenSkips, ExecuteOne;
    if i == |calls| {
      next := i;
      NothingExecuted(cfg, calls, inp, Sequential(cfg, calls, inp, i, w));
    } else {
      var one := ExecuteOne(cfg, calls, inp, i, w);
      OneExecuted(cfg, calls, inp, i, w);
      var polled := AwaitPoll(w, Steering, inp(i).poll);
      if polled.Heard? && polled.got == [] {
        next := SequentialPrefix(cfg, calls, inp, i + 1, polled.world);
        ThenMore(cfg, calls, inp, i, next, one, Sequential(cfg, calls, inp, i + 1, polled.world));
      } else {
        next := i + 1;
        ThenSkips(cfg, calls, inp, i, one, polled.got, polled.world);
      }
    }
  }

  lemma NothingExecuted(cfg: Config, calls: seq<Call>, inp: nat -> CallInput, p: Phase)
    requires p.results == [] && p.ran == []
    ensures PrefixThenSkips(cfg, calls, inp, |calls|, |calls|, p)
  {
    assert calls[|calls|..] == [];
  }

  /** One call executed: its result and whether its tool ran. */
  predicate DidOne(cfg: Config, calls: seq<Call>, inp: nat -> CallInput, i: nat, p: Phase)
    requires i < |calls|
  {
    && |p.results| == 1 && Executed(cfg, calls, inp, i, p.results[0])
    && p.ran == (if Prepare(cfg.tools, calls[i], inp(i)).Prepared? then [i] else [])
  }

  lemma OneExecuted(cfg: Config, calls: seq<Call>, inp: nat -> CallInput, i: nat, w: World)
    requires i < |calls|
    ensures var one := ExecuteOne(cfg, calls, inp, i, w); one.ending.Completed? ==> DidOne(cfg, calls, inp, i, one)
  {
  }

  lemma ThenMore(cfg: Config, calls: seq<Call>, inp: nat -> CallInput, i: nat, next: nat, one: Phase, rest: Phase)
    requires i < |calls| && DidOne(cfg, calls, inp, i, one)
    requires PrefixThenSkips(cfg, calls, inp, i + 1, next, rest)
    ensures PrefixThenSkips(cfg, calls, inp, i, next, Join(one, rest))
  {
    hide Executed, Prepare;
    var ms := one.results + rest.results;
    assert ms[..next - i] == one.results + rest.results[..next - i - 1];
    assert ms[next - i..] == rest.results[next - i - 1..];
  }

  lemma ThenSkips(cfg: Config, calls: seq<Call>, inp: nat -> CallInput, i: nat, one: Phase, got: seq<Message>, w: World)
    requires i < |calls| && DidOne(cfg, calls, inp, i, one) && got != []
    ensures PrefixThenSkips(cfg, calls, inp, i, i + 1, Join(one, SkipRest(calls, i + 1, got, w)))
  {
    hide Executed;
    assert Select(cfg, calls, inp, i + 1, i + 1, true) == [];
  }

  lemma ImmediateExecuted(cfg: Config, calls: seq<Call>, inp: nat -> CallInput, lo: nat, hi: nat)
    requires lo <= hi <= |calls|
    ensures var ks := Select(cfg, calls, inp, lo, hi, false);
            Within(ks, |calls|) && AllExecuted(cfg, calls, inp, ks, ImmediateResults(cfg, calls, inp, ks))
  {
    SelectWithin(cfg, calls, inp, lo, hi, false);
    var ks := Select(cfg, calls, inp, lo, hi, false);
    forall j | 0 <= j < |ks|
      ensures ks[j] < |calls| && Prepare(cfg.tools, calls[ks[j]], inp(ks[j])).Immediate?
    {
      assert ks[j] in ks;
    }
  }

  lemma RunnableExecuted(cfg: Config, calls: seq<Call>, inp: PhaseInput, lo: nat, hi: nat)
    requires lo <= hi <= |calls|
    ensures var ks := Select(cfg, calls, inp.calls, lo, hi, true);
            && Within(ks, |calls|)
            && var run := RunAll(Jobs(calls, inp.calls, ks), inp.schedule);
            && (run.failed.None? ==> AllExecuted(cfg, calls, inp.calls, ks, run.results))
  {
    SelectWithin(cfg, calls, inp.calls, lo, hi, true);
    var ks := Select(cfg, calls, inp.calls, lo, hi, true);
    forall j | 0 <= j < |ks|
      ensures ks[j] < |calls| && Prepare(cfg.tools, calls[ks[j]], inp.calls(ks[j])).Prepared?
    {
      assert ks[j] in ks;
    }
    hide RunAll;
    var jobs := Jobs(calls, inp.calls, ks);
    ScheduleIndependence(jobs, inp.schedule);
    JobAnswers(jobs, RunAll(jobs, inp.schedule).next);
  }

  /** Parallel mode runs all prepared calls or none.  If no poll of the
      preparation loop was answered, every call is executed and the results are
      the immediate ones followed by the prepared ones, each in source order;
      otherwise no tool runs and every prepared or unreached call is skipped. */
  lemma ParallelAllOrNothing(cfg: Config, calls: seq<Call>, inp: PhaseInput, w: World)
    requires WorldFaithful(w) && Parallel(cfg, calls, inp, w).ending.Completed?
    ensures var p, prep := Parallel(cfg, calls, inp, w), PrepareAll(cfg, calls, inp.calls, 0, w);
            var n := |calls|;
            && Within(prep.runnable, n) && prep.next <= n
            && if prep.ending.Ready? then
                 && p.ran == Select(cfg, calls, inp.calls, 0, n, true)
                 && p.order == Select(cfg, calls, inp.calls, 0, n, false) + Select(cfg, calls, inp.calls, 0, n, true)
                 && AllExecuted(cfg, calls, inp.calls, p.order, p.results)
               else
                 && p.ran == []
                 && p.results == prep.results + Skips(CallsAt(calls, prep.runnable)) + Skips(calls[prep.next..])
                 && AllExecuted(cfg, calls, inp.calls, prep.immediate, prep.results)
  {
    hide AwaitPoll, RunAll, PrepareAll, Piece, AllExecuted;
    var prep := PrepareAll(cfg, calls, inp.calls, 0, w);
    PrepareAllShape(cfg, calls, inp.calls, 0, w);
    ImmediateExecuted(cfg, calls, inp.calls, 0, prep.next);
    if prep.ending.Ready? {
      RanOrder(cfg, calls, inp, prep);
      RunnableExecuted(cfg, calls, inp, 0, |calls|);
      BothExecuted(cfg, calls, inp.calls, prep.immediate, prep.results, prep.runnable,
                   RunAll(Jobs(calls, inp.calls, prep.runnable), inp.schedule).results);
    }
  }

  lemma BothExecuted(cfg: Config, calls: seq<Call>, inp: nat -> CallInput,
                     a: seq<nat>, ms: seq<Message>, b: seq<nat>, ns: seq<Message>)
    ensures AllExecuted(cfg, calls, inp, a, ms) && AllExecuted(cfg, calls, inp, b, ns)
            ==> AllExecuted(cfg, calls, inp, a + b, ms + ns)
  {
    hide Executed;
  }

  /** Parallel refines sequential: when no poll before execution is answered,
      both modes run the same tools and parallel's results are the stable
      partition of sequential's, immediate outcomes first. */
  lemma ParallelRefinesSequential(cfg: Config, calls: seq<Call>, inp: PhaseInput, v: World, w: World)
    requires WorldFaithful(v) && WorldFaithful(w)
    requires Sequential(cfg, calls, inp.calls, 0, v).ending == Completed([])
    requires Parallel(cfg, calls, inp, w).ending.Completed?
    requires PrepareAll(cfg, calls, inp.calls, 0, w).ending.Ready?
    ensures var s, p := Sequential(cfg, calls, inp.calls, 0, v), Parallel(cfg, calls, inp, w);
            && p.ran == s.ran
            && p.order == Select(cfg, calls, inp.calls, 0, |calls|, false)
                          + Select(cfg, calls, inp.calls, 0, |calls|, true)
            && |p.results| == |s.results| == |calls| == |p.order|
            && forall j :: 0 <= j < |p.results| ==> p.order[j] < |calls| && p.results[j] == s.results[p.order[j]]
  {
    hide AwaitPoll, RunAll, PrepareAll, Parallel, Sequential, WorldFaithful;
    var next := SequentialPrefix(cfg, calls, inp.calls, 0, v);
    ParallelAllOrNothing(cfg, calls, inp, w);
    var s, p := Sequential(cfg, calls, inp.calls, 0, v), Parallel(cfg, calls, inp, w);
    assert s.results[..|calls|] == s.results;
    SelectPartition(cfg, calls, inp.calls, 0, |calls|);
    assert |multiset(p.order)| == |multiset(Range(0, |calls|))|;
    forall j | 0 <= j < |p.results|
      ensures p.order[j] < |calls| && p.results[j] == s.results[p.order[j]]
    {
      var k := p.order[j];
      assert Range(0, |calls|)[k] == k;
      assert Executed(cfg, calls, inp.calls, k, s.results[k]);
      assert Executed(cfg, calls, inp.calls, k, p.results[j]);
    }
  }

  function ResultIds(ms: seq<Message>): (ids: seq<string>)
    ensures |ids| == |ms|
  {
    seq(|ms|, j requires 0 <= j < |ms| => if ms[j].ToolResult? then ms[j].callId else "")
  }

  /** With distinct call ids the order shows in the results themselves. */
  lemma SourceOrderIsVisible(calls: seq<Call>, p: Phase)
    requires Shaped(calls, 0, p) && p.ending.Completed? && Distinct(Ids(calls))
    ensures SourceOrder(calls, p) <==> ResultIds(p.results) == Ids(calls)
  {
    hide Piece;
    assert |multiset(p.order)| == |multiset(Range(0, |calls|))|;
    forall j | 0 <= j < |p.order| ensures ResultIds(p.results)[j] == Ids(calls)[p.order[j]] {
      assert Answers(p.results[j], calls[p.order[j]]);
    }
    if ResultIds(p.results) == Ids(calls) {
      forall j | 0 <= j < |calls| ensures p.order[j] == j {
        assert Ids(calls)[p.order[j]] == Ids(calls)[j];
      }
    }
  }

  /** Two schedules of the same phase give the same results, order, ending and
      queues, and the same events apart from tool_execution_update. */
  lemma PhaseIgnoresSchedule(cfg: Config, calls: seq<Call>, a: PhaseInput, b: PhaseInput, w: World)
    requires a.calls == b.calls && a.last == b.last
    ensures var p, q := Parallel(cfg, calls, a, w), Parallel(cfg, calls, b, w);
            && p.results == q.results && p.order == q.order && p.ran == q.ran
            && p.ending == q.ending && p.world == q.world
            && StripUpdates(p.events) == StripUpdates(q.events)
  {
    hide AwaitPoll, RunAll, PrepareAll;
    PrepareAllStays(cfg, calls, a.calls, 0, w);
    var prep := PrepareAll(cfg, calls, a.calls, 0, w);
    var jobs := Jobs(calls, a.calls, prep.runnable);
    ScheduleIndependence(jobs, a.schedule);
    ScheduleIndependence(jobs, b.schedule);
    StripSplit(prep.events, RunAll(jobs, a.schedule).events);
    StripSplit(prep.events, RunAll(jobs, b.schedule).events);
  }

  /** A call reaches its tool exactly when the tool exists, its arguments are valid
      and the hook neither blocks nor throws. */
  predicate Reaches(tools: set<string>, c: Call, x: CallInput) {
    c.name in tools && x.validation.Valid? && x.before.Allow?
  }

  /** When a call's result is an error: it never reached its tool, or the hook after
      it says so, or the hook says nothing and the tool threw.  Only that hook can
      turn a tool's exception into a success, and only its own exception escapes. */
  lemma ErrorExactlyWhen(tools: set<string>, c: Call, x: CallInput)
    ensures var out := OutcomeOf(tools, c, x);
            && (out.FinalThrows? <==> Reaches(tools, c, x) && x.after.AfterThrows?)
            && (out.Final? ==>
                  (out.outcome.isError <==>
                     !Reaches(tools, c, x)
                     || (if x.after.Override? && x.after.isError.Some? then x.after.isError.value
                         else x.execution.ToolThrows?)))
  {
  }
}
