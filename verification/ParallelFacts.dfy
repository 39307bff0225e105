/** Parallel mode: preparation partitions the calls, and the concurrent part
    comes to the same results and the same committed events under every
    schedule. */
module ParallelFacts {
  import opened Messages
  import opened Events
  import opened Queues
  import opened ToolPhase
  import opened ToolPhaseFacts

  // ----- Preparation -----

  /** The calls of [lo, hi) whose preparation is, or is not, immediate. */
  function Select(cfg: Config, calls: seq<Call>, inp: nat -> CallInput, lo: nat, hi: nat, prepared: bool): seq<nat>
    requires lo <= hi <= |calls|
    decreases hi - lo
  {
    if lo == hi then []
    else if Prepare(cfg.tools, calls[lo], inp(lo)).Prepared? == prepared
    then [lo] + Select(cfg, calls, inp, lo + 1, hi, prepared)
    else Select(cfg, calls, inp, lo + 1, hi, prepared)
  }

  lemma {:induction false} SelectWithin(cfg: Config, calls: seq<Call>, inp: nat -> CallInput, lo: nat, hi: nat,
                                        prepared: bool)
    requires lo <= hi <= |calls|
    ensures forall k :: k in Select(cfg, calls, inp, lo, hi, prepared) ==>
              lo <= k < hi && Prepare(cfg.tools, calls[k], inp(k)).Prepared? == prepared
    decreases hi - lo
  {
    if lo < hi { SelectWithin(cfg, calls, inp, lo + 1, hi, prepared); }
  }

  lemma OneInFront(x: nat, a: seq<nat>, b: seq<nat>, c: seq<nat>)
    requires multiset(a) + multiset(b) == multiset(c)
    ensures multiset([x] + a) + multiset(b) == multiset([x] + c) == multiset(a) + multiset([x] + b)
  {
    assert multiset([x] + a) == multiset{x} + multiset(a);
    assert multiset([x] + b) == multiset{x} + multiset(b);
    assert multiset([x] + c) == multiset{x} + multiset(c);
  }

  lemma SelectUnfolds(cfg: Config, calls: seq<Call>, inp: nat -> CallInput, lo: nat, hi: nat)
    requires lo < hi <= |calls|
    ensures Range(lo, hi) == [lo] + Range(lo + 1, hi)
    ensures var no, yes := Select(cfg, calls, inp, lo + 1, hi, false), Select(cfg, calls, inp, lo + 1, hi, true);
            || (Select(cfg, calls, inp, lo, hi, false) == [lo] + no && Select(cfg, calls, inp, lo, hi, true) == yes)
            || (Select(cfg, calls, inp, lo, hi, false) == no && Select(cfg, calls, inp, lo, hi, true) == [lo] + yes)
  {
    hide Prepare;
  }

  lemma NothingSelected(cfg: Config, calls: seq<Call>, inp: nat -> CallInput, lo: nat)
    requires lo <= |calls|
    ensures Select(cfg, calls, inp, lo, lo, false) == [] == Select(cfg, calls, inp, lo, lo, true)
    ensures Range(lo, lo) == []
  {
  }

  /** Every call of the range is selected once, on one side or the other. */
  lemma {:induction false} SelectPartition(cfg: Config, calls: seq<Call>, inp: nat -> CallInput, lo: nat, hi: nat)
    requires lo <= hi <= |calls|
    ensures multiset(Select(cfg, calls, inp, lo, hi, false)) + multiset(Select(cfg, calls, inp, lo, hi, true))
         == multiset(Range(lo, hi))
    decreases hi - lo
  {
    hide Prepare, Select;
    if lo < hi {
      SelectPartition(cfg, calls, inp, lo + 1, hi);
      SelectUnfolds(cfg, calls, inp, lo, hi);
      OneInFront(lo, Select(cfg, calls, inp, lo + 1, hi, false), Select(cfg, calls, inp, lo + 1, hi, true),
        Range(lo + 1, hi));
    } else {
      NothingSelected(cfg, calls, inp, lo);
    }
  }

  /** Results of the immediate calls `ks`. */
  function ImmediateResults(cfg: Config, calls: seq<Call>, inp: nat -> CallInput, ks: seq<nat>): (ms: seq<Message>)
    requires Within(ks, |calls|)
    ensures |ms| == |ks|
  {
    seq(|ks|, j requires 0 <= j < |ks| =>
      match Prepare(cfg.tools, calls[ks[j]], inp(ks[j]))
      case Immediate(o) => ResultMessage(calls[ks[j]], o)
      case Prepared => ResultMessage(calls[ks[j]], SKIPPED))
  }

  lemma ImmediateResultsAppend(cfg: Config, calls: seq<Call>, inp: nat -> CallInput, a: seq<nat>, b: seq<nat>)
    requires Within(a, |calls|) && Within(b, |calls|)
    ensures Within(a + b, |calls|)
    ensures ImmediateResults(cfg, calls, inp, a + b)
         == ImmediateResults(cfg, calls, inp, a) + ImmediateResults(cfg, calls, inp, b)
    ensures CallsAt(calls, a + b) == CallsAt(calls, a) + CallsAt(calls, b)
  {
  }

  predicate PrepShaped(cfg: Config, calls: seq<Call>, inp: nat -> CallInput, i: nat, p: Prep) {
    && i <= p.next <= |calls| && (p.ending.Ready? ==> p.next == |calls|)
    && p.immediate == Select(cfg, calls, inp, i, p.next, false)
    && p.runnable == Select(cfg, calls, inp, i, p.next, true)
    && Within(p.immediate, |calls|) && Within(p.runnable, |calls|)
    && p.results == ImmediateResults(cfg, calls, inp, p.immediate)
    && Piece(p.events, calls[i..p.next], CallsAt(calls, p.immediate), p.results)
  }

  predicate PrepFollows(w: World, p: Prep) {
    var got := if p.ending.Steered? then p.ending.got else [];
    && WorldFaithful(p.world)
    && Got(p.world.polls) == Got(w.polls) + got
    && PolledOnly(w.polls, p.world.polls, got)
    && (p.ending.Steered? ==> got != [])
  }

  lemma PrepareStepShape(cfg: Config, calls: seq<Call>, inp: nat -> CallInput, i: nat, w: World, open: set<string>)
    requires i < |calls|
    ensures var p := PrepareStep(cfg, calls, inp, i, w);
            && p.next == i + 1
            && PrepShaped(cfg, calls, inp, i, p.(ending := Steered([])))
            && PendingIds(open, p.events) == (if p.runnable == [] then open - {calls[i].id} else open + {calls[i].id})
            && (calls[i].id !in open ==> Paired(open, p.events))
  {
    hide AwaitPoll;
    var c := calls[i];
    var p := PrepareStep(cfg, calls, inp, i, w);
    assert Select(cfg, calls, inp, i + 1, i + 1, true) == [] == Select(cfg, calls, inp, i + 1, i + 1, false);
    assert calls[i..i + 1] == [c];
    assert CallsAt(calls, []) == [] && CallsAt(calls, [i]) == [c];
    match Prepare(cfg.tools, c, inp(i))
    case Immediate(o) =>
      OneCallPiece(c, [], o, open);
      assert [ToolStart(c)] + [] + Emit(c, o) == [ToolStart(c)] + Emit(c, o);
      assert ImmediateResults(cfg, calls, inp, [i]) == [ResultMessage(c, o)];
    case Prepared =>
      StartPiece(c, open);
      assert ImmediateResults(cfg, calls, inp, []) == [];
  }

  lemma PrepareStepFollows(cfg: Config, calls: seq<Call>, inp: nat -> CallInput, i: nat, w: World)
    requires i < |calls| && WorldFaithful(w)
    ensures PrepFollows(w, PrepareStep(cfg, calls, inp, i, w))
  {
    hide AwaitPoll, WorldFaithful, PolledOnly, Got;
    AwaitSteering(w, inp(i).poll);
  }

  lemma JoinPrepShaped(cfg: Config, calls: seq<Call>, inp: nat -> CallInput, i: nat, a: Prep, b: Prep)
    requires i < |calls| && a.next == i + 1 && PrepShaped(cfg, calls, inp, i, a.(ending := Steered([])))
    requires PrepShaped(cfg, calls, inp, i + 1, b)
    ensures PrepShaped(cfg, calls, inp, i, JoinPrep(a, b))
  {
    hide Piece, ImmediateResults, Prepare;
    var imm := a.immediate + b.immediate;
    assert Select(cfg, calls, inp, i + 1, i + 1, true) == [] == Select(cfg, calls, inp, i + 1, i + 1, false);
    ImmediateResultsAppend(cfg, calls, inp, a.immediate, b.immediate);
    assert calls[i..b.next] == calls[i..i + 1] + calls[i + 1..b.next];
    JoinPieces(a.events, calls[i..i + 1], CallsAt(calls, a.immediate), a.results,
               b.events, calls[i + 1..b.next], CallsAt(calls, b.immediate), b.results,
               calls[i..b.next], CallsAt(calls, imm), a.results + b.results);
  }

  lemma JoinPrepFollows(w: World, a: Prep, b: Prep)
    requires PrepFollows(w, a) && a.ending.Ready? && PrepFollows(a.world, b)
    ensures PrepFollows(w, JoinPrep(a, b))
  {
    hide WorldFaithful, Got, PolledOnly;
    PolledThen(w.polls, a.world.polls, b.world.polls, if b.ending.Steered? then b.ending.got else []);
  }

  /** The preparation loop: it stops at the first poll that returns something;
      up to there every call was started, and answered at once or set aside. */
  lemma {:induction false} PrepareAllShape(cfg: Config, calls: seq<Call>, inp: nat -> CallInput, i: nat, w: World)
    requires i <= |calls| && WorldFaithful(w)
    ensures var p := PrepareAll(cfg, calls, inp, i, w);
            PrepShaped(cfg, calls, inp, i, p) && PrepFollows(w, p)
    decreases |calls| - i
  {
    hide PrepareStep;
    if i == |calls| {
      NoPolls(w);
      assert CallsAt(calls, []) == [] && ImmediateResults(cfg, calls, inp, []) == [];
    } else {
      PrepareStepShape(cfg, calls, inp, i, w, {});
      PrepareStepFollows(cfg, calls, inp, i, w);
      PrepareAllGoesOn(cfg, calls, inp, i, w);
    }
  }

  lemma {:induction false} PrepareAllGoesOn(cfg: Config, calls: seq<Call>, inp: nat -> CallInput, i: nat, w: World)
    requires i < |calls| && WorldFaithful(w)
    requires var p := PrepareStep(cfg, calls, inp, i, w);
             p.next == i + 1 && PrepShaped(cfg, calls, inp, i, p.(ending := Steered([]))) && PrepFollows(w, p)
    ensures var p := PrepareAll(cfg, calls, inp, i, w);
            PrepShaped(cfg, calls, inp, i, p) && PrepFollows(w, p)
    decreases |calls| - i, 0
  {
    var p := PrepareStep(cfg, calls, inp, i, w);
    if p.ending.Ready? {
      hide PrepareStep, PrepShaped, PrepFollows, JoinPrep;
      assert WorldFaithful(p.world) by { FollowsFaithful(w, p); }
      PrepareAllShape(cfg, calls, inp, i + 1, p.world);
      var rest := PrepareAll(cfg, calls, inp, i + 1, p.world);
      JoinPrepShaped(cfg, calls, inp, i, p, rest);
      JoinPrepFollows(w, p, rest);
    }
  }

  lemma FollowsFaithful(w: World, p: Prep)
    requires PrepFollows(w, p)
    ensures WorldFaithful(p.world)
  {
  }

  // ----- Concurrent execution -----

  function JobCalls(jobs: seq<Job>): (cs: seq<Call>)
    ensures |cs| == |jobs| && forall j :: 0 <= j < |jobs| ==> cs[j] == jobs[j].call
  {
    seq(|jobs|, j requires 0 <= j < |jobs| => jobs[j].call)
  }

  /** How many jobs come before the first whose afterToolCall throws. */
  function BeforeFailure(jobs: seq<Job>): nat {
    if jobs == [] || jobs[0].final.FinalThrows? then 0 else 1 + BeforeFailure(jobs[1..])
  }

  /** Results and committed events of the first `n` jobs, from their outcomes alone. */
  function JobResults(jobs: seq<Job>, n: nat): (ms: seq<Message>)
    requires n <= BeforeFailure(jobs)
    ensures |ms| == n
  {
    if n == 0 then [] else [ResultMessage(jobs[0].call, jobs[0].final.outcome)] + JobResults(jobs[1..], n - 1)
  }

  function JobEvents(jobs: seq<Job>, n: nat): seq<Event>
    requires n <= BeforeFailure(jobs)
  {
    if n == 0 then [] else Emit(jobs[0].call, jobs[0].final.outcome) + JobEvents(jobs[1..], n - 1)
  }

  lemma {:induction false} BeforeFailureFacts(jobs: seq<Job>)
    ensures BeforeFailure(jobs) <= |jobs|
    ensures forall j :: 0 <= j < BeforeFailure(jobs) ==> jobs[j].final.Final?
    ensures BeforeFailure(jobs) < |jobs| ==> jobs[BeforeFailure(jobs)].final.FinalThrows?
  {
    if jobs != [] && jobs[0].final.Final? {
      BeforeFailureFacts(jobs[1..]);
      assert forall j :: 1 <= j < BeforeFailure(jobs) ==> jobs[j] == jobs[1..][j - 1];
    }
  }

  lemma {:induction false} OneMoreJob(jobs: seq<Job>, n: nat)
    requires n < BeforeFailure(jobs)
    ensures n < |jobs| && jobs[n].final.Final?
    ensures JobResults(jobs, n + 1) == JobResults(jobs, n) + [ResultMessage(jobs[n].call, jobs[n].final.outcome)]
    ensures JobEvents(jobs, n + 1) == JobEvents(jobs, n) + Emit(jobs[n].call, jobs[n].final.outcome)
    decreases n
  {
    hide Emit, ResultMessage;
    BeforeFailureFacts(jobs);
    if n > 0 {
      var tail, c, o := jobs[1..], jobs[0].call, jobs[0].final.outcome;
      OneMoreJob(tail, n - 1);
      assert tail[n - 1] == jobs[n];
      var m, e := ResultMessage(jobs[n].call, jobs[n].final.outcome), Emit(jobs[n].call, jobs[n].final.outcome);
      assert [ResultMessage(c, o)] + (JobResults(tail, n - 1) + [m])
        == [ResultMessage(c, o)] + JobResults(tail, n - 1) + [m];
      assert Emit(c, o) + (JobEvents(tail, n - 1) + e) == Emit(c, o) + JobEvents(tail, n - 1) + e;
    } else {
      assert JobResults(jobs[1..], 0) == [] && JobEvents(jobs[1..], 0) == [];
    }
  }

  /** What holds between any two steps of the concurrent part. */
  predicate InStep(jobs: seq<Job>, r: Running) {
    && r.next <= BeforeFailure(jobs)
    && r.results == JobResults(jobs, r.next)
    && StripUpdates(r.events) == JobEvents(jobs, r.next)
    && (r.failed.Some? ==> r.next == BeforeFailure(jobs) < |jobs|
                           && jobs[r.next].final == FinalThrows(r.failed.value))
  }

  lemma EmitIsCommitted(c: Call, o: Outcome)
    ensures StripUpdates(Emit(c, o)) == Emit(c, o)
  {
    assert Emit(c, o)[1..][1..][1..] == [];
    assert StripUpdates(Emit(c, o)[1..][1..]) == Emit(c, o)[1..][1..];
  }

  lemma FinalizeInStep(jobs: seq<Job>, r: Running)
    requires InStep(jobs, r) && r.failed.None? && r.next < |jobs|
    ensures InStep(jobs, FinalizeNext(jobs, r))
  {
    BeforeFailureFacts(jobs);
    var job := jobs[r.next];
    if job.final.Final? {
      OneMoreJob(jobs, r.next);
      StripSplit(r.events, Emit(job.call, job.final.outcome));
      EmitIsCommitted(job.call, job.final.outcome);
    }
  }

  lemma StepInStep(jobs: seq<Job>, r: Running, s: Sched)
    requires InStep(jobs, r)
    ensures InStep(jobs, RunStep(jobs, r, s))
  {
    match s
    case Update(k, partial) =>
      if k < |jobs| {
        StripSplit(r.events, [ToolUpdate(jobs[k].call, partial)]);
        assert StripUpdates([ToolUpdate(jobs[k].call, partial)]) == [];
      }
    case Settles(_) =>
    case Resume =>
      if r.failed.None? && r.next < |jobs| { FinalizeInStep(jobs, r); }
  }

  lemma {:induction false} ScheduleInStep(jobs: seq<Job>, r: Running, schedule: seq<Sched>)
    requires InStep(jobs, r)
    ensures InStep(jobs, RunSchedule(jobs, r, schedule))
    decreases |schedule|
  {
    if schedule != [] {
      StepInStep(jobs, r, schedule[0]);
      ScheduleInStep(jobs, RunStep(jobs, r, schedule[0]), schedule[1..]);
    }
  }

  lemma {:induction false} FinishInStep(jobs: seq<Job>, r: Running)
    requires r.next <= |jobs| && InStep(jobs, r)
    ensures var f := FinishAll(jobs, r); InStep(jobs, f) && (f.failed.Some? || f.next == |jobs|)
    decreases |jobs| - r.next, r.failed.None?
  {
    if r.failed.None? && r.next < |jobs| {
      FinalizeInStep(jobs, r);
      FinishInStep(jobs, FinalizeNext(jobs, r));
    }
  }

  /** Schedule independence: under every schedule the concurrent part stops at
      the same job, with the same results and the same committed events, all
      given by the jobs' outcomes; only update events differ. */
  lemma ScheduleIndependence(jobs: seq<Job>, schedule: seq<Sched>)
    ensures var r := RunAll(jobs, schedule);
            && r.next == BeforeFailure(jobs) <= |jobs|
            && r.results == JobResults(jobs, r.next)
            && StripUpdates(r.events) == JobEvents(jobs, r.next)
            && (r.failed.None? <==> r.next == |jobs|)
            && (r.failed.Some? ==> jobs[r.next].final == FinalThrows(r.failed.value))
  {
    ScheduleStaysInside(jobs, IDLE, schedule);
    ScheduleInStep(jobs, IDLE, schedule);
    FinishInStep(jobs, RunSchedule(jobs, IDLE, schedule));
    BeforeFailureFacts(jobs);
  }

  /** Readings of a log that update events cannot change. */
  lemma {:induction false} UpdatesChangeNothing(es: seq<Event>, open: set<string>)
    ensures Transcript(StripUpdates(es)) == Transcript(es)
    ensures StartedCalls(StripUpdates(es)) == StartedCalls(es)
    ensures EndedCalls(StripUpdates(es)) == EndedCalls(es)
    ensures PendingIds(open, StripUpdates(es)) == PendingIds(open, es)
    ensures Paired(open, StripUpdates(es)) == Paired(open, es)
    decreases |es|
  {
    if es != [] { UpdatesChangeNothing(es[1..], UpdatePending(open, es[0])); }
  }

  lemma JobEventsUnfold(jobs: seq<Job>, n: nat)
    requires 0 < n <= BeforeFailure(jobs) && n <= |jobs|
    ensures jobs[0].final.Final? && n - 1 <= BeforeFailure(jobs[1..])
    ensures var c, o := jobs[0].call, jobs[0].final.outcome;
            && JobEvents(jobs, n) == Emit(c, o) + JobEvents(jobs[1..], n - 1)
            && JobResults(jobs, n) == [ResultMessage(c, o)] + JobResults(jobs[1..], n - 1)
            && JobCalls(jobs)[..n] == [c] + JobCalls(jobs[1..])[..n - 1]
  {
  }

  lemma {:induction false} JobEventsPiece(jobs: seq<Job>, n: nat, open: set<string>)
    requires n <= BeforeFailure(jobs) && n <= |jobs|
    ensures Piece(JobEvents(jobs, n), [], JobCalls(jobs)[..n], JobResults(jobs, n))
    ensures PendingIds(open, JobEvents(jobs, n)) == open - IdSet(JobCalls(jobs)[..n])
    ensures Distinct(Ids(JobCalls(jobs)[..n])) && IdSet(JobCalls(jobs)[..n]) <= open
            ==> Paired(open, JobEvents(jobs, n))
    decreases n
  {
    var cs := JobCalls(jobs)[..n];
    if n == 0 {
      assert cs == [] && IdSet(cs) == {};
    } else {
      JobEventsUnfold(jobs, n);
      hide Piece, Emit, JobEvents, JobResults, JobCalls, BeforeFailure, PendingIds, Paired, Distinct, Ids;
      var c, o, rest := jobs[0].call, jobs[0].final.outcome, JobCalls(jobs[1..])[..n - 1];
      JobEventsPiece(jobs[1..], n - 1, open - {c.id});
      EmitPiece(c, o, open);
      JoinPieces(Emit(c, o), [], [c], [ResultMessage(c, o)],
                 JobEvents(jobs[1..], n - 1), [], rest, JobResults(jobs[1..], n - 1),
                 [], cs, JobResults(jobs, n));
      PendingSplit(open, Emit(c, o), JobEvents(jobs[1..], n - 1));
      IdSetOf(cs, c, rest);
      if Distinct(Ids(cs)) { DistinctTail(cs); }
    }
  }

  lemma IdSetOf(cs: seq<Call>, c: Call, rest: seq<Call>)
    requires cs == [c] + rest
    ensures cs[1..] == rest && IdSet(cs) == {c.id} + IdSet(rest)
  {
    assert cs[1..] == rest;
  }

  /** Update events never fall inside a message, so brackets hold under every
      schedule too. */
  predicate Bracketed(r: Running) { Scan(InTurn, r.events) == InTurn }

  lemma FinalizeBracketed(jobs: seq<Job>, r: Running)
    requires Bracketed(r) && r.next < |jobs|
    ensures Bracketed(FinalizeNext(jobs, r))
  {
    var job := jobs[r.next];
    if job.final.Final? {
      EmitPiece(job.call, job.final.outcome, {});
      ScanSplit(InTurn, r.events, Emit(job.call, job.final.outcome));
    }
  }

  lemma {:induction false} ScheduleBracketed(jobs: seq<Job>, r: Running, schedule: seq<Sched>)
    requires Bracketed(r)
    ensures Bracketed(RunSchedule(jobs, r, schedule))
    decreases |schedule|
  {
    if schedule != [] {
      var s := schedule[0];
      if s.Update? && s.k < |jobs| {
        ScanSplit(InTurn, r.events, [ToolUpdate(jobs[s.k].call, s.partial)]);
        assert Scan(InTurn, [ToolUpdate(jobs[s.k].call, s.partial)]) == InTurn;
      }
      if s.Resume? && r.next < |jobs| { FinalizeBracketed(jobs, r); }
      ScheduleBracketed(jobs, RunStep(jobs, r, s), schedule[1..]);
    }
  }

  lemma {:induction false} FinishBracketed(jobs: seq<Job>, r: Running)
    requires r.next <= |jobs| && Bracketed(r)
    ensures Bracketed(FinishAll(jobs, r))
    decreases |jobs| - r.next, r.failed.None?
  {
    if r.failed.None? && r.next < |jobs| {
      FinalizeBracketed(jobs, r);
      FinishBracketed(jobs, FinalizeNext(jobs, r));
    }
  }

  lemma RunAllPiece(jobs: seq<Job>, schedule: seq<Sched>, open: set<string>)
    ensures var r := RunAll(jobs, schedule);
            && r.next <= |jobs|
            && Piece(r.events, [], JobCalls(jobs)[..r.next], r.results)
            && PendingIds(open, r.events) == open - IdSet(JobCalls(jobs)[..r.next])
            && (Distinct(Ids(JobCalls(jobs)[..r.next])) && IdSet(JobCalls(jobs)[..r.next]) <= open
               ==> Paired(open, r.events))
  {
    var r := RunAll(jobs, schedule);
    ScheduleIndependence(jobs, schedule);
    JobEventsPiece(jobs, r.next, open);
    UpdatesChangeNothing(r.events, open);
    ScheduleStaysInside(jobs, IDLE, schedule);
    ScheduleBracketed(jobs, IDLE, schedule);
    FinishBracketed(jobs, RunSchedule(jobs, IDLE, schedule));
  }
}
