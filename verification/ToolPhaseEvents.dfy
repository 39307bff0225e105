/** What the events of a tool phase carry: each end with its result, and the progress
    reports (packages/pi-agent-core/src/agent-loop.ts:390-707). */
module ToolPhaseEvents {
  import opened Messages
  import opened Events
  import opened Queues
  import opened ToolPhase

  // ----- Every end is followed by its result -----

  /** At `k`: a tool_execution_end is followed at once by the start and the end of one
      tool result, with the id and name of its call and the same content, details and
      error flag. */
  predicate EchoedAt(es: seq<Event>, k: nat)
    requires k < |es|
  {
    es[k].ToolEnd? ==>
      && k + 2 < |es| && es[k + 1].MessageStart? && es[k + 2].MessageEnd?
      && es[k + 1].message == es[k + 2].message
      && var m := es[k + 2].message;
      && m.ToolResult? && m.callId == es[k].call.id && m.toolName == es[k].call.name
      && m.outcome.content == es[k].outcome.content && m.outcome.details == es[k].outcome.details
      && m.outcome.isError == es[k].outcome.isError
  }

  predicate Echoed(es: seq<Event>) {
    forall k :: 0 <= k < |es| ==> EchoedAt(es, k)
  }

  lemma EchoedJoin(a: seq<Event>, b: seq<Event>)
    requires Echoed(a) && Echoed(b)
    ensures Echoed(a + b)
  {
    var es := a + b;
    forall k | 0 <= k < |es| ensures EchoedAt(es, k) {
      if k < |a| {
        assert EchoedAt(a, k);
      } else {
        assert EchoedAt(b, k - |a|) && es[k] == b[k - |a|];
      }
    }
  }

  /** Something that happens inside a turn. */
  predicate Inner(e: Event) {
    !e.AgentStart? && !e.AgentEnd? && !e.TurnStart? && !e.TurnEnd?
  }

  /** Events inside a turn, each end followed by its result. */
  predicate Proper(es: seq<Event>) {
    Echoed(es) && forall k :: 0 <= k < |es| ==> Inner(es[k])
  }

  lemma ProperJoin(a: seq<Event>, b: seq<Event>)
    requires Proper(a) && Proper(b)
    ensures Proper(a + b)
  {
    hide Echoed;
    EchoedJoin(a, b);
  }

  lemma NothingProper()
    ensures Proper([])
  {
  }

  lemma {:induction false} UpdatesProper(c: Call, partials: seq<string>)
    ensures Proper(Updates(c, partials))
  {
    hide Proper;
    if partials == [] {
      NothingProper();
    } else {
      UpdatesProper(c, partials[1..]);
      OneProper(ToolUpdate(c, partials[0]));
      ProperJoin([ToolUpdate(c, partials[0])], Updates(c, partials[1..]));
    }
  }

  lemma OneProper(e: Event)
    requires !e.ToolEnd? && Inner(e)
    ensures Proper([e])
  {
  }

  lemma EmitProper(c: Call, o: Outcome)
    ensures Proper(Emit(c, o))
  {
  }

  lemma {:induction false} SkipsProper(cs: seq<Call>, emitStart: bool)
    ensures Proper(SkipEvents(cs, emitStart))
  {
    hide Emit, Proper;
    if cs == [] {
      NothingProper();
    } else {
      EmitProper(cs[0], SKIPPED);
      SkipsProper(cs[1..], emitStart);
      OneProper(ToolStart(cs[0]));
      NothingProper();
      ProperJoin(if emitStart then [ToolStart(cs[0])] else [], Emit(cs[0], SKIPPED));
      ProperJoin((if emitStart then [ToolStart(cs[0])] else []) + Emit(cs[0], SKIPPED), SkipEvents(cs[1..], emitStart));
    }
  }

  lemma ExecuteOneProper(cfg: Config, calls: seq<Call>, inp: nat -> CallInput, i: nat, w: World)
    requires i < |calls|
    ensures Proper(ExecuteOne(cfg, calls, inp, i, w).events)
  {
    hide Emit, Proper, OutcomeOf, Prepare, Updates;
    var c, x := calls[i], inp(i);
    var updates := if Prepare(cfg.tools, c, x).Prepared? then Updates(c, x.updates) else [];
    NothingProper();
    UpdatesProper(c, x.updates);
    OneProper(ToolStart(c));
    ProperJoin([ToolStart(c)], updates);
    match OutcomeOf(cfg.tools, c, x)
    case FinalThrows(_) =>
    case Final(o) =>
      EmitProper(c, o);
      ProperJoin([ToolStart(c)] + updates, Emit(c, o));
  }

  lemma {:induction false} SequentialProper(cfg: Config, calls: seq<Call>, inp: nat -> CallInput, i: nat, w: World)
    requires i <= |calls|
    ensures Proper(Sequential(cfg, calls, inp, i, w).events)
    decreases |calls| - i
  {
    hide ExecuteOne, AwaitPoll, Proper, SkipEvents;
    if i == |calls| {
      NothingProper();
    } else {
      ExecuteOneProper(cfg, calls, inp, i, w);
      var one := ExecuteOne(cfg, calls, inp, i, w);
      var polled := AwaitPoll(w, Steering, inp(i).poll);
      if one.ending.Completed? && polled.Heard? {
        SkipsProper(calls[i + 1..], true);
        ProperJoin(one.events, SkipEvents(calls[i + 1..], true));
        SequentialProper(cfg, calls, inp, i + 1, polled.world);
        ProperJoin(one.events, Sequential(cfg, calls, inp, i + 1, polled.world).events);
      }
    }
  }

  lemma PrepareOneProper(cfg: Config, calls: seq<Call>, inp: nat -> CallInput, i: nat, w: World)
    requires i < |calls|
    ensures Proper(PrepareOne(cfg, calls, inp, i, w).events)
  {
    hide Emit, Proper, Prepare;
    OneProper(ToolStart(calls[i]));
    match Prepare(cfg.tools, calls[i], inp(i))
    case Immediate(o) =>
      EmitProper(calls[i], o);
      ProperJoin([ToolStart(calls[i])], Emit(calls[i], o));
    case Prepared =>
  }

  lemma {:induction false} PrepareAllProper(cfg: Config, calls: seq<Call>, inp: nat -> CallInput, i: nat, w: World)
    requires i <= |calls|
    ensures Proper(PrepareAll(cfg, calls, inp, i, w).events)
    decreases |calls| - i
  {
    hide PrepareOne, AwaitPoll, Proper;
    if i == |calls| {
      NothingProper();
    } else {
      PrepareOneProper(cfg, calls, inp, i, w);
      var p := PrepareStep(cfg, calls, inp, i, w);
      if p.ending.Ready? {
        PrepareAllProper(cfg, calls, inp, i + 1, p.world);
        ProperJoin(p.events, PrepareAll(cfg, calls, inp, i + 1, p.world).events);
      }
    }
  }

  lemma FinalizeProper(jobs: seq<Job>, r: Running)
    requires r.next < |jobs| && Proper(r.events)
    ensures Proper(FinalizeNext(jobs, r).events)
  {
    hide Emit, Proper;
    match jobs[r.next].final
    case Final(o) =>
      EmitProper(jobs[r.next].call, o);
      ProperJoin(r.events, Emit(jobs[r.next].call, o));
    case FinalThrows(_) =>
  }

  lemma {:induction false} ScheduleProper(jobs: seq<Job>, r: Running, schedule: seq<Sched>)
    requires Proper(r.events)
    ensures Proper(RunSchedule(jobs, r, schedule).events)
    decreases |schedule|
  {
    hide Proper, FinalizeNext;
    if schedule != [] {
      var s := schedule[0];
      if s.Update? && s.k < |jobs| {
        OneProper(ToolUpdate(jobs[s.k].call, s.partial));
        ProperJoin(r.events, [ToolUpdate(jobs[s.k].call, s.partial)]);
      }
      if r.next < |jobs| { FinalizeProper(jobs, r); }
      ScheduleProper(jobs, RunStep(jobs, r, s), schedule[1..]);
    }
  }

  lemma {:induction false} FinishProper(jobs: seq<Job>, r: Running)
    requires r.next <= |jobs| && Proper(r.events)
    ensures Proper(FinishAll(jobs, r).events)
    decreases |jobs| - r.next, r.failed.None?
  {
    hide Proper, FinalizeNext;
    if r.failed.None? && r.next < |jobs| {
      FinalizeProper(jobs, r);
      OneFurther(jobs, r);
      FinishProper(jobs, FinalizeNext(jobs, r));
    }
  }

  lemma OneFurther(jobs: seq<Job>, r: Running)
    requires r.next < |jobs| && r.failed.None?
    ensures var q := FinalizeNext(jobs, r); q.next == r.next + 1 || (q.next == r.next && q.failed.Some?)
  {
  }

  lemma RunAllProper(jobs: seq<Job>, schedule: seq<Sched>)
    ensures Proper(RunAll(jobs, schedule).events)
  {
    hide Proper;
    NothingProper();
    ScheduleStaysInside(jobs, IDLE, schedule);
    ScheduleProper(jobs, IDLE, schedule);
    FinishProper(jobs, RunSchedule(jobs, IDLE, schedule));
  }

  /** In every phase, in both modes, under every schedule, and also when it fails: each
      tool_execution_end is followed at once by the message of its result, which says the
      same; and nothing but messages and tool events is emitted. */
  lemma EndsAreEchoed(cfg: Config, calls: seq<Call>, inp: PhaseInput, w: World)
    ensures Proper(Execute(cfg, calls, inp, w).events)
  {
    hide Proper, Sequential, PrepareAll, RunAll, AwaitPoll, SkipEvents;
    if cfg.mode.Sequentially? {
      SequentialProper(cfg, calls, inp.calls, 0, w);
    } else {
      var prep := PrepareAll(cfg, calls, inp.calls, 0, w);
      PrepareAllStays(cfg, calls, inp.calls, 0, w);
      PrepareAllProper(cfg, calls, inp.calls, 0, w);
      match prep.ending
      case PrepFailed(_) =>
      case Steered(_) =>
        var waiting, rest := CallsAt(calls, prep.runnable), calls[prep.next..];
        SkipsProper(waiting, false);
        SkipsProper(rest, true);
        ProperJoin(prep.events, SkipEvents(waiting, false));
        ProperJoin(prep.events + SkipEvents(waiting, false), SkipEvents(rest, true));
      case Ready =>
        var jobs := Jobs(calls, inp.calls, prep.runnable);
        RunAllProper(jobs, inp.schedule);
        ProperJoin(prep.events, RunAll(jobs, inp.schedule).events);
    }
  }

  // ----- Progress reports -----

  datatype Report = Report(call: Call, partial: string)

  /** The progress reports of a log. */
  function Reports(es: seq<Event>): seq<Report> {
    if es == [] then []
    else if es[0].ToolUpdate? then [Report(es[0].call, es[0].partial)] + Reports(es[1..])
    else Reports(es[1..])
  }

  lemma {:induction false} ReportsSplit(a: seq<Event>, b: seq<Event>)
    ensures Reports(a + b) == Reports(a) + Reports(b)
  {
    if a == [] {
      assert a + b == b;
    } else {
      assert (a + b)[1..] == a[1..] + b;
      ReportsSplit(a[1..], b);
    }
  }

  lemma {:induction false} UpdatesReport(c: Call, partials: seq<string>)
    ensures |Reports(Updates(c, partials))| == |partials|
    ensures forall k :: 0 <= k < |partials| ==> Reports(Updates(c, partials))[k] == Report(c, partials[k])
  {
    if partials != [] {
      UpdatesReport(c, partials[1..]);
      var rest := Updates(c, partials[1..]);
      assert ([ToolUpdate(c, partials[0])] + rest)[1..] == rest;
    }
  }

  lemma EmitReportsNothing(c: Call, o: Outcome)
    ensures Reports(Emit(c, o)) == []
  {
    var es := Emit(c, o);
    assert es[1..][1..][1..] == [];
    assert Reports(es[1..][1..]) == [] && Reports(es[1..]) == [];
  }

  /** Sequentially, a call that reaches its tool reports what the tool reported, in order,
      and any other call nothing. */
  lemma ExecuteOneReports(cfg: Config, calls: seq<Call>, inp: nat -> CallInput, i: nat, w: World)
    requires i < |calls|
    ensures var c, x, r := calls[i], inp(i), Reports(ExecuteOne(cfg, calls, inp, i, w).events);
            if c.name in cfg.tools && x.validation.Valid? && x.before.Allow? then
              |r| == |x.updates| && forall k :: 0 <= k < |r| ==> r[k] == Report(c, x.updates[k])
            else r == []
  {
    hide Emit, Updates, Reports;
    var c, x := calls[i], inp(i);
    var ran := Prepare(cfg.tools, c, x).Prepared?;
    var updates := if ran then Updates(c, x.updates) else [];
    UpdatesReport(c, x.updates);
    StartReportsNothing(c);
    ReportsSplit([ToolStart(c)], updates);
    match OutcomeOf(cfg.tools, c, x)
    case FinalThrows(_) =>
    case Final(o) =>
      EmitReportsNothing(c, o);
      ReportsSplit([ToolStart(c)] + updates, Emit(c, o));
  }

  lemma StartReportsNothing(c: Call)
    ensures Reports([ToolStart(c)]) == [] == Reports([])
  {
    assert [ToolStart(c)][1..] == [];
  }

  /** What a schedule makes these jobs report. */
  function Scheduled(jobs: seq<Job>, schedule: seq<Sched>): seq<Report> {
    if schedule == [] then []
    else
      var s := schedule[0];
      (if s.Update? && s.k < |jobs| then [Report(jobs[s.k].call, s.partial)] else []) + Scheduled(jobs, schedule[1..])
  }

  lemma FinalizeReportsNothing(jobs: seq<Job>, r: Running)
    requires r.next < |jobs|
    ensures Reports(FinalizeNext(jobs, r).events) == Reports(r.events)
  {
    hide Emit, Reports;
    match jobs[r.next].final
    case Final(o) =>
      EmitReportsNothing(jobs[r.next].call, o);
      ReportsSplit(r.events, Emit(jobs[r.next].call, o));
    case FinalThrows(_) =>
  }

  lemma StepReports(jobs: seq<Job>, r: Running, s: Sched)
    requires r.failed.None?
    ensures Reports(RunStep(jobs, r, s).events) == Reports(r.events) + Scheduled(jobs, [s])
  {
    hide FinalizeNext, Reports;
    assert [s][1..] == [];
    if s.Update? && s.k < |jobs| {
      var e := ToolUpdate(jobs[s.k].call, s.partial);
      ReportsSplit(r.events, [e]);
      OneReport(e);
    }
    if r.next < |jobs| { FinalizeReportsNothing(jobs, r); }
  }

  lemma OneReport(e: Event)
    requires e.ToolUpdate?
    ensures Reports([e]) == [Report(e.call, e.partial)]
  {
    assert [e][1..] == [];
  }

  lemma {:induction false} FailedStays(jobs: seq<Job>, r: Running, schedule: seq<Sched>)
    requires r.failed.Some?
    ensures RunSchedule(jobs, r, schedule) == r
    decreases |schedule|
  {
    if schedule != [] { FailedStays(jobs, r, schedule[1..]); }
  }

  lemma ScheduledCons(jobs: seq<Job>, schedule: seq<Sched>)
    requires schedule != []
    ensures Scheduled(jobs, schedule) == Scheduled(jobs, [schedule[0]]) + Scheduled(jobs, schedule[1..])
  {
    assert [schedule[0]][1..] == [];
  }

  lemma {:induction false} ScheduleReports(jobs: seq<Job>, r: Running, schedule: seq<Sched>)
    requires r.failed.None?
    ensures var q := RunSchedule(jobs, r, schedule);
            && Reports(r.events) <= Reports(q.events) <= Reports(r.events) + Scheduled(jobs, schedule)
            && (q.failed.None? ==> Reports(q.events) == Reports(r.events) + Scheduled(jobs, schedule))
    decreases |schedule|
  {
    if schedule != [] {
      hide RunStep, Reports, Scheduled;
      var next := RunStep(jobs, r, schedule[0]);
      StepReports(jobs, r, schedule[0]);
      ScheduledCons(jobs, schedule);
      var one, rest := Scheduled(jobs, [schedule[0]]), Scheduled(jobs, schedule[1..]);
      assert Reports(r.events) + one + rest == Reports(r.events) + (one + rest);
      if next.failed.Some? {
        FailedStays(jobs, next, schedule[1..]);
      } else {
        ScheduleReports(jobs, next, schedule[1..]);
      }
    }
  }

  lemma {:induction false} FinishReportsNothing(jobs: seq<Job>, r: Running)
    requires r.next <= |jobs|
    ensures Reports(FinishAll(jobs, r).events) == Reports(r.events)
    ensures r.failed.Some? ==> FinishAll(jobs, r).failed.Some?
    decreases |jobs| - r.next, r.failed.None?
  {
    hide Reports, FinalizeNext;
    if r.failed.None? && r.next < |jobs| {
      FinalizeReportsNothing(jobs, r);
      OneFurther(jobs, r);
      FinishReportsNothing(jobs, FinalizeNext(jobs, r));
    }
  }

  /** Concurrently, the tools' reports are emitted in the order they come, each under its
      call, all of them unless a hook throws, which cuts them short. */
  lemma RunAllReports(jobs: seq<Job>, schedule: seq<Sched>)
    ensures var r := RunAll(jobs, schedule);
            && Reports(r.events) <= Scheduled(jobs, schedule)
            && (r.failed.None? ==> Reports(r.events) == Scheduled(jobs, schedule))
  {
    hide Reports, RunSchedule, Scheduled, FinishAll;
    ScheduleStaysInside(jobs, IDLE, schedule);
    ScheduleReports(jobs, IDLE, schedule);
    FinishReportsNothing(jobs, RunSchedule(jobs, IDLE, schedule));
    assert Reports([]) == [] by { StartReportsNothing(Call("", "", "")); }
    assert [] + Scheduled(jobs, schedule) == Scheduled(jobs, schedule);
  }

  // ----- When a call ends -----

  lemma {:induction false} ScheduleSplit(jobs: seq<Job>, r: Running, a: seq<Sched>, b: seq<Sched>)
    ensures RunSchedule(jobs, r, a + b) == RunSchedule(jobs, RunSchedule(jobs, r, a), b)
    decreases |a|
  {
    hide RunStep;
    if a == [] {
      assert a + b == b;
    } else {
      assert (a + b)[1..] == a[1..] + b;
      ScheduleSplit(jobs, RunStep(jobs, r, a[0]), a[1..], b);
    }
  }

  /** While no hook has thrown, the promises that have settled are those the schedule
      settled. */
  lemma {:induction false} SettledIs(jobs: seq<Job>, r: Running, schedule: seq<Sched>, k: nat)
    requires r.failed.None?
    ensures var q := RunSchedule(jobs, r, schedule);
            q.failed.None? ==> (k in q.settled <==> k in r.settled || (k < |jobs| && Sched.Settles(k) in schedule))
    decreases |schedule|
  {
    if schedule != [] {
      hide FinalizeNext;
      var next := RunStep(jobs, r, schedule[0]);
      if r.next < |jobs| { FinalizeSettlesNothing(jobs, r); }
      assert Sched.Settles(k) in schedule <==> schedule[0] == Sched.Settles(k) || Sched.Settles(k) in schedule[1..];
      if next.failed.Some? {
        FailedStays(jobs, next, schedule[1..]);
      } else {
        SettledIs(jobs, next, schedule[1..], k);
      }
    }
  }

  lemma FinalizeSettlesNothing(jobs: seq<Job>, r: Running)
    requires r.next < |jobs|
    ensures FinalizeNext(jobs, r).settled == r.settled
  {
  }

  /** Scheduled again, the awaiting loop finalizes the next call in source order exactly
      when that call's promise has settled: one end, with its result, or the exception of
      its hook.  Until then it waits, whatever the others did. */
  lemma AwaitsInOrder(jobs: seq<Job>, schedule: seq<Sched>)
    requires RunSchedule(jobs, IDLE, schedule).failed.None?
    ensures var r := RunSchedule(jobs, IDLE, schedule);
            var q := RunSchedule(jobs, IDLE, schedule + [Resume]);
            if r.next < |jobs| && Sched.Settles(r.next) in schedule then
              var c := jobs[r.next].call;
              match jobs[r.next].final
              case Final(o) =>
                var m := ToolResult(c.id, c.name, o);
                && q.next == r.next + 1 && q.failed == None && q.results == r.results + [m]
                && q.events == r.events + [ToolEnd(c, o), MessageStart(m), MessageEnd(m)]
              case FinalThrows(error) => q == r.(failed := Some(error))
            else q == r
  {
    hide RunSchedule;
    var r := RunSchedule(jobs, IDLE, schedule);
    ScheduleSplit(jobs, IDLE, schedule, [Resume]);
    OneStep(jobs, r, Resume);
    SettledIs(jobs, IDLE, schedule, r.next);
  }

  lemma OneStep(jobs: seq<Job>, r: Running, s: Sched)
    ensures RunSchedule(jobs, r, [s]) == RunStep(jobs, r, s)
  {
    hide RunStep;
    assert [s][1..] == [];
    assert RunSchedule(jobs, RunStep(jobs, r, s), []) == RunStep(jobs, r, s);
  }
}
