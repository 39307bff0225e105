/** Running the tool calls of one reply, sequentially or in parallel
    (agent-loop.ts:376-707).

    The outside world is an input: for each call what validation, the hooks and
    the tool itself do, what other code does to the queues before each poll, and
    in parallel mode the order in which concurrent tools make progress. */
module ToolPhase {
  import opened Messages
  import opened Queues

  datatype Validation = Valid | Invalid(error: string)
  datatype Before = Allow | Block(reason: string) | BeforeThrows(error: string)
  datatype Execution = Returns(content: string, details: string) | ToolThrows(error: string)
  datatype After =
    | Keep
    | Override(content: Option<string>, details: Option<string>, isError: Option<bool>)
    | AfterThrows(error: string)

  datatype CallInput = CallInput(validation: Validation, before: Before, updates: seq<string>,
                                 execution: Execution, after: After, poll: PollPoint)

  /** One step of the concurrent part: a running tool reports progress, a tool's
      promise settles, or the awaiting loop is scheduled. */
  datatype Sched = Update(k: nat, partial: string) | Settles(k: nat) | Resume

  datatype PhaseInput = PhaseInput(calls: nat -> CallInput, schedule: seq<Sched>, last: PollPoint)

  datatype ExecutionMode = Sequentially | InParallel
  datatype Config = Config(tools: set<string>, mode: ExecutionMode)

  // ----- One call -----

  function ErrorOutcome(message: string): Outcome { Outcome(message, "", true) }

  const SKIPPED := ErrorOutcome("Skipped due to queued user message.")

  datatype Preparation = Immediate(outcome: Outcome) | Prepared

  function Prepare(tools: set<string>, c: Call, x: CallInput): Preparation {
    if c.name !in tools then Immediate(ErrorOutcome("Tool " + c.name + " not found"))
    else match x.validation
      case Invalid(error) => Immediate(ErrorOutcome(error))
      case Valid =>
        match x.before
        case Allow => Prepared
        case Block(reason) =>
          Immediate(ErrorOutcome(if reason == "" then "Tool execution was blocked" else reason))
        case BeforeThrows(error) => Immediate(ErrorOutcome(error))
  }

  datatype Final = Final(outcome: Outcome) | FinalThrows(error: string)

  function Or<T>(o: Option<T>, d: T): T { if o.Some? then o.value else d }

  /** executePreparedToolCall, then finalizeExecutedToolCall up to its emission. */
  function Finalize(x: CallInput): Final {
    var o := match x.execution
      case Returns(content, details) => Outcome(content, details, false)
      case ToolThrows(error) => ErrorOutcome(error);
    match x.after
    case Keep => Final(o)
    case Override(c, d, e) => Final(Outcome(Or(c, o.content), Or(d, o.details), Or(e, o.isError)))
    case AfterThrows(error) => FinalThrows(error)
  }

  /** What a call that is not skipped comes to, whatever the mode. */
  function OutcomeOf(tools: set<string>, c: Call, x: CallInput): Final {
    match Prepare(tools, c, x)
    case Immediate(o) => Final(o)
    case Prepared => Finalize(x)
  }

  function ResultMessage(c: Call, o: Outcome): Message { ToolResult(c.id, c.name, o) }

  /** emitToolCallOutcome */
  function Emit(c: Call, o: Outcome): seq<Event> {
    [ToolEnd(c, o), MessageStart(ResultMessage(c, o)), MessageEnd(ResultMessage(c, o))]
  }

  function Updates(c: Call, partials: seq<string>): seq<Event> {
    if partials == [] then [] else [ToolUpdate(c, partials[0])] + Updates(c, partials[1..])
  }

  function Range(lo: nat, hi: nat): (r: seq<nat>)
    requires lo <= hi
    ensures |r| == hi - lo && forall j :: 0 <= j < |r| ==> r[j] == lo + j
  {
    seq(hi - lo, j requires 0 <= j < hi - lo => lo + j)
  }

  predicate Within(ks: seq<nat>, n: nat) { forall j :: 0 <= j < |ks| ==> ks[j] < n }

  function CallsAt(calls: seq<Call>, ks: seq<nat>): (cs: seq<Call>)
    requires Within(ks, |calls|)
    ensures |cs| == |ks| && forall j :: 0 <= j < |ks| ==> cs[j] == calls[ks[j]]
  {
    seq(|ks|, j requires 0 <= j < |ks| => calls[ks[j]])
  }

  /** Skipping calls in turn: their events and their results. */
  function SkipEvents(cs: seq<Call>, emitStart: bool): seq<Event> {
    if cs == [] then []
    else (if emitStart then [ToolStart(cs[0])] else []) + Emit(cs[0], SKIPPED) + SkipEvents(cs[1..], emitStart)
  }

  function Skips(cs: seq<Call>): (ms: seq<Message>)
    ensures |ms| == |cs| && forall j :: 0 <= j < |cs| ==> ms[j] == ResultMessage(cs[j], SKIPPED)
  {
    seq(|cs|, j requires 0 <= j < |cs| => ResultMessage(cs[j], SKIPPED))
  }

  // ----- A whole phase -----

  datatype PhaseEnd = Completed(steering: seq<Message>) | Failed(error: string)

  /** `order` and `ran` are history: the source index of each result, and the
      calls whose tool was executed. */
  datatype Phase = Phase(events: seq<Event>, order: seq<nat>, results: seq<Message>, ran: seq<nat>,
                         world: World, ending: PhaseEnd)

  function Join(a: Phase, b: Phase): Phase {
    Phase(a.events + b.events, a.order + b.order, a.results + b.results, a.ran + b.ran, b.world, b.ending)
  }

  /** One pass of the sequential loop, before its poll. */
  function ExecuteOne(cfg: Config, calls: seq<Call>, inp: nat -> CallInput, i: nat, w: World): Phase
    requires i < |calls|
  {
    var c, x := calls[i], inp(i);
    var ran := if Prepare(cfg.tools, c, x).Prepared? then [i] else [];
    var started := [ToolStart(c)] + (if ran == [] then [] else Updates(c, x.updates));
    match OutcomeOf(cfg.tools, c, x)
    case FinalThrows(error) => Phase(started, [], [], ran, w, Failed(error))
    case Final(o) => Phase(started + Emit(c, o), [i], [ResultMessage(c, o)], ran, w, Completed([]))
  }

  /** What is left once a poll has interrupted the phase after call `i`. */
  function SkipRest(calls: seq<Call>, i: nat, got: seq<Message>, w: World): Phase
    requires i <= |calls|
  {
    Phase(SkipEvents(calls[i..], true), Range(i, |calls|), Skips(calls[i..]), [], w, Completed(got))
  }

  /** One whole pass; the flag says whether the loop goes on. */
  function SequentialStep(cfg: Config, calls: seq<Call>, inp: nat -> CallInput, i: nat, w: World): (Phase, bool)
    requires i < |calls|
  {
    var one := ExecuteOne(cfg, calls, inp, i, w);
    if one.ending.Failed? then (one, false)
    else match AwaitPoll(w, Steering, inp(i).poll)
      case PollThrew(error, w') => (one.(world := w', ending := Failed(error)), false)
      case Heard(got, w') =>
        if got != [] then (Join(one, SkipRest(calls, i + 1, got, w')), false) else (one.(world := w'), true)
  }

  /** executeToolCallsSequential from call `i` on. */
  function Sequential(cfg: Config, calls: seq<Call>, inp: nat -> CallInput, i: nat, w: World): Phase
    requires i <= |calls|
    decreases |calls| - i
  {
    if i == |calls| then Phase([], [], [], [], w, Completed([]))
    else
      var (p, more) := SequentialStep(cfg, calls, inp, i, w);
      if more then Join(p, Sequential(cfg, calls, inp, i + 1, p.world)) else p
  }

  // ----- Parallel mode: preparation -----

  datatype PrepEnd = Ready | Steered(got: seq<Message>) | PrepFailed(error: string)

  /** `next` is the first call the loop did not reach. */
  datatype Prep = Prep(events: seq<Event>, immediate: seq<nat>, results: seq<Message>, runnable: seq<nat>,
                       next: nat, world: World, ending: PrepEnd)

  /** One pass of the first loop, before its poll. */
  function PrepareOne(cfg: Config, calls: seq<Call>, inp: nat -> CallInput, i: nat, w: World): Prep
    requires i < |calls|
  {
    var c := calls[i];
    match Prepare(cfg.tools, c, inp(i))
    case Immediate(o) => Prep([ToolStart(c)] + Emit(c, o), [i], [ResultMessage(c, o)], [], i + 1, w, Ready)
    case Prepared => Prep([ToolStart(c)], [], [], [i], i + 1, w, Ready)
  }

  /** One whole pass; the loop goes on while the ending is Ready. */
  function PrepareStep(cfg: Config, calls: seq<Call>, inp: nat -> CallInput, i: nat, w: World): Prep
    requires i < |calls|
  {
    var one := PrepareOne(cfg, calls, inp, i, w);
    match AwaitPoll(w, Steering, inp(i).poll)
    case PollThrew(error, w') => one.(world := w', ending := PrepFailed(error))
    case Heard(got, w') => one.(world := w', ending := if got != [] then Steered(got) else Ready)
  }

  function JoinPrep(a: Prep, b: Prep): Prep {
    Prep(a.events + b.events, a.immediate + b.immediate, a.results + b.results, a.runnable + b.runnable,
         b.next, b.world, b.ending)
  }

  /** The first loop of executeToolCallsParallel, from call `i` on. */
  function PrepareAll(cfg: Config, calls: seq<Call>, inp: nat -> CallInput, i: nat, w: World): Prep
    requires i <= |calls|
    decreases |calls| - i
  {
    if i == |calls| then Prep([], [], [], [], i, w, Ready)
    else
      var p := PrepareStep(cfg, calls, inp, i, w);
      if p.ending.Ready? then JoinPrep(p, PrepareAll(cfg, calls, inp, i + 1, p.world)) else p
  }

  // ----- Parallel mode: concurrent execution -----

  /** A runnable call with what its tool and its afterToolCall hook will do. */
  datatype Job = Job(call: Call, final: Final)

  function Jobs(calls: seq<Call>, inp: nat -> CallInput, ks: seq<nat>): (js: seq<Job>)
    requires Within(ks, |calls|)
    ensures |js| == |ks| && forall j :: 0 <= j < |ks| ==> js[j] == Job(calls[ks[j]], Finalize(inp(ks[j])))
  {
    seq(|ks|, j requires 0 <= j < |ks| => Job(calls[ks[j]], Finalize(inp(ks[j]))))
  }

  /** Jobs before `next` are finalized; `settled` promises have resolved. */
  datatype Running = Running(next: nat, settled: set<nat>, events: seq<Event>, results: seq<Message>,
                             failed: Option<string>)

  /** The awaiting loop takes the next job: finalizeExecutedToolCall. */
  function FinalizeNext(jobs: seq<Job>, r: Running): Running
    requires r.next < |jobs|
  {
    var job := jobs[r.next];
    match job.final
    case Final(o) => r.(next := r.next + 1, events := r.events + Emit(job.call, o),
                        results := r.results + [ResultMessage(job.call, o)])
    case FinalThrows(error) => r.(failed := Some(error))
  }

  /** A step that is not enabled does nothing. */
  function RunStep(jobs: seq<Job>, r: Running, s: Sched): Running {
    if r.failed.Some? then r
    else match s
      case Update(k, partial) =>
        if k < |jobs| then r.(events := r.events + [ToolUpdate(jobs[k].call, partial)]) else r
      case Settles(k) => if k < |jobs| then r.(settled := r.settled + {k}) else r
      case Resume => if r.next < |jobs| && r.next in r.settled then FinalizeNext(jobs, r) else r
  }

  function RunSchedule(jobs: seq<Job>, r: Running, schedule: seq<Sched>): Running
    decreases |schedule|
  {
    if schedule == [] then r else RunSchedule(jobs, RunStep(jobs, r, schedule[0]), schedule[1..])
  }

  /** After the scheduled steps the tools still running settle in source order. */
  function FinishAll(jobs: seq<Job>, r: Running): Running
    requires r.next <= |jobs|
    decreases |jobs| - r.next, r.failed.None?
  {
    if r.failed.Some? || r.next == |jobs| then r else FinishAll(jobs, FinalizeNext(jobs, r))
  }

  const IDLE := Running(0, {}, [], [], None)

  lemma {:induction false} ScheduleStaysInside(jobs: seq<Job>, r: Running, schedule: seq<Sched>)
    requires r.next <= |jobs|
    ensures RunSchedule(jobs, r, schedule).next <= |jobs|
    decreases |schedule|
  {
    if schedule != [] { ScheduleStaysInside(jobs, RunStep(jobs, r, schedule[0]), schedule[1..]); }
  }

  function RunAll(jobs: seq<Job>, schedule: seq<Sched>): Running {
    ScheduleStaysInside(jobs, IDLE, schedule);
    FinishAll(jobs, RunSchedule(jobs, IDLE, schedule))
  }

  /** A poll during preparation interrupts the phase: nothing runs. */
  function Interrupted(calls: seq<Call>, prep: Prep, got: seq<Message>): Phase
    requires Within(prep.runnable, |calls|) && prep.next <= |calls|
  {
    var waiting, rest := CallsAt(calls, prep.runnable), calls[prep.next..];
    Phase(prep.events + SkipEvents(waiting, false) + SkipEvents(rest, true),
          prep.immediate + prep.runnable + Range(prep.next, |calls|),
          prep.results + Skips(waiting) + Skips(rest), [], prep.world, Completed(got))
  }

  /** Every prepared call runs; then one last poll. */
  function Ran(calls: seq<Call>, inp: PhaseInput, prep: Prep): Phase
    requires Within(prep.runnable, |calls|)
  {
    var jobs := Jobs(calls, inp.calls, prep.runnable);
    var run := RunAll(jobs, inp.schedule);
    RunAllStays(jobs, inp.schedule);
    var done := Phase(prep.events + run.events, prep.immediate + prep.runnable[..run.next],
                      prep.results + run.results, prep.runnable, prep.world, Completed([]));
    if run.failed.Some? then done.(ending := Failed(run.failed.value))
    else match AwaitPoll(prep.world, Steering, inp.last)
      case PollThrew(error, w') => done.(world := w', ending := Failed(error))
      case Heard(got, w') => done.(world := w', ending := Completed(got))
  }

  /** executeToolCallsParallel */
  function Parallel(cfg: Config, calls: seq<Call>, inp: PhaseInput, w: World): Phase {
    var prep := PrepareAll(cfg, calls, inp.calls, 0, w);
    PrepareAllStays(cfg, calls, inp.calls, 0, w);
    match prep.ending
    case PrepFailed(error) => Phase(prep.events, prep.immediate, prep.results, [], prep.world, Failed(error))
    case Steered(got) => Interrupted(calls, prep, got)
    case Ready => Ran(calls, inp, prep)
  }

  lemma {:induction false} PrepareAllStays(cfg: Config, calls: seq<Call>, inp: nat -> CallInput, i: nat, w: World)
    requires i <= |calls|
    ensures var p := PrepareAll(cfg, calls, inp, i, w);
            Within(p.runnable, |calls|) && i <= p.next <= |calls|
    decreases |calls| - i
  {
    hide AwaitPoll, Emit, Prepare;
    if i < |calls| {
      var p := PrepareStep(cfg, calls, inp, i, w);
      if p.ending.Ready? { PrepareAllStays(cfg, calls, inp, i + 1, p.world); }
    }
  }

  lemma {:induction false} FinishAllStays(jobs: seq<Job>, r: Running)
    requires r.next <= |jobs|
    ensures FinishAll(jobs, r).next <= |jobs|
    ensures FinishAll(jobs, r).failed.None? ==> FinishAll(jobs, r).next == |jobs|
    decreases |jobs| - r.next, r.failed.None?
  {
    if r.failed.None? && r.next < |jobs| { FinishAllStays(jobs, FinalizeNext(jobs, r)); }
  }

  lemma RunAllStays(jobs: seq<Job>, schedule: seq<Sched>)
    ensures RunAll(jobs, schedule).next <= |jobs|
    ensures RunAll(jobs, schedule).failed.None? ==> RunAll(jobs, schedule).next == |jobs|
  {
    ScheduleStaysInside(jobs, IDLE, schedule);
    FinishAllStays(jobs, RunSchedule(jobs, IDLE, schedule));
  }

  function Execute(cfg: Config, calls: seq<Call>, inp: PhaseInput, w: World): Phase {
    if cfg.mode.Sequentially? then Sequential(cfg, calls, inp.calls, 0, w) else Parallel(cfg, calls, inp, w)
  }
}
