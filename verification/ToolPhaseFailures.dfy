/** What each result says, and when a tool phase fails: conditions on the inputs, in
    both modes (packages/pi-agent-core/src/agent-loop.ts:390-650). */
module ToolPhaseFailures {
  import opened Messages
  import opened Events
  import opened Queues
  import opened ToolPhase
  import opened ToolPhaseFacts
  import opened ParallelFacts
  import opened ToolPhaseTheorems

  // ----- What a result says -----

  /** The error text of a call that never reached its tool. */
  function Refusal(tools: set<string>, c: Call, x: CallInput): string
    requires !Reaches(tools, c, x)
  {
    if c.name !in tools then "Tool " + c.name + " not found"
    else if x.validation.Invalid? then x.validation.error
    else match x.before
      case Block(reason) => if reason == "" then "Tool execution was blocked" else reason
      case BeforeThrows(error) => error
      case Allow => ""
  }

  /** What a tool came to before the hook after it: its result, or its exception as an
      error without details. */
  function Raw(x: CallInput): Outcome {
    match x.execution
    case Returns(content, details) => Outcome(content, details, false)
    case ToolThrows(error) => Outcome(error, "", true)
  }

  /** The documented merge: a field the hook gives replaces the tool's, a field it
      omits keeps it. */
  predicate Merged(x: CallInput, o: Outcome) {
    var a := x.after;
    && o.content == (if a.Override? && a.content.Some? then a.content.value else Raw(x).content)
    && o.details == (if a.Override? && a.details.Some? then a.details.value else Raw(x).details)
    && o.isError == (if a.Override? && a.isError.Some? then a.isError.value else Raw(x).isError)
  }

  predicate Explained(tools: set<string>, c: Call, x: CallInput, o: Outcome) {
    if Reaches(tools, c, x) then !x.after.AfterThrows? && Merged(x, o)
    else o == Outcome(Refusal(tools, c, x), "", true)
  }

  lemma ExecutedIsExplained(cfg: Config, calls: seq<Call>, inp: nat -> CallInput, k: nat, m: Message)
    requires k < |calls| && Executed(cfg, calls, inp, k, m)
    ensures m.ToolResult? && Explained(cfg.tools, calls[k], inp(k), m.outcome)
  {
  }

  /** Result `j` of a phase, which is the result of call `k`. */
  predicate ResultOf(cfg: Config, calls: seq<Call>, inp: nat -> CallInput, k: nat, m: Message)
    requires k < |calls|
  {
    Executed(cfg, calls, inp, k, m) || m == ResultMessage(calls[k], SKIPPED)
  }

  predicate EachResult(cfg: Config, calls: seq<Call>, inp: nat -> CallInput, p: Phase) {
    && Within(p.order, |calls|) && |p.results| == |p.order|
    && forall j :: 0 <= j < |p.order| ==> ResultOf(cfg, calls, inp, p.order[j], p.results[j])
  }

  lemma SequentialResults(cfg: Config, calls: seq<Call>, inp: nat -> CallInput, w: World)
    requires WorldFaithful(w) && Sequential(cfg, calls, inp, 0, w).ending.Completed?
    ensures EachResult(cfg, calls, inp, Sequential(cfg, calls, inp, 0, w))
  {
    hide Sequential, Executed, Piece, Answers, WorldFollows, WorldFaithful;
    var p := Sequential(cfg, calls, inp, 0, w);
    SequentialShape(cfg, calls, inp, 0, w);
    SequentialComplete(calls, p);
    var next := SequentialPrefix(cfg, calls, inp, 0, w);
    forall j | 0 <= j < |calls| ensures ResultOf(cfg, calls, inp, j, p.results[j]) {
      if j < next {
        assert p.results[..next - 0][j] == p.results[j] && Range(0, next)[j] == j;
      } else {
        assert p.results[next - 0..][j - next] == p.results[j] && calls[next..][j - next] == calls[j];
      }
    }
  }

  lemma SkippedResults(cfg: Config, calls: seq<Call>, inp: nat -> CallInput, ks: seq<nat>)
    requires Within(ks, |calls|)
    ensures forall j :: 0 <= j < |ks| ==> ResultOf(cfg, calls, inp, ks[j], Skips(CallsAt(calls, ks))[j])
  {
    hide Executed;
  }

  lemma JoinResults(cfg: Config, calls: seq<Call>, inp: nat -> CallInput,
                    a: seq<nat>, ms: seq<Message>, b: seq<nat>, ns: seq<Message>)
    requires Within(a, |calls|) && |ms| == |a| && Within(b, |calls|) && |ns| == |b|
    requires forall j :: 0 <= j < |a| ==> ResultOf(cfg, calls, inp, a[j], ms[j])
    requires forall j :: 0 <= j < |b| ==> ResultOf(cfg, calls, inp, b[j], ns[j])
    ensures Within(a + b, |calls|)
    ensures forall j :: 0 <= j < |a + b| ==> ResultOf(cfg, calls, inp, (a + b)[j], (ms + ns)[j])
  {
    hide ResultOf;
  }

  lemma InterruptedResults(cfg: Config, calls: seq<Call>, inp: nat -> CallInput, prep: Prep, got: seq<Message>)
    requires Within(prep.runnable, |calls|) && prep.next <= |calls|
    requires AllExecuted(cfg, calls, inp, prep.immediate, prep.results)
    ensures EachResult(cfg, calls, inp, Interrupted(calls, prep, got))
  {
    hide Executed;
    var rest := Range(prep.next, |calls|);
    assert CallsAt(calls, rest) == calls[prep.next..];
    SkippedResults(cfg, calls, inp, prep.runnable);
    SkippedResults(cfg, calls, inp, rest);
    hide ResultOf;
    JoinResults(cfg, calls, inp, prep.immediate, prep.results, prep.runnable, Skips(CallsAt(calls, prep.runnable)));
    JoinResults(cfg, calls, inp, prep.immediate + prep.runnable, prep.results + Skips(CallsAt(calls, prep.runnable)),
                rest, Skips(calls[prep.next..]));
  }

  lemma ParallelResults(cfg: Config, calls: seq<Call>, inp: PhaseInput, w: World)
    requires WorldFaithful(w) && Parallel(cfg, calls, inp, w).ending.Completed?
    ensures EachResult(cfg, calls, inp.calls, Parallel(cfg, calls, inp, w))
  {
    hide AwaitPoll, PrepareAll, Ran, Interrupted, Piece, Select, Executed, WorldFaithful, RunAll;
    var prep := PrepareAll(cfg, calls, inp.calls, 0, w);
    PrepareAllStays(cfg, calls, inp.calls, 0, w);
    ParallelAllOrNothing(cfg, calls, inp, w);
    match prep.ending
    case PrepFailed(_) =>
    case Steered(got) => InterruptedResults(cfg, calls, inp.calls, prep, got);
    case Ready =>
  }

  /** What every result of a completed phase says, in both modes: the skip notice, or,
      for a call that was not skipped, the reason why it never reached its tool, or
      the hook's fields over the tool's own, an exception counting as an error. */
  lemma ContentIs(cfg: Config, calls: seq<Call>, inp: PhaseInput, w: World, j: nat)
    requires WorldFaithful(w) && Execute(cfg, calls, inp, w).ending.Completed?
    requires j < |Execute(cfg, calls, inp, w).results|
    ensures var p := Execute(cfg, calls, inp, w);
            && |p.order| == |p.results| && p.order[j] < |calls|
            && var c, x := calls[p.order[j]], inp.calls(p.order[j]);
            && p.results[j].ToolResult? && p.results[j].callId == c.id && p.results[j].toolName == c.name
            && (p.results[j].outcome == Outcome("Skipped due to queued user message.", "", true)
                || Explained(cfg.tools, c, x, p.results[j].outcome))
  {
    hide Parallel, Sequential, WorldFaithful, Explained;
    if cfg.mode.Sequentially? {
      SequentialResults(cfg, calls, inp.calls, w);
    } else {
      ParallelResults(cfg, calls, inp, w);
    }
    var p := Execute(cfg, calls, inp, w);
    var k := p.order[j];
    assert ResultOf(cfg, calls, inp.calls, k, p.results[j]);
    if Executed(cfg, calls, inp.calls, k, p.results[j]) {
      ExecutedIsExplained(cfg, calls, inp.calls, k, p.results[j]);
    }
  }

  // ----- When a phase fails, and when it loses results -----

  /** The call reaches its tool and the hook after it throws. */
  predicate Escapes(cfg: Config, c: Call, x: CallInput) {
    Reaches(cfg.tools, c, x) && x.after.AfterThrows?
  }

  /** The poll answers with nothing. */
  predicate Quiet(w: World, p: PollPoint) {
    p.throws.None? && AwaitPoll(w, Steering, p) == Heard([], AwaitPoll(w, Steering, p).world)
  }

  function AfterQuiet(w: World, p: PollPoint): World { AwaitPoll(w, Steering, p).world }

  /** Sequentially, from call `i` on: the first call that is not followed by a quiet
      poll escapes, or the poll after it throws. */
  predicate SequentialFails(cfg: Config, calls: seq<Call>, inp: nat -> CallInput, i: nat, w: World)
    requires i <= |calls|
    decreases |calls| - i
  {
    i < |calls|
    && (Escapes(cfg, calls[i], inp(i))
        || inp(i).poll.throws.Some?
        || (Quiet(w, inp(i).poll) && SequentialFails(cfg, calls, inp, i + 1, AfterQuiet(w, inp(i).poll))))
  }

  /** The preparation loop, from call `i` on: all polls before some poll are quiet and
      that one throws. */
  predicate PreparationFails(calls: seq<Call>, inp: nat -> CallInput, i: nat, w: World)
    requires i <= |calls|
    decreases |calls| - i
  {
    i < |calls|
    && (inp(i).poll.throws.Some?
        || (Quiet(w, inp(i).poll) && PreparationFails(calls, inp, i + 1, AfterQuiet(w, inp(i).poll))))
  }

  /** The same, and some call reached by then was answered at once. */
  predicate PreparationLoses(cfg: Config, calls: seq<Call>, inp: nat -> CallInput, i: nat, w: World, answered: bool)
    requires i <= |calls|
    decreases |calls| - i
  {
    i < |calls|
    && var now := answered || !Reaches(cfg.tools, calls[i], inp(i));
    if inp(i).poll.throws.Some? then now
    else Quiet(w, inp(i).poll) && PreparationLoses(cfg, calls, inp, i + 1, AfterQuiet(w, inp(i).poll), now)
  }

  /** Every poll of the preparation loop is quiet. */
  predicate AllQuiet(calls: seq<Call>, inp: nat -> CallInput, i: nat, w: World)
    requires i <= |calls|
    decreases |calls| - i
  {
    i < |calls| ==> Quiet(w, inp(i).poll) && AllQuiet(calls, inp, i + 1, AfterQuiet(w, inp(i).poll))
  }

  predicate SomeEscape(cfg: Config, calls: seq<Call>, inp: nat -> CallInput) {
    exists k :: 0 <= k < |calls| && Escapes(cfg, calls[k], inp(k))
  }

  predicate SomeAnswered(cfg: Config, calls: seq<Call>, inp: nat -> CallInput) {
    exists k :: 0 <= k < |calls| && !Reaches(cfg.tools, calls[k], inp(k))
  }

  /** A phase fails: a condition on its inputs and the queues it starts from. */
  predicate PhaseFails(cfg: Config, calls: seq<Call>, inp: PhaseInput, w: World) {
    if cfg.mode.Sequentially? then SequentialFails(cfg, calls, inp.calls, 0, w)
    else
      PreparationFails(calls, inp.calls, 0, w)
      || (AllQuiet(calls, inp.calls, 0, w) && (SomeEscape(cfg, calls, inp.calls) || inp.last.throws.Some?))
  }

  /** A phase fails after committing a result.  Sequentially: it fails, but not in the
      hook of its first call.  In parallel: a poll throws after some call was answered
      at once; or, all calls prepared or answered, a hook or the last poll throws and
      some call was answered at once or the first one's hook did not throw. */
  predicate PhaseLoses(cfg: Config, calls: seq<Call>, inp: PhaseInput, w: World) {
    if cfg.mode.Sequentially? then
      SequentialFails(cfg, calls, inp.calls, 0, w) && calls != [] && !Escapes(cfg, calls[0], inp.calls(0))
    else
      PreparationLoses(cfg, calls, inp.calls, 0, w, false)
      || (AllQuiet(calls, inp.calls, 0, w) && (SomeEscape(cfg, calls, inp.calls) || inp.last.throws.Some?)
          && (SomeAnswered(cfg, calls, inp.calls) || (calls != [] && !Escapes(cfg, calls[0], inp.calls(0)))))
  }

  lemma PollIs(w: World, p: PollPoint)
    ensures var r := AwaitPoll(w, Steering, p);
            && (r.PollThrew? <==> p.throws.Some?)
            && (r.Heard? && r.got == [] <==> Quiet(w, p))
            && r.world == AfterQuiet(w, p)
  {
    hide ActAll, Answer, AfterPoll;
  }

  lemma EscapesIs(cfg: Config, c: Call, x: CallInput)
    ensures OutcomeOf(cfg.tools, c, x).FinalThrows? <==> Escapes(cfg, c, x)
    ensures Prepare(cfg.tools, c, x).Prepared? <==> Reaches(cfg.tools, c, x)
  {
    ErrorExactlyWhen(cfg.tools, c, x);
  }

  lemma {:induction false} SequentialFailsExactlyWhen(cfg: Config, calls: seq<Call>, inp: nat -> CallInput, i: nat,
                                                      w: World)
    requires i <= |calls|
    ensures var p := Sequential(cfg, calls, inp, i, w);
            && (p.ending.Failed? <==> SequentialFails(cfg, calls, inp, i, w))
            && (p.results == [] <==> i == |calls| || Escapes(cfg, calls[i], inp(i)))
    decreases |calls| - i
  {
    hide AwaitPoll, Escapes, Quiet, AfterQuiet, OutcomeOf, Skips, SkipEvents, Emit, Updates;
    if i < |calls| {
      PollIs(w, inp(i).poll);
      EscapesIs(cfg, calls[i], inp(i));
      SequentialFailsExactlyWhen(cfg, calls, inp, i + 1, AfterQuiet(w, inp(i).poll));
    }
  }

  lemma {:induction false} PreparationFailsExactlyWhen(cfg: Config, calls: seq<Call>, inp: nat -> CallInput, i: nat,
                                                       w: World, answered: bool)
    requires i <= |calls|
    ensures var p := PrepareAll(cfg, calls, inp, i, w);
            && (p.ending.PrepFailed? <==> PreparationFails(calls, inp, i, w))
            && (p.ending.Ready? <==> AllQuiet(calls, inp, i, w))
            && (p.ending.PrepFailed? && (answered || p.results != [])
               <==> PreparationLoses(cfg, calls, inp, i, w, answered))
    decreases |calls| - i
  {
    hide AwaitPoll, Quiet, AfterQuiet, Emit, Reaches, Prepare;
    if i < |calls| {
      PollIs(w, inp(i).poll);
      EscapesIs(cfg, calls[i], inp(i));
      PreparationFailsExactlyWhen(cfg, calls, inp, i + 1, AfterQuiet(w, inp(i).poll),
                                  answered || !Reaches(cfg.tools, calls[i], inp(i)));
    }
  }

  /** The concurrent part fails exactly when some prepared call escapes. */
  lemma RunFailsExactlyWhen(cfg: Config, calls: seq<Call>, inp: PhaseInput)
    ensures var ks := Select(cfg, calls, inp.calls, 0, |calls|, true);
            && Within(ks, |calls|)
            && var run := RunAll(Jobs(calls, inp.calls, ks), inp.schedule);
            && (run.failed.Some? <==> SomeEscape(cfg, calls, inp.calls))
            && (run.results == [] <==> ks == [] || inp.calls(ks[0]).after.AfterThrows?)
  {
    hide RunAll, Select, Escapes;
    SelectWithin(cfg, calls, inp.calls, 0, |calls|, true);
    var ks := Select(cfg, calls, inp.calls, 0, |calls|, true);
    assert forall j :: 0 <= j < |ks| ==> ks[j] in ks;
    var jobs := Jobs(calls, inp.calls, ks);
    ScheduleIndependence(jobs, inp.schedule);
    BeforeFailureFacts(jobs);
    if ks != [] { FirstJob(jobs); }
    EscapeIsSelected(cfg, calls, inp.calls);
    SelectedEscapes(cfg, calls, inp.calls, ks);
  }

  lemma FirstJob(jobs: seq<Job>)
    requires jobs != []
    ensures BeforeFailure(jobs) == 0 <==> jobs[0].final.FinalThrows?
  {
  }

  lemma {:induction false} Selected(cfg: Config, calls: seq<Call>, inp: nat -> CallInput, lo: nat, hi: nat, k: nat)
    requires lo <= k < hi <= |calls|
    ensures k in Select(cfg, calls, inp, lo, hi, Prepare(cfg.tools, calls[k], inp(k)).Prepared?)
    decreases hi - lo
  {
    hide Prepare;
    if lo < k { Selected(cfg, calls, inp, lo + 1, hi, k); }
  }

  lemma EscapeIsSelected(cfg: Config, calls: seq<Call>, inp: nat -> CallInput)
    ensures SomeEscape(cfg, calls, inp) ==>
              exists k :: k in Select(cfg, calls, inp, 0, |calls|, true) && inp(k).after.AfterThrows?
  {
    hide Prepare, Select;
    if k :| 0 <= k < |calls| && Escapes(cfg, calls[k], inp(k)) {
      EscapesIs(cfg, calls[k], inp(k));
      Selected(cfg, calls, inp, 0, |calls|, k);
    }
  }

  lemma SelectedEscapes(cfg: Config, calls: seq<Call>, inp: nat -> CallInput, ks: seq<nat>)
    requires ks == Select(cfg, calls, inp, 0, |calls|, true)
    ensures (exists k :: k in ks && inp(k).after.AfterThrows?) ==> SomeEscape(cfg, calls, inp)
  {
    SelectWithin(cfg, calls, inp, 0, |calls|, true);
    if k :| k in ks && inp(k).after.AfterThrows? {
      EscapesIs(cfg, calls[k], inp(k));
      assert Escapes(cfg, calls[k], inp(k));
    }
  }

  /** Which calls the lists start with. */
  lemma FirstSelected(cfg: Config, calls: seq<Call>, inp: nat -> CallInput)
    ensures var no, yes := Select(cfg, calls, inp, 0, |calls|, false), Select(cfg, calls, inp, 0, |calls|, true);
            && (no != [] <==> SomeAnswered(cfg, calls, inp))
            && (no == [] && calls != [] ==> yes != [] && yes[0] == 0)
            && (calls == [] ==> yes == [])
  {
    AllPrepared(cfg, calls, inp, 0, |calls|);
    forall k | 0 <= k < |calls|
      ensures Prepare(cfg.tools, calls[k], inp(k)).Prepared? <==> Reaches(cfg.tools, calls[k], inp(k))
    {
      EscapesIs(cfg, calls[k], inp(k));
    }
  }

  /** A whole phase fails exactly when PhaseFails says so of its inputs, and has then
      committed a result exactly when PhaseLoses does. */
  lemma PhaseFailsExactlyWhen(cfg: Config, calls: seq<Call>, inp: PhaseInput, w: World)
    requires WorldFaithful(w)
    ensures var p := Execute(cfg, calls, inp, w);
            && (p.ending.Failed? <==> PhaseFails(cfg, calls, inp, w))
            && (p.ending.Failed? && p.results != [] <==> PhaseLoses(cfg, calls, inp, w))
  {
    hide Sequential, Parallel, PreparationFails, PreparationLoses, AllQuiet, SequentialFails, SomeEscape, SomeAnswered,
         Escapes, WorldFaithful;
    if cfg.mode.Sequentially? {
      SequentialFailsExactlyWhen(cfg, calls, inp.calls, 0, w);
    } else {
      ParallelFailsExactlyWhen(cfg, calls, inp, w);
    }
  }

  lemma ParallelFailsExactlyWhen(cfg: Config, calls: seq<Call>, inp: PhaseInput, w: World)
    requires WorldFaithful(w)
    ensures var p := Parallel(cfg, calls, inp, w);
            var later := AllQuiet(calls, inp.calls, 0, w)
              && (SomeEscape(cfg, calls, inp.calls) || inp.last.throws.Some?);
            && (p.ending.Failed? <==> PreparationFails(calls, inp.calls, 0, w) || later)
            && (p.ending.Failed? && p.results != []
                <==> PreparationLoses(cfg, calls, inp.calls, 0, w, false)
                     || (later && (SomeAnswered(cfg, calls, inp.calls)
                                   || (calls != [] && !Escapes(cfg, calls[0], inp.calls(0))))))
  {
    hide AwaitPoll, RunAll, PrepareAll, Interrupted, Ran, PreparationFails, PreparationLoses, AllQuiet, SomeEscape,
         SomeAnswered, Escapes, WorldFaithful, Piece;
    var prep := PrepareAll(cfg, calls, inp.calls, 0, w);
    PrepareAllStays(cfg, calls, inp.calls, 0, w);
    PrepareAllShape(cfg, calls, inp.calls, 0, w);
    PreparationFailsExactlyWhen(cfg, calls, inp.calls, 0, w, false);
    match prep.ending
    case PrepFailed(_) =>
    case Steered(got) => InterruptedEnding(calls, prep, got);
    case Ready => RanFailsExactlyWhen(cfg, calls, inp, prep);
  }

  lemma RanFailsExactlyWhen(cfg: Config, calls: seq<Call>, inp: PhaseInput, prep: Prep)
    requires PrepShaped(cfg, calls, inp.calls, 0, prep) && prep.ending.Ready?
    ensures var p := Ran(calls, inp, prep);
            && (p.ending.Failed? <==> SomeEscape(cfg, calls, inp.calls) || inp.last.throws.Some?)
            && (p.results == [] <==> !SomeAnswered(cfg, calls, inp.calls)
                                     && (calls == [] || Escapes(cfg, calls[0], inp.calls(0))))
  {
    hide AwaitPoll, RunAll, SomeEscape, SomeAnswered, Select, Piece, ImmediateResults;
    RunFailsExactlyWhen(cfg, calls, inp);
    FirstSelected(cfg, calls, inp.calls);
    PollIs(prep.world, inp.last);
    if calls != [] {
      AnsweredFirst(cfg, calls, inp.calls);
    }
    var run := RunAll(Jobs(calls, inp.calls, prep.runnable), inp.schedule);
    assert Ran(calls, inp, prep).results == prep.results + run.results;
  }

  lemma AnsweredFirst(cfg: Config, calls: seq<Call>, inp: nat -> CallInput)
    requires calls != []
    ensures !SomeAnswered(cfg, calls, inp) ==> Reaches(cfg.tools, calls[0], inp(0))
  {
  }

  // ----- Which exception a failed phase lets out -----

  /** Sequentially, from call `i` on: the exception of the first hook or poll that throws. */
  function SequentialError(cfg: Config, calls: seq<Call>, inp: nat -> CallInput, i: nat, w: World): Option<string>
    requires i <= |calls|
    decreases |calls| - i
  {
    if i == |calls| then None
    else if Escapes(cfg, calls[i], inp(i)) then Some(inp(i).after.error)
    else if inp(i).poll.throws.Some? then inp(i).poll.throws
    else if Quiet(w, inp(i).poll) then SequentialError(cfg, calls, inp, i + 1, AfterQuiet(w, inp(i).poll))
    else None
  }

  /** The exception of the poll that cuts the preparation loop short. */
  function PreparationError(calls: seq<Call>, inp: nat -> CallInput, i: nat, w: World): Option<string>
    requires i <= |calls|
    decreases |calls| - i
  {
    if i == |calls| then None
    else if inp(i).poll.throws.Some? then inp(i).poll.throws
    else if Quiet(w, inp(i).poll) then PreparationError(calls, inp, i + 1, AfterQuiet(w, inp(i).poll))
    else None
  }

  /** The exception of the first call, in source order, whose hook throws. */
  function FirstEscape(cfg: Config, calls: seq<Call>, inp: nat -> CallInput, i: nat): Option<string>
    requires i <= |calls|
    decreases |calls| - i
  {
    if i == |calls| then None
    else if Escapes(cfg, calls[i], inp(i)) then Some(inp(i).after.error)
    else FirstEscape(cfg, calls, inp, i + 1)
  }

  function PhaseError(cfg: Config, calls: seq<Call>, inp: PhaseInput, w: World): Option<string> {
    if cfg.mode.Sequentially? then SequentialError(cfg, calls, inp.calls, 0, w)
    else if !AllQuiet(calls, inp.calls, 0, w) then PreparationError(calls, inp.calls, 0, w)
    else if FirstEscape(cfg, calls, inp.calls, 0).Some? then FirstEscape(cfg, calls, inp.calls, 0)
    else inp.last.throws
  }

  lemma {:induction false} SequentialErrorIs(cfg: Config, calls: seq<Call>, inp: nat -> CallInput, i: nat, w: World)
    requires i <= |calls|
    ensures var p := Sequential(cfg, calls, inp, i, w);
            SequentialError(cfg, calls, inp, i, w) == if p.ending.Failed? then Some(p.ending.error) else None
    decreases |calls| - i
  {
    hide AwaitPoll, Escapes, Quiet, AfterQuiet, OutcomeOf, Skips, SkipEvents, Emit, Updates;
    if i < |calls| {
      PollIs(w, inp(i).poll);
      PollErrorIs(w, inp(i).poll);
      EscapesIs(cfg, calls[i], inp(i));
      EscapeErrorIs(cfg, calls[i], inp(i));
      SequentialErrorIs(cfg, calls, inp, i + 1, AfterQuiet(w, inp(i).poll));
    }
  }

  lemma PollErrorIs(w: World, p: PollPoint)
    ensures var r := AwaitPoll(w, Steering, p); r.PollThrew? ==> p.throws == Some(r.error)
  {
    hide ActAll, Answer, AfterPoll;
  }

  lemma EscapeErrorIs(cfg: Config, c: Call, x: CallInput)
    ensures var out := OutcomeOf(cfg.tools, c, x); out.FinalThrows? ==> x.after == AfterThrows(out.error)
  {
  }

  lemma {:induction false} PreparationErrorIs(cfg: Config, calls: seq<Call>, inp: nat -> CallInput, i: nat, w: World)
    requires i <= |calls|
    ensures var p := PrepareAll(cfg, calls, inp, i, w);
            PreparationError(calls, inp, i, w) == if p.ending.PrepFailed? then Some(p.ending.error) else None
    decreases |calls| - i
  {
    hide AwaitPoll, Quiet, AfterQuiet, Emit, Prepare;
    if i < |calls| {
      PollIs(w, inp(i).poll);
      PollErrorIs(w, inp(i).poll);
      PreparationErrorIs(cfg, calls, inp, i + 1, AfterQuiet(w, inp(i).poll));
    }
  }

  lemma {:induction false} FirstEscapeIs(cfg: Config, calls: seq<Call>, inp: nat -> CallInput, i: nat, k: nat)
    requires i <= k < |calls| && Escapes(cfg, calls[k], inp(k))
    requires forall j :: i <= j < k ==> !Escapes(cfg, calls[j], inp(j))
    ensures FirstEscape(cfg, calls, inp, i) == Some(inp(k).after.error)
    decreases |calls| - i
  {
    hide Escapes;
    if i < k {
      assert !Escapes(cfg, calls[i], inp(i));
      FirstEscapeIs(cfg, calls, inp, i + 1, k);
    }
  }

  lemma {:induction false} NoEscape(cfg: Config, calls: seq<Call>, inp: nat -> CallInput, i: nat)
    requires i <= |calls| && forall j :: i <= j < |calls| ==> !Escapes(cfg, calls[j], inp(j))
    ensures FirstEscape(cfg, calls, inp, i) == None
    decreases |calls| - i
  {
    hide Escapes;
    if i < |calls| { NoEscape(cfg, calls, inp, i + 1); }
  }

  /** The concurrent part lets out the exception of the first call whose hook throws,
      whatever the schedule. */
  lemma RunErrorIs(cfg: Config, calls: seq<Call>, inp: PhaseInput)
    ensures var ks := Select(cfg, calls, inp.calls, 0, |calls|, true);
            && Within(ks, |calls|)
            && RunAll(Jobs(calls, inp.calls, ks), inp.schedule).failed == FirstEscape(cfg, calls, inp.calls, 0)
  {
    hide RunAll, Select, Escapes, FirstEscape;
    RunFailsExactlyWhen(cfg, calls, inp);
    var ks := Select(cfg, calls, inp.calls, 0, |calls|, true);
    var jobs := Jobs(calls, inp.calls, ks);
    var run := RunAll(jobs, inp.schedule);
    if run.failed.None? {
      NoEscape(cfg, calls, inp.calls, 0);
    } else {
      ScheduleIndependence(jobs, inp.schedule);
      BeforeFailureFacts(jobs);
      SelectIncreasing(cfg, calls, inp.calls, 0, |calls|, true);
      FirstOfJobs(cfg, calls, inp.calls, ks, BeforeFailure(jobs));
      FinalizeErrorIs(inp.calls(ks[run.next]));
    }
  }

  lemma FinalizeErrorIs(x: CallInput)
    ensures Finalize(x).FinalThrows? ==> x.after == AfterThrows(Finalize(x).error)
  {
  }

  lemma FirstOfJobs(cfg: Config, calls: seq<Call>, inp: nat -> CallInput, ks: seq<nat>, n: nat)
    requires ks == Select(cfg, calls, inp, 0, |calls|, true) && Within(ks, |calls|) && Increasing(ks, 0, |calls|)
    requires n < |ks| && Finalize(inp(ks[n])).FinalThrows?
    requires forall j :: 0 <= j < n ==> Finalize(inp(ks[j])).Final?
    ensures FirstEscape(cfg, calls, inp, 0) == Some(inp(ks[n]).after.error)
  {
    hide FirstEscape, Select;
    SelectWithin(cfg, calls, inp, 0, |calls|, true);
    assert ks[n] in ks;
    EscapesIs(cfg, calls[ks[n]], inp(ks[n]));
    forall j | 0 <= j < ks[n] ensures !Escapes(cfg, calls[j], inp(j)) {
      EscapesIs(cfg, calls[j], inp(j));
      Selected(cfg, calls, inp, 0, |calls|, j);
      if Prepare(cfg.tools, calls[j], inp(j)).Prepared? {
        var m :| 0 <= m < |ks| && ks[m] == j;
        assert m < n && Finalize(inp(ks[m])).Final?;
      }
    }
    FirstEscapeIs(cfg, calls, inp, 0, ks[n]);
  }

  /** A phase that fails lets out exactly the exception PhaseError says, from its inputs. */
  lemma PhaseErrorIs(cfg: Config, calls: seq<Call>, inp: PhaseInput, w: World)
    requires WorldFaithful(w)
    ensures var p := Execute(cfg, calls, inp, w);
            PhaseError(cfg, calls, inp, w) == if p.ending.Failed? then Some(p.ending.error) else None
  {
    hide AwaitPoll, RunAll, PrepareAll, Sequential, SequentialError, Interrupted, Ran, AllQuiet, SomeEscape, Quiet,
         PreparationError, FirstEscape, WorldFaithful, Piece;
    if cfg.mode.Sequentially? {
      SequentialErrorIs(cfg, calls, inp.calls, 0, w);
    } else {
      var prep := PrepareAll(cfg, calls, inp.calls, 0, w);
      PrepareAllStays(cfg, calls, inp.calls, 0, w);
      PrepareAllShape(cfg, calls, inp.calls, 0, w);
      PreparationFailsExactlyWhen(cfg, calls, inp.calls, 0, w, false);
      PreparationErrorIs(cfg, calls, inp.calls, 0, w);
      match prep.ending
      case PrepFailed(_) =>
      case Steered(got) => InterruptedEnding(calls, prep, got);
      case Ready => RanErrorIs(cfg, calls, inp, prep);
    }
  }

  lemma RanErrorIs(cfg: Config, calls: seq<Call>, inp: PhaseInput, prep: Prep)
    requires PrepShaped(cfg, calls, inp.calls, 0, prep) && prep.ending.Ready?
    ensures var p, e := Ran(calls, inp, prep), FirstEscape(cfg, calls, inp.calls, 0);
            (if p.ending.Failed? then Some(p.ending.error) else None) == if e.Some? then e else inp.last.throws
  {
    hide AwaitPoll, RunAll, FirstEscape, Select, Piece, ImmediateResults, Quiet, AfterQuiet;
    RunErrorIs(cfg, calls, inp);
    PollIs(prep.world, inp.last);
    PollErrorIs(prep.world, inp.last);
  }

  // ----- When a phase is interrupted by nothing -----

  /** Sequentially, from call `i` on: no hook throws and every poll is quiet. */
  predicate SequentialQuiet(cfg: Config, calls: seq<Call>, inp: nat -> CallInput, i: nat, w: World)
    requires i <= |calls|
    decreases |calls| - i
  {
    i < |calls| ==>
      && !Escapes(cfg, calls[i], inp(i)) && Quiet(w, inp(i).poll)
      && SequentialQuiet(cfg, calls, inp, i + 1, AfterQuiet(w, inp(i).poll))
  }

  /** The queues after the polls of calls `i` and on, when all are quiet. */
  function AfterAllQuiet(calls: seq<Call>, inp: nat -> CallInput, i: nat, w: World): World
    requires i <= |calls|
    decreases |calls| - i
  {
    if i == |calls| then w else AfterAllQuiet(calls, inp, i + 1, AfterQuiet(w, inp(i).poll))
  }

  /** No hook of the phase throws and every poll of it is quiet. */
  predicate PhaseQuiet(cfg: Config, calls: seq<Call>, inp: PhaseInput, w: World) {
    if cfg.mode.Sequentially? then SequentialQuiet(cfg, calls, inp.calls, 0, w)
    else
      && AllQuiet(calls, inp.calls, 0, w) && !SomeEscape(cfg, calls, inp.calls)
      && Quiet(AfterAllQuiet(calls, inp.calls, 0, w), inp.last)
  }

  lemma {:induction false} SequentialQuietExactlyWhen(cfg: Config, calls: seq<Call>, inp: nat -> CallInput, i: nat,
                                                      w: World)
    requires i <= |calls|
    ensures Sequential(cfg, calls, inp, i, w).ending == Completed([]) <==> SequentialQuiet(cfg, calls, inp, i, w)
    decreases |calls| - i
  {
    hide AwaitPoll, Escapes, Quiet, AfterQuiet, OutcomeOf, Skips, SkipEvents, Emit, Updates;
    if i < |calls| {
      PollIs(w, inp(i).poll);
      EscapesIs(cfg, calls[i], inp(i));
      SequentialQuietExactlyWhen(cfg, calls, inp, i + 1, AfterQuiet(w, inp(i).poll));
    }
  }

  lemma {:induction false} QuietPreparation(cfg: Config, calls: seq<Call>, inp: nat -> CallInput, i: nat, w: World)
    requires i <= |calls|
    ensures var p := PrepareAll(cfg, calls, inp, i, w);
            && (p.ending.Ready? ==> p.world == AfterAllQuiet(calls, inp, i, w))
            && (p.ending.Steered? ==> p.ending.got != [])
    decreases |calls| - i
  {
    hide AwaitPoll, Quiet, AfterQuiet, Emit, Prepare;
    if i < |calls| {
      PollIs(w, inp(i).poll);
      QuietPreparation(cfg, calls, inp, i + 1, AfterQuiet(w, inp(i).poll));
    }
  }

  lemma RanQuietExactlyWhen(cfg: Config, calls: seq<Call>, inp: PhaseInput, prep: Prep)
    requires PrepShaped(cfg, calls, inp.calls, 0, prep) && prep.ending.Ready?
    ensures Ran(calls, inp, prep).ending == Completed([])
            <==> !SomeEscape(cfg, calls, inp.calls) && Quiet(prep.world, inp.last)
  {
    hide AwaitPoll, RunAll, SomeEscape, Select, Piece, ImmediateResults, Quiet, AfterQuiet;
    RunFailsExactlyWhen(cfg, calls, inp);
    PollIs(prep.world, inp.last);
  }

  /** A phase completes without a message to deliver exactly when PhaseQuiet says so
      of its inputs. */
  lemma PhaseQuietExactlyWhen(cfg: Config, calls: seq<Call>, inp: PhaseInput, w: World)
    requires WorldFaithful(w)
    ensures Execute(cfg, calls, inp, w).ending == Completed([]) <==> PhaseQuiet(cfg, calls, inp, w)
  {
    hide AwaitPoll, RunAll, PrepareAll, Sequential, SequentialQuiet, Interrupted, Ran, AllQuiet, SomeEscape, Quiet,
         AfterAllQuiet, WorldFaithful, Piece;
    if cfg.mode.Sequentially? {
      SequentialQuietExactlyWhen(cfg, calls, inp.calls, 0, w);
    } else {
      var prep := PrepareAll(cfg, calls, inp.calls, 0, w);
      PrepareAllStays(cfg, calls, inp.calls, 0, w);
      PrepareAllShape(cfg, calls, inp.calls, 0, w);
      PreparationFailsExactlyWhen(cfg, calls, inp.calls, 0, w, false);
      QuietPreparation(cfg, calls, inp.calls, 0, w);
      match prep.ending
      case PrepFailed(_) =>
      case Steered(got) => InterruptedEnding(calls, prep, got);
      case Ready => RanQuietExactlyWhen(cfg, calls, inp, prep);
    }
  }

  lemma InterruptedEnding(calls: seq<Call>, prep: Prep, got: seq<Message>)
    requires Within(prep.runnable, |calls|) && prep.next <= |calls|
    ensures Interrupted(calls, prep, got).ending == Completed(got)
  {
    hide SkipEvents;
  }

  // ----- Hooks and polls that do not throw -----

  predicate GentleCall(x: CallInput) { !x.after.AfterThrows? && x.poll.throws.None? }

  /** No afterToolCall hook and no poll of the phase throws. */
  predicate Gentle(calls: seq<Call>, inp: PhaseInput) {
    (forall k :: 0 <= k < |calls| ==> GentleCall(inp.calls(k))) && inp.last.throws.None?
  }

  lemma {:induction false} GentleLoops(cfg: Config, calls: seq<Call>, inp: PhaseInput, i: nat, w: World)
    requires i <= |calls| && Gentle(calls, inp)
    ensures !SequentialFails(cfg, calls, inp.calls, i, w) && !PreparationFails(calls, inp.calls, i, w)
    decreases |calls| - i
  {
    hide Quiet, AfterQuiet;
    if i < |calls| {
      assert GentleCall(inp.calls(i));
      GentleLoops(cfg, calls, inp, i + 1, AfterQuiet(w, inp.calls(i).poll));
    }
  }

  /** With hooks and polls that do not throw every phase completes, in both modes. */
  lemma GentlePhasesComplete(cfg: Config, calls: seq<Call>, inp: PhaseInput, w: World)
    requires WorldFaithful(w) && Gentle(calls, inp)
    ensures Execute(cfg, calls, inp, w).ending.Completed?
  {
    hide Execute, WorldFaithful, AllQuiet;
    PhaseFailsExactlyWhen(cfg, calls, inp, w);
    GentleLoops(cfg, calls, inp, 0, w);
    forall k | 0 <= k < |calls| ensures !Escapes(cfg, calls[k], inp.calls(k)) {
      assert GentleCall(inp.calls(k));
    }
  }

  // ----- Pairing, also when the phase fails -----

  lemma {:induction false} SequentialPairs(cfg: Config, calls: seq<Call>, inp: nat -> CallInput, i: nat, w: World,
                                           open: set<string>)
    requires i <= |calls| && Distinct(Ids(calls[i..])) && open !! IdSet(calls[i..])
    ensures Paired(open, Sequential(cfg, calls, inp, i, w).events)
    decreases |calls| - i
  {
    hide ExecuteOne, AwaitPoll, Paired, PendingIds, Distinct, Ids;
    if i == |calls| {
      NothingPairs(open);
    } else {
      var c, rest := calls[i], calls[i + 1..];
      assert calls[i..] == [c] + rest && ([c] + rest)[1..] == rest;
      assert IdSet([c] + rest) == {c.id} + IdSet(rest);
      DistinctTail(calls[i..]);
      ExecuteOneShape(cfg, calls, inp, i, w, open);
      var one := ExecuteOne(cfg, calls, inp, i, w);
      var polled := AwaitPoll(w, Steering, inp(i).poll);
      if one.ending.Completed? && polled.Heard? {
        var more := if polled.got != [] then SkipEvents(rest, true)
          else Sequential(cfg, calls, inp, i + 1, polled.world).events;
        if polled.got != [] {
          SkipPaired(rest, true, open - {c.id});
        } else {
          SequentialPairs(cfg, calls, inp, i + 1, polled.world, open - {c.id});
        }
        PendingSplit(open, one.events, more);
      }
    }
  }

  lemma NothingPairs(open: set<string>)
    ensures Paired(open, [])
  {
  }

  lemma RanPairs(calls: seq<Call>, inp: PhaseInput, prep: Prep)
    requires prep.next == |calls| && Within(prep.runnable, |calls|) && Distinct(Ids(calls))
    requires PrepOpens(calls[0..prep.next], CallsAt(calls, prep.runnable), {}, prep.events)
    requires Distinct(Ids(CallsAt(calls, prep.runnable)))
    ensures Paired({}, Ran(calls, inp, prep).events)
  {
    hide AwaitPoll, RunAll, Piece, Aligned, Paired, PendingIds;
    var left := PendingIds({}, prep.events);
    RanPiece(calls, inp, prep.runnable, left);
    var run := RunAll(Jobs(calls, inp.calls, prep.runnable), inp.schedule);
    var ks := prep.runnable;
    PrefixIds(CallsAt(calls, ks), run.next);
    assert CallsAt(calls, ks[..run.next]) == CallsAt(calls, ks)[..run.next];
    PendingSplit({}, prep.events, run.events);
    assert calls[0..|calls|] == calls;
  }

  lemma {:induction false} PrefixIds(cs: seq<Call>, n: nat)
    requires n <= |cs|
    ensures IdSet(cs[..n]) <= IdSet(cs) && (Distinct(Ids(cs)) ==> Distinct(Ids(cs[..n])))
    decreases |cs|
  {
    assert Ids(cs[..n]) == Ids(cs)[..n];
    if n > 0 {
      PrefixIds(cs[1..], n - 1);
      assert cs[..n][1..] == cs[1..][..n - 1];
    }
  }

  /** With distinct ids the tool events of any phase, failed or not, are paired: an id
      is started only when closed and ended only when open. */
  lemma PhasePairs(cfg: Config, calls: seq<Call>, inp: PhaseInput, w: World)
    requires WorldFaithful(w) && Distinct(Ids(calls))
    ensures Paired({}, Execute(cfg, calls, inp, w).events)
  {
    hide Paired, Distinct, Ids, PendingIds, WorldFaithful;
    if cfg.mode.Sequentially? {
      hide Sequential;
      assert calls[0..] == calls;
      SequentialPairs(cfg, calls, inp.calls, 0, w, {});
    } else {
      hide AwaitPoll, RunAll, PrepareAll, PrepOpens, Interrupted, Ran;
      var prep := PrepareAll(cfg, calls, inp.calls, 0, w);
      PrepareAllShape(cfg, calls, inp.calls, 0, w);
      PrepareAllOpens(cfg, calls, inp.calls, 0, w, {});
      RunnableDistinct(cfg, calls, inp.calls, 0, prep.next);
      match prep.ending
      case PrepFailed(_) => PrepPairs(calls, prep);
      case Steered(got) => InterruptedCloses(calls, prep, got);
      case Ready => RanPairs(calls, inp, prep);
    }
  }

  lemma PrepPairs(calls: seq<Call>, prep: Prep)
    requires prep.next <= |calls| && Within(prep.runnable, |calls|) && Distinct(Ids(calls))
    requires PrepOpens(calls[0..prep.next], CallsAt(calls, prep.runnable), {}, prep.events)
    ensures Paired({}, prep.events)
  {
    hide Distinct, Ids, Paired, PendingIds;
    DistinctParts(calls, prep.next);
  }

  // ----- Source order -----

  /** How many calls the preparation loop reaches: up to the first whose poll is not
      quiet, or all. */
  function CallsReached(calls: seq<Call>, inp: nat -> CallInput, i: nat, w: World): (next: nat)
    requires i <= |calls|
    ensures i <= next <= |calls|
    decreases |calls| - i
  {
    if i == |calls| then i
    else if Quiet(w, inp(i).poll) then CallsReached(calls, inp, i + 1, AfterQuiet(w, inp(i).poll))
    else i + 1
  }

  lemma {:induction false} LoopStops(cfg: Config, calls: seq<Call>, inp: nat -> CallInput, i: nat, w: World)
    requires i <= |calls|
    ensures PrepareAll(cfg, calls, inp, i, w).next == CallsReached(calls, inp, i, w)
    decreases |calls| - i
  {
    hide AwaitPoll, Quiet, AfterQuiet, Emit, Prepare;
    if i < |calls| {
      PollIs(w, inp(i).poll);
      LoopStops(cfg, calls, inp, i + 1, AfterQuiet(w, inp(i).poll));
    }
  }

  /** The documentation's "results in source order" is false in parallel mode.  Of every
      phase that does not fail: it holds exactly when, among the calls up to the first
      whose poll is not quiet, none that is answered at once follows one that reaches
      its tool.  Sequential mode always keeps it. */
  lemma SourceOrderExactlyWhen(cfg: Config, calls: seq<Call>, inp: PhaseInput, w: World)
    requires WorldFaithful(w) && !PhaseFails(cfg, calls, inp, w)
    ensures SourceOrder(calls, Execute(cfg, calls, inp, w))
            <==> cfg.mode.Sequentially?
                 || forall a, b :: 0 <= a < b < CallsReached(calls, inp.calls, 0, w)
                                   && Reaches(cfg.tools, calls[a], inp.calls(a))
                                   ==> Reaches(cfg.tools, calls[b], inp.calls(b))
  {
    hide Execute, PrepareAll, PhaseFails, WorldFaithful, Prepare, Reaches, SourceOrder, CallsReached;
    PhaseFailsExactlyWhen(cfg, calls, inp, w);
    SourceOrderByLoop(cfg, calls, inp, w);
    LoopStops(cfg, calls, inp.calls, 0, w);
    forall k | 0 <= k < |calls|
      ensures Prepare(cfg.tools, calls[k], inp.calls(k)).Prepared? <==> Reaches(cfg.tools, calls[k], inp.calls(k))
    {
      EscapesIs(cfg, calls[k], inp.calls(k));
    }
  }

  /** A call whose tool, if there is one, returns at once and nothing else happens. */
  function Plain(k: nat): CallInput {
    CallInput(Valid, Allow, [], Returns("ok", ""), Keep, PollPoint([], None))
  }

  /** In parallel, with one tool, a call of it and then a call of a tool that is not
      there: the second call's result comes first. */
  lemma UnknownToolComesFirst()
    ensures var cfg, calls := Config({"t"}, InParallel), [Call("1", "t", ""), Call("2", "u", "")];
            var p := Execute(cfg, calls, PhaseInput(Plain, [], PollPoint([], None)), Empty(OneAtATime, OneAtATime));
            && p.ending.Completed?
            && p.results == [ResultMessage(calls[1], ErrorOutcome("Tool u not found")),
                             ResultMessage(calls[0], Outcome("ok", "", false))]
            && ResultIds(p.results) == ["2", "1"] && Ids(calls) == ["1", "2"]
  {
    var cfg, calls := Config({"t"}, InParallel), [Call("1", "t", ""), Call("2", "u", "")];
    var inp, w := PhaseInput(Plain, [], PollPoint([], None)), Empty(OneAtATime, OneAtATime);
    hide RunAll, PrepareAll, Parallel, AllExecuted, Select, AwaitPoll, ActAll, AfterPoll;
    EmptyIsFaithful(OneAtATime, OneAtATime);
    GentlePhasesComplete(cfg, calls, inp, w);
    ParallelAllOrNothing(cfg, calls, inp, w);
    PreparationFailsExactlyWhen(cfg, calls, inp.calls, 0, w, false);
    EmptyStaysQuiet(calls, 0, w);
    SelectedTwo(cfg, calls);
    var p := Parallel(cfg, calls, inp, w);
    assert p.order == [1, 0];
    TwoExecuted(cfg, calls, p);
  }

  lemma EmptyIsFaithful(a: Mode, b: Mode)
    ensures WorldFaithful(Empty(a, b))
  {
  }

  /** Nothing is queued. */
  predicate Silent(w: World) { w.steering.lane.entries == [] }

  lemma SilentIsQuiet(w: World)
    requires Silent(w)
    ensures Quiet(w, PollPoint([], None)) && Silent(AfterQuiet(w, PollPoint([], None)))
  {
  }

  lemma {:induction false} EmptyStaysQuiet(calls: seq<Call>, i: nat, w: World)
    requires Silent(w) && i <= |calls|
    ensures AllQuiet(calls, Plain, i, w)
    decreases |calls| - i
  {
    hide Quiet, AfterQuiet, Silent;
    if i < |calls| {
      SilentIsQuiet(w);
      EmptyStaysQuiet(calls, i + 1, AfterQuiet(w, PollPoint([], None)));
    }
  }

  lemma SelectedTwo(cfg: Config, calls: seq<Call>)
    requires cfg.tools == {"t"} && calls == [Call("1", "t", ""), Call("2", "u", "")]
    ensures Select(cfg, calls, Plain, 0, 2, false) == [1] && Select(cfg, calls, Plain, 0, 2, true) == [0]
  {
    assert "u" !in {"t"} by { assert "u"[0] != "t"[0]; }
    assert Prepare(cfg.tools, calls[0], Plain(0)).Prepared?;
    assert Prepare(cfg.tools, calls[1], Plain(1)).Immediate?;
    assert Select(cfg, calls, Plain, 2, 2, false) == [] == Select(cfg, calls, Plain, 2, 2, true);
    assert Select(cfg, calls, Plain, 1, 2, false) == [1] && Select(cfg, calls, Plain, 1, 2, true) == [];
  }

  lemma TwoExecuted(cfg: Config, calls: seq<Call>, p: Phase)
    requires cfg.tools == {"t"} && calls == [Call("1", "t", ""), Call("2", "u", "")]
    requires p.order == [1, 0] && AllExecuted(cfg, calls, Plain, p.order, p.results)
    ensures p.results == [ResultMessage(calls[1], ErrorOutcome("Tool u not found")),
                          ResultMessage(calls[0], Outcome("ok", "", false))]
    ensures ResultIds(p.results) == ["2", "1"]
  {
    assert "u" !in {"t"} by { assert "u"[0] != "t"[0]; }
    assert "Tool " + "u" + " not found" == "Tool u not found";
    assert Executed(cfg, calls, Plain, p.order[0], p.results[0]);
    assert Executed(cfg, calls, Plain, p.order[1], p.results[1]);
  }
}
