/** AnswerInjector (src/headless-answers.ts:91-285) with the auto-responder it
    falls back on (src/headless.ts:353-408, src/headless-ui.ts:36-45): questions
    announced and asked in any order, titles repeated, timers firing.

    Each select request is named by its number; its timer too. */
module Answers {
  import opened Messages

  datatype Answer = One(value: string) | Many(values: seq<string>)

  datatype AnswerFile = AnswerFile(questions: map<string, Answer>, cancel: bool)

  datatype Meta = Meta(id: string, allowMultiple: bool)

  datatype Question = Question(title: string, meta: Meta)

  datatype Select = Select(title: string, options: seq<string>)

  datatype Response = Value(value: string) | Values(values: seq<string>) | Cancelled

  datatype Deferral = Deferral(title: string, request: nat)

  /** History: what became of a request. */
  datatype Fate = Waiting | Answered(id: string, response: Response) | Defaulted(response: Response) | Dropped

  datatype Written = Written(request: nat, response: Response)

  /** The injector's fields, what was written to the child, and the history. */
  datatype Injector = Injector(
    file: AnswerFile, meta: map<string, Meta>, deferred: seq<Deferral>, timers: set<nat>, used: set<string>,
    answered: nat, defaulted: nat, requests: seq<Select>, written: seq<Written>, fates: seq<Fate>)

  datatype Input =
    | Observe(questions: seq<Question>)
    | Ask(request: Select)
    | Fire(timer: nat)

  function Fresh(file: AnswerFile): Injector {
    Injector(file, map[], [], {}, {}, 0, 0, [], [], [])
  }

  /** The value both the timer and the auto-responder send. */
  function FirstOption(options: seq<string>): Response {
    Value(if options == [] then "" else options[0])
  }

  /** The response the answer file gives, if it has a valid one. */
  function FromFile(file: AnswerFile, m: Meta, options: seq<string>): Option<Response> {
    if m.id !in file.questions then None
    else
      var answer := file.questions[m.id];
      if m.allowMultiple then
        var values := if answer.Many? then answer.values else [answer.value];
        if forall v :: v in values ==> v in options then Some(Values(values)) else None
      else
        match answer
        case One(v) => if v in options then Some(Value(v)) else None
        case Many(vs) => if vs != [] && vs[0] in options then Some(Value(vs[0])) else None
  }

  /** What an answer chooses. */
  function Chosen(a: Answer): seq<string> { if a.One? then [a.value] else a.values }

  /** The file has a valid answer: to a question that allows several, one all of whose
      choices are among the options; to any other, one whose first choice is. */
  predicate Offers(file: AnswerFile, m: Meta, options: seq<string>) {
    && m.id in file.questions
    && var chosen := Chosen(file.questions[m.id]);
    if m.allowMultiple then forall k :: 0 <= k < |chosen| ==> chosen[k] in options
    else |chosen| > 0 && chosen[0] in options
  }

  /** The response of a valid answer: all its choices, or its first. */
  function Offered(file: AnswerFile, m: Meta): Response
    requires m.id in file.questions
  {
    var chosen := Chosen(file.questions[m.id]);
    if m.allowMultiple then Values(chosen) else if |chosen| > 0 then Value(chosen[0]) else Cancelled
  }

  /** The file gives a response exactly when it has a valid answer, and then that. */
  lemma FromFileExactlyWhen(file: AnswerFile, m: Meta, options: seq<string>)
    ensures FromFile(file, m, options).Some? <==> Offers(file, m, options)
    ensures Offers(file, m, options) ==> FromFile(file, m, options) == Some(Offered(file, m))
  {
    if m.id in file.questions {
      var chosen := Chosen(file.questions[m.id]);
      assert (forall v :: v in chosen ==> v in options) <==> forall k :: 0 <= k < |chosen| ==> chosen[k] in options;
    }
  }

  // ----- The deferral list, in insertion order, one entry a title -----

  function Remove(ds: seq<Deferral>, title: string): seq<Deferral> {
    if ds == [] then []
    else if ds[0].title == title then Remove(ds[1..], title)
    else [ds[0]] + Remove(ds[1..], title)
  }

  function Put(ds: seq<Deferral>, d: Deferral): seq<Deferral> {
    if ds == [] then [d]
    else if ds[0].title == d.title then [d] + ds[1..]
    else [ds[0]] + Put(ds[1..], d)
  }

  // ----- Operations -----

  /** A response goes out for request `n`. */
  function Write(s: Injector, n: nat, fate: Fate): Injector
    requires n < |s.fates| && (fate.Answered? || fate.Defaulted?)
  {
    s.(written := s.written + [Written(n, fate.response)], fates := s.fates[n := fate])
  }

  /** processWithMeta; the flag is its result. */
  function ProcessWithMeta(s: Injector, n: nat): (Injector, bool)
    requires n < |s.requests| == |s.fates| && s.requests[n].title in s.meta
  {
    var m := s.meta[s.requests[n].title];
    match FromFile(s.file, m, s.requests[n].options)
    case Some(response) =>
      (Write(s, n, Answered(m.id, response)).(used := s.used + {m.id}, answered := s.answered + 1), true)
    case None =>
      var s' := s.(defaulted := s.defaulted + 1);
      if s.file.cancel then (Write(s', n, Defaulted(Cancelled)), true)
      else (s'.(fates := s.fates[n := Dropped]), false)
  }

  /** A select request arrives: tryHandle, then the auto-responder if it says no. */
  function OnAsk(s: Injector, r: Select): Injector
    requires |s.requests| == |s.fates|
  {
    var n := |s.requests|;
    var s1 := s.(requests := s.requests + [r], fates := s.fates + [Waiting]);
    if r.title in s.meta then
      var (s2, handled) := ProcessWithMeta(s1, n);
      if handled then s2 else Write(s2, n, Defaulted(FirstOption(r.options)))
    else
      s1.(deferred := Put(s.deferred, Deferral(r.title, n)), timers := s.timers + {n})
  }

  /** The timer of request `n`. */
  function OnFire(s: Injector, n: nat): Injector
    requires n < |s.requests| == |s.fates|
  {
    var r := s.requests[n];
    Write(s.(deferred := Remove(s.deferred, r.title), timers := s.timers - {n}, defaulted := s.defaulted + 1),
          n, Defaulted(if s.file.cancel then Cancelled else FirstOption(r.options)))
  }

  function Learn(meta: map<string, Meta>, questions: seq<Question>): map<string, Meta>
    decreases |questions|
  {
    if questions == [] then meta else Learn(meta[questions[0].title := questions[0].meta], questions[1..])
  }

  /** A deferral whose metadata is now known. */
  function Resolve(s: Injector, d: Deferral): Injector
    requires d.request < |s.requests| == |s.fates| && s.requests[d.request].title in s.meta
  {
    ProcessWithMeta(s.(deferred := Remove(s.deferred, d.title), timers := s.timers - {d.request}), d.request).0
  }

  /** The code tests only that the title's metadata is known; the rest holds of every
      deferral (ResolveKeeps). */
  predicate Known(s: Injector, d: Deferral) {
    d.title in s.meta && d.request < |s.requests| == |s.fates| && s.requests[d.request].title == d.title
  }

  /** The loop over the deferrals there were when the metadata came. */
  function ResolveAll(s: Injector, ds: seq<Deferral>): Injector
    decreases |ds|
  {
    if ds == [] then s else ResolveAll(if Known(s, ds[0]) then Resolve(s, ds[0]) else s, ds[1..])
  }

  function OnObserve(s: Injector, questions: seq<Question>): Injector {
    ResolveAll(s.(meta := Learn(s.meta, questions)), s.deferred)
  }

  function Step(s: Injector, i: Input): Injector
    requires |s.requests| == |s.fates|
  {
    match i
    case Observe(questions) => OnObserve(s, questions)
    case Ask(r) => OnAsk(s, r)
    case Fire(n) => if n in s.timers && n < |s.requests| then OnFire(s, n) else s
  }

  // ----- The invariant -----

  function CountWaiting(fs: seq<Fate>): nat {
    if fs == [] then 0 else CountWaiting(fs[..|fs| - 1]) + (if fs[|fs| - 1].Waiting? then 1 else 0)
  }

  function CountAnswered(fs: seq<Fate>): nat {
    if fs == [] then 0 else CountAnswered(fs[..|fs| - 1]) + (if fs[|fs| - 1].Answered? then 1 else 0)
  }

  /** Responses written for request `n`. */
  function WrittenFor(ws: seq<Written>, n: nat): nat {
    if ws == [] then 0 else WrittenFor(ws[..|ws| - 1], n) + (if ws[|ws| - 1].request == n then 1 else 0)
  }

  predicate Responded(f: Fate) { f.Answered? || f.Defaulted? }

  /** The live timers are the waiting requests, and the counters count. */
  ghost predicate Counted(timers: set<nat>, answered: nat, defaulted: nat, fs: seq<Fate>) {
    && (forall n: nat :: n in timers <==> n < |fs| && fs[n].Waiting?)
    && answered == CountAnswered(fs)
    && answered + defaulted + CountWaiting(fs) == |fs|
  }

  /** A request has one response if it was answered or defaulted, none otherwise. */
  ghost predicate Once(ws: seq<Written>, fs: seq<Fate>) {
    forall n: nat :: WrittenFor(ws, n) == if n < |fs| && Responded(fs[n]) then 1 else 0
  }

  /** What the code keeps agrees with what became of each request. */
  ghost predicate Tallied(s: Injector) {
    |s.requests| == |s.fates| && Counted(s.timers, s.answered, s.defaulted, s.fates) && Once(s.written, s.fates)
  }

  /** Deferrals: one a title, each for a waiting request of that title whose
      metadata is not known. */
  predicate Deferring(s: Injector) {
    DistinctTitles(s.deferred) && forall d :: d in s.deferred ==> Deferrable(s, d)
  }

  predicate Deferrable(s: Injector, d: Deferral) {
    && d.request in s.timers && d.request < |s.requests|
    && s.requests[d.request].title == d.title
  }

  predicate NoneKnown(s: Injector) {
    forall d :: d in s.deferred ==> d.title !in s.meta
  }

  /** A response that is the answer given, and among the options offered. */
  predicate Gives(answer: Answer, options: seq<string>, response: Response) {
    match response
    case Value(v) => v in options
      && (if answer.One? then v == answer.value else answer.values != [] && v == answer.values[0])
    case Values(vs) =>
      (forall v :: v in vs ==> v in options) && vs == if answer.One? then [answer.value] else answer.values
    case Cancelled => false
  }

  /** The first of the options offered, or nothing. */
  function FirstOf(options: seq<string>): (response: Response)
    ensures response.Value?
    ensures options != [] ==> response.value == options[0]
    ensures options == [] ==> response.value == ""
  {
    if |options| > 0 then Value(options[0]) else Value("")
  }

  /** A response to a request is a fair one. */
  predicate Fair(file: AnswerFile, r: Select, f: Fate) {
    match f
    case Answered(id, response) => id in file.questions && Gives(file.questions[id], r.options, response)
    case Defaulted(response) => response == if file.cancel then Cancelled else FirstOf(r.options)
    case Dropped => !file.cancel
    case Waiting => true
  }

  predicate AllFair(s: Injector)
    requires |s.requests| == |s.fates|
  {
    forall n :: 0 <= n < |s.fates| ==> Fair(s.file, s.requests[n], s.fates[n])
  }

  ghost predicate Inv(s: Injector) {
    Tallied(s) && Deferring(s) && NoneKnown(s) && AllFair(s)
  }

  // ----- Counting -----

  lemma {:induction false} CountUpdate(fs: seq<Fate>, n: nat, f: Fate)
    requires n < |fs|
    ensures CountWaiting(fs[n := f])
         == CountWaiting(fs) - (if fs[n].Waiting? then 1 else 0) + (if f.Waiting? then 1 else 0)
    ensures CountAnswered(fs[n := f])
         == CountAnswered(fs) - (if fs[n].Answered? then 1 else 0) + (if f.Answered? then 1 else 0)
  {
    var last := |fs| - 1;
    var g := fs[n := f];
    if n == last {
      assert g[..last] == fs[..last];
    } else {
      assert g[..last] == fs[..last][n := f];
      CountUpdate(fs[..last], n, f);
    }
  }

  lemma CountAppend(fs: seq<Fate>, f: Fate)
    ensures CountWaiting(fs + [f]) == CountWaiting(fs) + (if f.Waiting? then 1 else 0)
    ensures CountAnswered(fs + [f]) == CountAnswered(fs) + (if f.Answered? then 1 else 0)
  {
    assert (fs + [f])[..|fs|] == fs;
  }

  lemma WrittenAppend(ws: seq<Written>, w: Written, n: nat)
    ensures WrittenFor(ws + [w], n) == WrittenFor(ws, n) + (if w.request == n then 1 else 0)
  {
    assert (ws + [w])[..|ws|] == ws;
  }

  // ----- The deferral list -----

  lemma {:induction false} RemoveKeeps(ds: seq<Deferral>, title: string, d: Deferral)
    ensures d in Remove(ds, title) <==> d in ds && d.title != title
  {
    if ds != [] { RemoveKeeps(ds[1..], title, d); }
  }

  predicate DistinctTitles(ds: seq<Deferral>) {
    forall i, j :: 0 <= i < j < |ds| ==> ds[i].title != ds[j].title
  }

  lemma {:induction false} RemoveDistinct(ds: seq<Deferral>, title: string)
    requires DistinctTitles(ds)
    ensures DistinctTitles(Remove(ds, title))
  {
    if ds != [] {
      DistinctTail(ds);
      RemoveDistinct(ds[1..], title);
      var rest := Remove(ds[1..], title);
      if ds[0].title != title {
        forall j | 0 <= j < |rest| ensures rest[j].title != ds[0].title {
          RemoveKeeps(ds[1..], title, rest[j]);
          var k :| 0 <= k < |ds[1..]| && ds[1..][k] == rest[j];
          assert ds[k + 1] == rest[j];
        }
        ConsDistinct(ds[0], rest);
      }
    }
  }

  lemma DistinctTail(ds: seq<Deferral>)
    requires DistinctTitles(ds) && ds != []
    ensures DistinctTitles(ds[1..])
    ensures forall j :: 0 <= j < |ds[1..]| ==> ds[1..][j].title != ds[0].title
  {
    forall i, j | 0 <= i < j < |ds[1..]| ensures ds[1..][i].title != ds[1..][j].title {
      assert ds[1..][i] == ds[i + 1] && ds[1..][j] == ds[j + 1];
    }
    forall j | 0 <= j < |ds[1..]| ensures ds[1..][j].title != ds[0].title {
      assert ds[1..][j] == ds[j + 1];
    }
  }

  lemma ConsDistinct(d: Deferral, ds: seq<Deferral>)
    requires DistinctTitles(ds) && forall j :: 0 <= j < |ds| ==> ds[j].title != d.title
    ensures DistinctTitles([d] + ds)
  {
  }

  lemma {:induction false} PutFacts(ds: seq<Deferral>, d: Deferral, x: Deferral)
    requires DistinctTitles(ds)
    ensures x in Put(ds, d) <==> x == d || (x in ds && x.title != d.title)
  {
    if ds != [] {
      DistinctTail(ds);
      PutFacts(ds[1..], d, x);
      if ds[0].title == d.title {
        assert x in ds[1..] ==> x in ds && x.title != d.title;
      }
    }
  }

  lemma {:induction false} PutDistinct(ds: seq<Deferral>, d: Deferral)
    requires DistinctTitles(ds)
    ensures DistinctTitles(Put(ds, d))
  {
    if ds != [] {
      DistinctTail(ds);
      if ds[0].title == d.title {
        ConsDistinct(d, ds[1..]);
      } else {
        PutDistinct(ds[1..], d);
        var rest := Put(ds[1..], d);
        forall j | 0 <= j < |rest| ensures rest[j].title != ds[0].title {
          PutFacts(ds[1..], d, rest[j]);
        }
        ConsDistinct(ds[0], rest);
      }
    }
  }

  // ----- One request at a time -----

  lemma SettleCounted(timers: set<nat>, answered: nat, defaulted: nat, fs: seq<Fate>, n: nat, f: Fate)
    requires Counted(timers, answered, defaulted, fs) && n < |fs| && fs[n].Waiting? && !f.Waiting?
    ensures if f.Answered? then Counted(timers - {n}, answered + 1, defaulted, fs[n := f])
            else Counted(timers - {n}, answered, defaulted + 1, fs[n := f])
  {
    CountUpdate(fs, n, f);
  }

  lemma AskCounted(timers: set<nat>, answered: nat, defaulted: nat, fs: seq<Fate>)
    requires Counted(timers, answered, defaulted, fs)
    ensures Counted(timers + {|fs|}, answered, defaulted, fs + [Waiting])
  {
    CountAppend(fs, Waiting);
  }

  lemma RewriteCounted(timers: set<nat>, answered: nat, defaulted: nat, fs: seq<Fate>, n: nat, f: Fate)
    requires Counted(timers, answered, defaulted, fs) && n < |fs| && fs[n].Dropped? && f.Defaulted?
    ensures Counted(timers, answered, defaulted, fs[n := f])
  {
    CountUpdate(fs, n, f);
  }

  lemma WriteOnce(ws: seq<Written>, fs: seq<Fate>, n: nat, f: Fate)
    requires Once(ws, fs) && n < |fs| && !Responded(fs[n]) && Responded(f)
    ensures Once(ws + [Written(n, f.response)], fs[n := f])
  {
    forall k: nat
      ensures WrittenFor(ws + [Written(n, f.response)], k) == if k < |fs| && Responded(fs[n := f][k]) then 1 else 0
    {
      WrittenAppend(ws, Written(n, f.response), k);
    }
  }

  lemma SilentOnce(ws: seq<Written>, fs: seq<Fate>, n: nat, f: Fate)
    requires Once(ws, fs) && n < |fs| && !Responded(fs[n]) && !Responded(f)
    ensures Once(ws, fs[n := f])
  {
  }

  lemma AskOnce(ws: seq<Written>, fs: seq<Fate>)
    requires Once(ws, fs)
    ensures Once(ws, fs + [Waiting])
  {
  }

  lemma FromFileIsFair(file: AnswerFile, m: Meta, r: Select)
    ensures var a := FromFile(file, m, r.options); a.Some? ==> Fair(file, r, Answered(m.id, a.value))
  {
  }

  /** A request being settled: its timer, if it had one, is gone. */
  ghost predicate Settling(s: Injector, n: nat) {
    && |s.requests| == |s.fates| && n < |s.fates| && s.fates[n].Waiting? && n !in s.timers
    && Counted(s.timers + {n}, s.answered, s.defaulted, s.fates) && Once(s.written, s.fates) && AllFair(s)
  }

  /** What processWithMeta makes of a request.  Dropped is no response: when metadata
      comes late, nobody is left to tell the auto-responder. */
  function LateFate(file: AnswerFile, m: Meta, options: seq<string>): Fate {
    if Offers(file, m, options) then Answered(m.id, Offered(file, m))
    else if file.cancel then Defaulted(Cancelled) else Dropped
  }

  /** What processWithMeta settles, and how. */
  lemma ProcessSettles(s: Injector, n: nat)
    requires Settling(s, n) && s.requests[n].title in s.meta
    ensures var (r, handled) := ProcessWithMeta(s, n);
            && Tallied(r) && AllFair(r)
            && r.requests == s.requests && r.meta == s.meta && r.deferred == s.deferred && r.timers == s.timers
            && r.file == s.file
            && var f := LateFate(s.file, s.meta[s.requests[n].title], s.requests[n].options);
            && r.fates == s.fates[n := f] && handled == Responded(f) && (f.Dropped? <==> !handled)
            && (handled <==> s.file.cancel
                             || FromFile(s.file, s.meta[s.requests[n].title], s.requests[n].options).Some?)
  {
    hide Counted, Once, FromFile;
    var (r, handled) := ProcessWithMeta(s, n);
    var m := s.meta[s.requests[n].title];
    var f := LateFate(s.file, m, s.requests[n].options);
    FromFileExactlyWhen(s.file, m, s.requests[n].options);
    FromFileIsFair(s.file, m, s.requests[n]);
    assert r.fates == s.fates[n := f];
    assert s.timers + {n} - {n} == s.timers;
    SettleCounted(s.timers + {n}, s.answered, s.defaulted, s.fates, n, f);
    if Responded(f) {
      WriteOnce(s.written, s.fates, n, f);
    } else {
      SilentOnce(s.written, s.fates, n, f);
    }
    FairUpdate(s, r, n, f);
  }

  lemma FairUpdate(s: Injector, r: Injector, n: nat, f: Fate)
    requires |s.requests| == |s.fates| && AllFair(s) && n < |s.fates| && Fair(s.file, s.requests[n], f)
    requires r.file == s.file && r.requests == s.requests && r.fates == s.fates[n := f]
    ensures AllFair(r)
  {
  }

  // ----- Each operation keeps the invariant -----

  lemma AskKeeps(s: Injector, r: Select)
    requires Inv(s)
    ensures Inv(OnAsk(s, r))
  {
    hide Counted, Once, ProcessWithMeta, Put, FirstOption;
    var n := |s.requests|;
    var s1 := s.(requests := s.requests + [r], fates := s.fates + [Waiting]);
    AskCounted(s.timers, s.answered, s.defaulted, s.fates);
    AskOnce(s.written, s.fates);
    TimersInside(s, n);
    assert AllFair(s1);
    if r.title in s.meta {
      ProcessSettles(s1, n);
      AskedWithMeta(s1, n);
      SameDeferring(s, OnAsk(s, r));
    } else {
      DeferMore(s, OnAsk(s, r), Deferral(r.title, n));
    }
  }

  lemma TimersInside(s: Injector, n: nat)
    requires Tallied(s) && n >= |s.fates|
    ensures n !in s.timers
  {
  }

  /** With metadata known, the request is settled at once: by the file, or else by
      the auto-responder. */
  lemma AskedWithMeta(s: Injector, n: nat)
    requires Settling(s, n) && s.requests[n].title in s.meta
    ensures var (r, handled) := ProcessWithMeta(s, n);
            n < |r.fates| && var r' := if handled then r
              else Write(r, n, Defaulted(FirstOption(s.requests[n].options)));
            && Tallied(r') && AllFair(r') && Responded(r'.fates[n])
            && r'.requests == s.requests && r'.meta == s.meta && r'.deferred == s.deferred && r'.timers == s.timers
            && r'.file == s.file
  {
    hide Counted, Once, FromFile;
    ProcessSettles(s, n);
    var (r, handled) := ProcessWithMeta(s, n);
    if !handled {
      var f := Defaulted(FirstOption(s.requests[n].options));
      RewriteCounted(r.timers, r.answered, r.defaulted, r.fates, n, f);
      WriteOnce(r.written, r.fates, n, f);
      FairUpdate(r, Write(r, n, f), n, f);
    }
  }

  lemma SameDeferring(s: Injector, r: Injector)
    requires Deferring(s) && NoneKnown(s)
    requires r.deferred == s.deferred && r.timers == s.timers && r.meta == s.meta && s.requests <= r.requests
    ensures Deferring(r) && NoneKnown(r)
  {
    forall d | d in r.deferred ensures Deferrable(r, d) {
      assert Deferrable(s, d);
    }
  }

  lemma DeferMore(s: Injector, r: Injector, d: Deferral)
    requires Deferring(s) && NoneKnown(s) && d.title !in s.meta
    requires r.deferred == Put(s.deferred, d) && r.timers == s.timers + {d.request} && r.meta == s.meta
    requires s.requests <= r.requests && d.request < |r.requests| && r.requests[d.request].title == d.title
    ensures Deferring(r) && NoneKnown(r)
  {
    PutDistinct(s.deferred, d);
    forall x | x in r.deferred ensures Deferrable(r, x) && x.title !in r.meta {
      PutFacts(s.deferred, d, x);
      if x != d { assert Deferrable(s, x); }
    }
  }

  lemma RemoveDeferral(s: Injector, r: Injector, title: string, n: nat)
    requires Deferring(s) && n < |s.requests| && s.requests[n].title == title
    requires r.deferred == Remove(s.deferred, title) && r.timers == s.timers - {n} && r.requests == s.requests
    ensures Deferring(r)
    ensures r.meta == s.meta && NoneKnown(s) ==> NoneKnown(r)
  {
    RemoveDistinct(s.deferred, title);
    forall x | x in r.deferred ensures Deferrable(r, x) && x in s.deferred {
      RemoveKeeps(s.deferred, title, x);
      assert Deferrable(s, x);
    }
  }

  lemma FireKeeps(s: Injector, n: nat)
    requires Inv(s) && n in s.timers && n < |s.requests|
    ensures Inv(OnFire(s, n))
  {
    hide Counted, Once;
    WaitingTimer(s, n);
    var r := OnFire(s, n);
    var f := r.fates[n];
    SettleCounted(s.timers, s.answered, s.defaulted, s.fates, n, f);
    WriteOnce(s.written, s.fates, n, f);
    FairUpdate(s, r, n, f);
    RemoveDeferral(s, r, s.requests[n].title, n);
  }

  lemma WaitingTimer(s: Injector, n: nat)
    requires Tallied(s) && n in s.timers
    ensures n < |s.fates| && s.fates[n].Waiting?
  {
  }

  /** During the loop the deferrals still listed may have metadata. */
  ghost predicate LoopInv(s: Injector) {
    Tallied(s) && Deferring(s) && AllFair(s)
  }

  lemma ResolveKeeps(s: Injector, d: Deferral)
    requires LoopInv(s) && d in s.deferred && d.title in s.meta
    ensures Known(s, d) && LoopInv(Resolve(s, d))
    ensures var r := Resolve(s, d);
            r.deferred == Remove(s.deferred, d.title) && r.meta == s.meta && r.requests == s.requests
            && r.file == s.file
    ensures Resolve(s, d).fates
         == s.fates[d.request := LateFate(s.file, s.meta[d.title], s.requests[d.request].options)]
  {
    hide Counted, Once, FromFile, ProcessWithMeta;
    assert Deferrable(s, d);
    WaitingTimer(s, d.request);
    var s1 := s.(deferred := Remove(s.deferred, d.title), timers := s.timers - {d.request});
    assert s1.timers + {d.request} == s.timers;
    ProcessSettles(s1, d.request);
    RemoveDeferral(s, Resolve(s, d), d.title, d.request);
  }

  /** The loop leaves exactly the deferrals without metadata. */
  lemma {:induction false} ResolveAllKeeps(s: Injector, ds: seq<Deferral>)
    requires LoopInv(s) && DistinctTitles(ds)
    requires forall d :: d in ds ==> d in s.deferred
    requires forall d :: d in s.deferred && d.title in s.meta ==> d in ds
    ensures Inv(ResolveAll(s, ds))
    decreases |ds|
  {
    if ds != [] {
      hide LoopInv, ProcessWithMeta;
      var d := ds[0];
      var s' := if Known(s, d) then Resolve(s, d) else s;
      DistinctTail(ds);
      if d.title in s.meta {
        ResolveKeeps(s, d);
        forall x | x in ds[1..] ensures x in s'.deferred {
          RemoveKeeps(s.deferred, d.title, x);
          assert x in ds;
        }
      }
      forall x | x in s'.deferred && x.title in s'.meta ensures x in ds[1..] {
        if d.title in s.meta { RemoveKeeps(s.deferred, d.title, x); }
        assert x in ds;
      }
      ResolveAllKeeps(s', ds[1..]);
    }
  }

  lemma ObserveKeeps(s: Injector, questions: seq<Question>)
    requires Inv(s)
    ensures Inv(OnObserve(s, questions))
  {
    hide Counted, Once, Learn;
    ResolveAllKeeps(s.(meta := Learn(s.meta, questions)), s.deferred);
  }

  lemma StepKeeps(s: Injector, i: Input)
    requires Inv(s)
    ensures Inv(Step(s, i))
  {
    hide Tallied, Deferring, NoneKnown, AllFair, OnAsk, OnFire, OnObserve;
    match i
    case Observe(questions) => ObserveKeeps(s, questions);
    case Ask(r) => AskKeeps(s, r);
    case Fire(n) => if n in s.timers && n < |s.requests| { FireKeeps(s, n); }
  }

  lemma InvLengths(s: Injector)
    requires Inv(s)
    ensures |s.requests| == |s.fates|
  {
  }

  ghost function StepAll(s: Injector, inputs: seq<Input>): (r: Injector)
    requires Inv(s)
    ensures Inv(r)
    decreases |inputs|
  {
    if inputs == [] then s
    else
      InvLengths(s);
      StepKeeps(s, inputs[0]);
      StepAll(Step(s, inputs[0]), inputs[1..])
  }

  // ----- What the invariant means -----

  lemma FreshInv(file: AnswerFile)
    ensures Inv(Fresh(file))
  {
    hide Counted, Once, Fair, DistinctTitles, Deferrable;
    NothingWritten();
    NothingCounted({});
    NothingDeferred([]);
  }

  lemma NothingWritten()
    ensures Once([], [])
  {
  }

  lemma NothingCounted(timers: set<nat>)
    requires timers == {}
    ensures Counted(timers, 0, 0, [])
  {
  }

  lemma NothingDeferred(ds: seq<Deferral>)
    requires ds == []
    ensures DistinctTitles(ds)
  {
  }

  /** The invariant holds over every session. */
  lemma SessionsKeepAccounts(file: AnswerFile, inputs: seq<Input>)
    ensures Inv(Fresh(file)) && Inv(StepAll(Fresh(file), inputs))
  {
    hide Inv;
    FreshInv(file);
  }

  lemma {:induction false} CountTimers(timers: set<nat>, fs: seq<Fate>)
    requires forall n: nat :: n in timers <==> n < |fs| && fs[n].Waiting?
    ensures |timers| == CountWaiting(fs)
  {
    if fs == [] {
      assert timers == {};
    } else {
      var last := |fs| - 1;
      var early := timers - {last};
      forall n: nat ensures n in early <==> n < last && fs[..last][n].Waiting? {
      }
      CountTimers(early, fs[..last]);
      if last in timers {
        assert timers == early + {last};
      } else {
        assert timers == early;
      }
    }
  }

  /** The accounts of a session at any point, whatever the order of metadata,
      requests and timers: every select request was answered, defaulted or has a
      live timer; every deferral has one and waits for metadata that has not
      come; a request gets one response or none, and under the cancel strategy
      exactly one as soon as its timer is gone. */
  lemma EveryQuestionAccountedFor(s: Injector)
    requires Inv(s)
    ensures s.answered + s.defaulted + |s.timers| == |s.requests| == |s.fates|
    ensures forall d :: d in s.deferred ==> d.request in s.timers && d.title !in s.meta
    ensures forall n: nat :: WrittenFor(s.written, n) <= 1
    ensures forall n: nat :: n < |s.fates| ==>
              (WrittenFor(s.written, n) == 1 <==> n !in s.timers && !s.fates[n].Dropped?)
    ensures forall n: nat :: s.file.cancel && n < |s.fates| && n !in s.timers ==> WrittenFor(s.written, n) == 1
  {
    CountTimers(s.timers, s.fates);
    forall d | d in s.deferred ensures d.request in s.timers {
      assert Deferrable(s, d);
    }
    forall n: nat | s.file.cancel && n < |s.fates| && n !in s.timers ensures WrittenFor(s.written, n) == 1 {
      assert Fair(s.file, s.requests[n], s.fates[n]);
    }
  }

  /** When its metadata came first a request is responded to at once: by the file if it
      has a valid answer, or else by the default. */
  lemma MetadataFirstAnswersAtOnce(s: Injector, r: Select)
    requires Inv(s) && r.title in s.meta
    ensures var s', n, m := OnAsk(s, r), |s.requests|, s.meta[r.title];
            && n < |s'.fates| && n !in s'.timers
            && WrittenFor(s'.written, n) == 1
            && s'.fates[n] == (if Offers(s.file, m, r.options) then Answered(m.id, Offered(s.file, m))
                               else Defaulted(if s.file.cancel then Cancelled else FirstOf(r.options)))
  {
    FromFileExactlyWhen(s.file, s.meta[r.title], r.options);
    AskedFate(s, r);
    hide Counted, Once, ProcessWithMeta, FirstOption;
    var n := |s.requests|;
    var s1 := s.(requests := s.requests + [r], fates := s.fates + [Waiting]);
    AskCounted(s.timers, s.answered, s.defaulted, s.fates);
    AskOnce(s.written, s.fates);
    TimersInside(s, n);
    assert AllFair(s1);
    AskedWithMeta(s1, n);
    OneWritten(OnAsk(s, r), n);
  }

  lemma AskedFate(s: Injector, r: Select)
    requires |s.requests| == |s.fates| && r.title in s.meta
    ensures var s', n, from := OnAsk(s, r), |s.requests|, FromFile(s.file, s.meta[r.title], r.options);
            && n < |s'.fates|
            && s'.fates[n] == (if from.Some? then Answered(s.meta[r.title].id, from.value)
                               else Defaulted(if s.file.cancel then Cancelled else FirstOf(r.options)))
  {
    hide FromFile;
  }

  lemma OneWritten(s: Injector, n: nat)
    requires Tallied(s) && n < |s.fates| && Responded(s.fates[n])
    ensures WrittenFor(s.written, n) == 1
  {
  }

  lemma NotWaiting(s: Injector, n: nat)
    requires Tallied(s) && n < |s.fates| && !s.fates[n].Waiting?
    ensures n !in s.timers
  {
  }

  /** Such a session: a question asked before it is announced, and not in the
      answer file. */
  lemma AnnouncedLateIsDropped()
    ensures var file := AnswerFile(map[], false);
            var s := OnObserve(OnAsk(Fresh(file), Select("t", ["a"])), [Question("t", Meta("q", false))]);
            s.written == [] && s.timers == {} && s.fates == [Dropped] && s.defaulted == 1
  {
    var file := AnswerFile(map[], false);
    var s1 := OnAsk(Fresh(file), Select("t", ["a"]));
    var d := Deferral("t", 0);
    assert s1.deferred == [d];
    var meta := Learn(map[], [Question("t", Meta("q", false))]);
    assert [Question("t", Meta("q", false))][1..] == [];
    assert meta == map["t" := Meta("q", false)];
    var s2 := s1.(meta := meta);
    assert Known(s2, d) && [d][1..] == [];
    assert ResolveAll(s2, [d]) == ResolveAll(Resolve(s2, d), []);
  }

  /** What became of a request never changes again. */
  predicate KeepsSettled(a: seq<Fate>, b: seq<Fate>) {
    |a| <= |b| && forall n :: 0 <= n < |a| && !a[n].Waiting? ==> b[n] == a[n]
  }

  lemma {:induction false} ResolveAllKeepsSettled(s: Injector, ds: seq<Deferral>)
    requires LoopInv(s) && DistinctTitles(ds)
    requires forall d :: d in ds ==> d in s.deferred
    ensures KeepsSettled(s.fates, ResolveAll(s, ds).fates)
    decreases |ds|
  {
    if ds != [] {
      hide Counted, Once, AllFair, ProcessWithMeta, FromFile;
      var d := ds[0];
      var s' := if Known(s, d) then Resolve(s, d) else s;
      DistinctTail(ds);
      if d.title in s.meta {
        ResolveKeeps(s, d);
        assert Deferrable(s, d);
        WaitingTimer(s, d.request);
        forall x | x in ds[1..] ensures x in s'.deferred {
          RemoveKeeps(s.deferred, d.title, x);
          assert x in ds;
        }
      }
      ResolveAllKeepsSettled(s', ds[1..]);
    }
  }

  /** No later metadata, request or timer ever touches a settled request, so a
      dropped one stays without a response. */
  lemma SettledForGood(s: Injector, i: Input)
    requires Inv(s)
    ensures KeepsSettled(s.fates, Step(s, i).fates)
  {
    hide Counted, Once, Learn;
    match i
    case Observe(questions) => ResolveAllKeepsSettled(s.(meta := Learn(s.meta, questions)), s.deferred);
    case Ask(r) =>
    case Fire(n) => if n in s.timers && n < |s.requests| { WaitingTimer(s, n); }
  }

  // ----- Which requests get no response -----

  /** Request `n` is the one deferred under its title, and these questions announce it. */
  predicate Announces(s: Injector, questions: seq<Question>, n: nat)
    requires n < |s.requests|
  {
    Deferral(s.requests[n].title, n) in s.deferred && s.requests[n].title in Learn(s.meta, questions)
  }

  lemma {:induction false} ResolveAllFates(s: Injector, ds: seq<Deferral>, n: nat)
    requires LoopInv(s) && DistinctTitles(ds)
    requires forall d :: d in ds ==> d in s.deferred
    requires n < |s.requests| == |s.fates| && s.fates[n].Waiting?
    ensures var title := s.requests[n].title;
            && n < |ResolveAll(s, ds).fates|
            && ResolveAll(s, ds).fates[n]
               == if Deferral(title, n) in ds && title in s.meta
                  then LateFate(s.file, s.meta[title], s.requests[n].options) else Waiting
    decreases |ds|
  {
    if ds != [] {
      hide Counted, Once, AllFair, ProcessWithMeta, LateFate;
      var d := ds[0];
      var s' := if Known(s, d) then Resolve(s, d) else s;
      DistinctTail(ds);
      assert Deferrable(s, d);
      if d.title in s.meta {
        ResolveKeeps(s, d);
        WaitingTimer(s, d.request);
        forall x | x in ds[1..] ensures x in s'.deferred {
          RemoveKeeps(s.deferred, d.title, x);
          assert x in ds;
        }
      }
      var mine := Deferral(s.requests[n].title, n);
      assert mine in ds <==> mine == d || mine in ds[1..];
      if d.title in s.meta && d.request == n {
        LateSettles(s.file, s.meta[d.title], s.requests[n].options);
        ResolveAllKeepsSettled(s', ds[1..]);
      } else {
        ResolveAllFates(s', ds[1..], n);
      }
    }
  }

  lemma LateSettles(file: AnswerFile, m: Meta, options: seq<string>)
    ensures !LateFate(file, m, options).Waiting?
  {
  }

  /** What announcing questions makes of each waiting request, through all deferrals:
      one that is deferred and announced is answered by the file, or else cancelled or
      dropped by strategy; any other goes on waiting. */
  lemma AnnouncedFates(s: Injector, questions: seq<Question>, n: nat)
    requires Inv(s) && n < |s.requests| == |s.fates| && s.fates[n].Waiting?
    ensures var s', meta := OnObserve(s, questions), Learn(s.meta, questions);
            && n < |s'.fates|
            && s'.fates[n] == if Announces(s, questions, n)
                              then LateFate(s.file, meta[s.requests[n].title], s.requests[n].options) else Waiting
  {
    hide Counted, Once, Learn, LateFate;
    ResolveAllFates(s.(meta := Learn(s.meta, questions)), s.deferred, n);
  }

  /** A request is dropped when these questions come. */
  predicate Drops(s: Injector, questions: seq<Question>, n: nat)
    requires n < |s.requests|
  {
    && Announces(s, questions, n) && !s.file.cancel
    && !Offers(s.file, Learn(s.meta, questions)[s.requests[n].title], s.requests[n].options)
  }

  /** Whatever happens next, a request is dropped by it, its timer cleared and no
      response ever sent, exactly when questions are announced while it waits as the
      deferral of its title, they announce that title, the strategy is first_option
      and the file has no valid answer to it.  Requests and timers drop nothing. */
  lemma DroppedExactlyWhen(s: Injector, i: Input, n: nat)
    requires Inv(s) && |s.requests| == |s.fates|
    ensures var s' := Step(s, i);
            n < |s'.fates| ==>
              && (s'.fates[n].Dropped? <==>
                    n < |s.fates|
                    && (s.fates[n].Dropped? || (s.fates[n].Waiting? && i.Observe? && Drops(s, i.questions, n))))
              && (s'.fates[n].Dropped? ==> n !in s'.timers && WrittenFor(s'.written, n) == 0)
  {
    hide Inv, OnAsk, OnFire, OnObserve, Learn, FromFile;
    var s' := Step(s, i);
    StepKeeps(s, i);
    SettledForGood(s, i);
    match i {
      case Observe(questions) => ObserveDrops(s, questions, n);
      case Ask(r) => AskDropsNothing(s, r, n);
      case Fire(k) => if k in s.timers && k < |s.requests| { FireDropsNothing(s, k, n); }
    }
    if n < |s'.fates| && s'.fates[n].Dropped? { DroppedIsSilent(s', n); }
  }

  lemma ObserveDrops(s: Injector, questions: seq<Question>, n: nat)
    requires Inv(s) && |s.requests| == |s.fates|
    ensures |OnObserve(s, questions).fates| == |s.fates|
    ensures n < |s.fates| && s.fates[n].Waiting? ==>
              (OnObserve(s, questions).fates[n].Dropped? <==> Drops(s, questions, n))
  {
    hide Inv, Offers, Offered, OnObserve;
    ObserveLengths(s, questions);
    if n < |s.fates| && s.fates[n].Waiting? { AnnouncedFates(s, questions, n); }
  }

  lemma ObserveLengths(s: Injector, questions: seq<Question>)
    requires Inv(s)
    ensures |OnObserve(s, questions).fates| == |s.fates|
  {
    hide Counted, Once, Learn;
    SameLength(s.(meta := Learn(s.meta, questions)), s.deferred);
  }

  lemma {:induction false} SameLength(s: Injector, ds: seq<Deferral>)
    ensures |ResolveAll(s, ds).fates| == |s.fates|
    decreases |ds|
  {
    hide FromFile;
    if ds != [] { SameLength(if Known(s, ds[0]) then Resolve(s, ds[0]) else s, ds[1..]); }
  }

  lemma AskDropsNothing(s: Injector, r: Select, n: nat)
    requires |s.requests| == |s.fates|
    ensures var fs := OnAsk(s, r).fates;
            |fs| == |s.fates| + 1 && (n < |fs| ==> (fs[n].Dropped? <==> n < |s.fates| && s.fates[n].Dropped?))
  {
    hide FromFile;
  }

  lemma FireDropsNothing(s: Injector, k: nat, n: nat)
    requires Inv(s) && k in s.timers && k < |s.requests| == |s.fates|
    ensures var fs := OnFire(s, k).fates;
            |fs| == |s.fates| && (n < |fs| ==> (fs[n].Dropped? <==> s.fates[n].Dropped?))
  {
    hide Counted, Once;
    assert s.fates[k].Waiting? by { WaitingTimer(s, k); }
  }

  lemma DroppedIsSilent(s: Injector, n: nat)
    requires Inv(s) && n < |s.fates| && s.fates[n].Dropped?
    ensures n !in s.timers && WrittenFor(s.written, n) == 0
  {
    NotWaiting(s, n);
  }

  // ----- What one input changes -----

  /** The title's metadata is the latest announced. */
  lemma {:induction false} LearnAppend(meta: map<string, Meta>, a: seq<Question>, b: seq<Question>)
    ensures Learn(meta, a + b) == Learn(Learn(meta, a), b)
    decreases |a|
  {
    if a == [] {
      assert a + b == b;
    } else {
      assert (a + b)[1..] == a[1..] + b;
      LearnAppend(meta[a[0].title := a[0].meta], a[1..], b);
    }
  }

  /** Question `k` is the last with this title. */
  predicate LastOf(questions: seq<Question>, k: nat, title: string)
    requires k < |questions|
  {
    questions[k].title == title && forall j :: k < j < |questions| ==> questions[j].title != title
  }

  /** Known afterwards are the titles known before and those announced, each with what was
      announced last. */
  lemma {:induction false} LearnIs(meta: map<string, Meta>, questions: seq<Question>, title: string)
    ensures title in Learn(meta, questions) <==>
              title in meta || exists k :: 0 <= k < |questions| && questions[k].title == title
    ensures (forall k :: 0 <= k < |questions| ==> questions[k].title != title) && title in meta ==>
              Learn(meta, questions)[title] == meta[title]
    ensures forall k :: 0 <= k < |questions| && LastOf(questions, k, title) ==>
              title in Learn(meta, questions) && Learn(meta, questions)[title] == questions[k].meta
  {
    if questions != [] {
      var early, last := questions[..|questions| - 1], questions[|questions| - 1];
      assert questions == early + [last];
      LearnAppend(meta, early, [last]);
      assert [last][1..] == [];
      assert Learn(Learn(meta, early), [last]) == Learn(meta, early)[last.title := last.meta];
      LearnIs(meta, early, title);
      assert forall k :: 0 <= k < |early| ==> questions[k] == early[k];
    }
  }

  /** A request whose title is not known waits: it takes over its title's deferral, has a
      live timer, and nothing is written. */
  lemma UnknownWaits(s: Injector, r: Select)
    requires Inv(s) && r.title !in s.meta
    ensures var s', n := OnAsk(s, r), |s.requests|;
            && s'.requests == s.requests + [r] && s'.fates == s.fates + [Waiting]
            && s'.timers == s.timers + {n} && n !in s.timers && s'.written == s.written
            && (forall d :: d in s'.deferred <==>
                  d == Deferral(r.title, n) || (d in s.deferred && d.title != r.title))
            && s'.answered == s.answered && s'.defaulted == s.defaulted && s'.meta == s.meta && s'.used == s.used
  {
    hide Counted, Once;
    TimersInside(s, |s.requests|);
    forall d ensures d in Put(s.deferred, Deferral(r.title, |s.requests|)) <==>
                       d == Deferral(r.title, |s.requests|) || (d in s.deferred && d.title != r.title) {
      PutFacts(s.deferred, Deferral(r.title, |s.requests|), d);
    }
  }

  /** A timer that fires defaults its own request, by the strategy, and forgets whatever is
      deferred under its title; no other request is touched. */
  lemma FireDefaultsOne(s: Injector, n: nat)
    requires Inv(s) && n in s.timers && n < |s.requests| == |s.fates|
    ensures var s', response := Step(s, Fire(n)), if s.file.cancel then Cancelled else FirstOf(s.requests[n].options);
            && s'.fates == s.fates[n := Defaulted(response)] && s'.written == s.written + [Written(n, response)]
            && s'.timers == s.timers - {n} && s'.defaulted == s.defaulted + 1 && s'.answered == s.answered
            && (forall d :: d in s'.deferred <==> d in s.deferred && d.title != s.requests[n].title)
            && s'.requests == s.requests && s'.meta == s.meta && s'.used == s.used
  {
    hide Counted, Once;
    forall d ensures d in Remove(s.deferred, s.requests[n].title) <==>
                       d in s.deferred && d.title != s.requests[n].title {
      RemoveKeeps(s.deferred, s.requests[n].title, d);
    }
  }

  // ----- What is written, and which questions count as used -----

  /** Every response written is the one its request met, and the questions used are those
      whose answers were given. */
  ghost predicate Matches(written: seq<Written>, used: set<string>, fates: seq<Fate>) {
    && (forall k :: 0 <= k < |written| ==> WroteFate(written[k], fates))
    && (forall id :: id in used <==> exists n :: 0 <= n < |fates| && UsesQuestion(fates[n], id))
  }

  predicate WroteFate(w: Written, fates: seq<Fate>) {
    w.request < |fates| && Responded(fates[w.request]) && fates[w.request].response == w.response
  }

  predicate UsesQuestion(f: Fate, id: string) { f.Answered? && f.id == id }

  /** One request, not responded to so far, meets a fate. */
  lemma SettleMatches(written: seq<Written>, used: set<string>, fates: seq<Fate>, n: nat, f: Fate)
    requires Matches(written, used, fates) && n < |fates| && !Responded(fates[n])
    ensures Matches(if Responded(f) then written + [Written(n, f.response)] else written,
                    if f.Answered? then used + {f.id} else used, fates[n := f])
  {
    var w' := if Responded(f) then written + [Written(n, f.response)] else written;
    var u', f' := if f.Answered? then used + {f.id} else used, fates[n := f];
    forall k | 0 <= k < |w'| ensures WroteFate(w'[k], f') {
      if k < |written| { assert WroteFate(written[k], fates); }
    }
    forall id ensures id in u' <==> exists m :: 0 <= m < |f'| && UsesQuestion(f'[m], id) {
      if m :| 0 <= m < |fates| && UsesQuestion(fates[m], id) { assert UsesQuestion(f'[m], id); }
      if f.Answered? && id == f.id { assert UsesQuestion(f'[n], id); }
      if m :| 0 <= m < |f'| && UsesQuestion(f'[m], id) {
        if m != n { assert UsesQuestion(fates[m], id); }
      }
    }
  }

  lemma AskMatches(written: seq<Written>, used: set<string>, fates: seq<Fate>)
    requires Matches(written, used, fates)
    ensures Matches(written, used, fates + [Waiting])
  {
    var f' := fates + [Waiting];
    forall k | 0 <= k < |written| ensures WroteFate(written[k], f') {
      assert WroteFate(written[k], fates);
    }
    forall id ensures id in used <==> exists m :: 0 <= m < |f'| && UsesQuestion(f'[m], id) {
      if m :| 0 <= m < |fates| && UsesQuestion(fates[m], id) { assert UsesQuestion(f'[m], id); }
      if m :| 0 <= m < |f'| && UsesQuestion(f'[m], id) { assert UsesQuestion(fates[m], id); }
    }
  }

  lemma ProcessMatches(s: Injector, n: nat)
    requires n < |s.requests| == |s.fates| && s.requests[n].title in s.meta
    requires Matches(s.written, s.used, s.fates) && !Responded(s.fates[n])
    ensures var (r, handled) := ProcessWithMeta(s, n);
            && Matches(r.written, r.used, r.fates) && |r.fates| == |s.fates|
            && (handled || !Responded(r.fates[n]))
  {
    hide Matches, FromFile;
    var (r, handled) := ProcessWithMeta(s, n);
    SettleMatches(s.written, s.used, s.fates, n, r.fates[n]);
  }

  lemma {:induction false} ResolveAllMatches(s: Injector, ds: seq<Deferral>)
    requires LoopInv(s) && DistinctTitles(ds) && Matches(s.written, s.used, s.fates)
    requires forall d :: d in ds ==> d in s.deferred
    ensures var r := ResolveAll(s, ds); Matches(r.written, r.used, r.fates)
    decreases |ds|
  {
    if ds != [] {
      hide Counted, Once, AllFair, ProcessWithMeta, Matches, LateFate;
      var d := ds[0];
      var s' := if Known(s, d) then Resolve(s, d) else s;
      DistinctTail(ds);
      assert Deferrable(s, d);
      if d.title in s.meta {
        ResolveKeeps(s, d);
        WaitingTimer(s, d.request);
        ProcessMatches(s.(deferred := Remove(s.deferred, d.title), timers := s.timers - {d.request}), d.request);
        forall x | x in ds[1..] ensures x in s'.deferred {
          RemoveKeeps(s.deferred, d.title, x);
          assert x in ds;
        }
      }
      ResolveAllMatches(s', ds[1..]);
    }
  }

  lemma AskedMatches(s: Injector, r: Select)
    requires |s.requests| == |s.fates| && Matches(s.written, s.used, s.fates)
    ensures var s' := OnAsk(s, r); Matches(s'.written, s'.used, s'.fates)
  {
    hide Matches, FromFile, ProcessWithMeta, FirstOption;
    AskMatches(s.written, s.used, s.fates);
    var n := |s.requests|;
    var s1 := s.(requests := s.requests + [r], fates := s.fates + [Waiting]);
    if r.title in s.meta {
      ProcessMatches(s1, n);
      var (s2, handled) := ProcessWithMeta(s1, n);
      if !handled { SettleMatches(s2.written, s2.used, s2.fates, n, Defaulted(FirstOption(r.options))); }
    }
  }

  lemma StepMatches(s: Injector, i: Input)
    requires Inv(s) && |s.requests| == |s.fates| && Matches(s.written, s.used, s.fates)
    ensures var r := Step(s, i); Matches(r.written, r.used, r.fates)
  {
    hide Counted, Once, Learn, Matches, OnAsk;
    match i
    case Observe(questions) => ResolveAllMatches(s.(meta := Learn(s.meta, questions)), s.deferred);
    case Ask(r) => AskedMatches(s, r);
    case Fire(n) =>
      if n in s.timers && n < |s.requests| {
        WaitingTimer(s, n);
        SettleMatches(s.written, s.used, s.fates, n, Step(s, i).fates[n]);
      }
  }

  /** Over every session: each response written is the one its request met, for that
      request, and the questions counted as used are exactly those whose answers were
      given. */
  lemma {:induction false} SessionsMatch(s: Injector, inputs: seq<Input>)
    requires Inv(s) && Matches(s.written, s.used, s.fates)
    ensures var r := StepAll(s, inputs); Matches(r.written, r.used, r.fates)
    decreases |inputs|
  {
    hide Inv, Step, Matches;
    if inputs != [] {
      InvLengths(s);
      StepKeeps(s, inputs[0]);
      StepMatches(s, inputs[0]);
      SessionsMatch(Step(s, inputs[0]), inputs[1..]);
    }
  }

  lemma FreshMatches(file: AnswerFile)
    ensures var s := Fresh(file); Matches(s.written, s.used, s.fates)
  {
  }
}
