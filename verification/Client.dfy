/** GsdClient (vscode-extension/src/gsd-client.ts:79-520): request and response
    correlation, and the limit on automatic restarts.

    A Client holds the fields of the class and, as history, what became of every
    request, which lines fired events, and when the process crashed.  A timer is
    named by the number of the request it was set for. */
module RpcClient {
  import opened Messages
  import opened Lines
  import opened Numerals

  const WINDOW := 60000
  const MAX_RECENT := 3
  const MAX_RESTARTS := 3

  /** What JSON.parse makes of a line. */
  datatype Parsed = NotJson | Response(id: string) | OtherData

  datatype How = Resolved(line: string) | TimedOut | Rejected(reason: string)

  /** History: a crash, and whether a restart was scheduled for it. */
  datatype Crash = Crash(at: int, restarted: bool)

  /** Requests: the class's counter, map and timers; then history. */
  datatype Requests = Requests(requestId: nat, pending: map<string, nat>, timers: set<nat>,
                               sent: seq<string>, settlements: multiset<string>, outcomes: map<string, How>)

  /** The restart limiter; then history: the crashes, and how many there had been
      when the process was last started. */
  datatype Restarts = Restarts(count: nat, timestamps: seq<int>, crashes: seq<Crash>, startedAt: nat)

  datatype Client = Client(hasProcess: bool, buffer: string, requests: Requests, restarts: Restarts, fired: seq<string>)

  datatype Input =
    | Start
    | StopBegins
    | StopEnds
    | Send
    | Data(chunk: string)
    | Timeout(timer: nat)
    | Exit(code: Option<int>, signal: Option<string>, reason: string, now: int)

  const NO_REQUESTS := Requests(0, map[], {}, [], multiset{}, map[])
  const NEW := Client(false, "", NO_REQUESTS, Restarts(0, [], [], 0), [])

  // ----- Request ids -----

  function RequestName(n: nat): string { "req_" + Decimal(n) }

  lemma NamesDiffer(a: nat, b: nat)
    requires RequestName(a) == RequestName(b)
    ensures a == b
  {
    assert RequestName(a)[4..] == Decimal(a) && RequestName(b)[4..] == Decimal(b);
    DecimalInjective(a, b);
  }

  // ----- Operations on requests -----

  /** pending.resolve or pending.reject, with its entry and its timer gone. */
  function SettleOne(q: Requests, id: string, how: How): Requests
    requires id in q.pending
  {
    q.(pending := q.pending - {id}, timers := q.timers - {q.pending[id]},
       settlements := q.settlements + multiset{id}, outcomes := q.outcomes[id := how])
  }

  /** The timeout callback deletes and rejects without looking. */
  function Expire(q: Requests, n: nat): Requests {
    var id := RequestName(n);
    q.(pending := q.pending - {id}, timers := q.timers - {n},
       settlements := q.settlements + multiset{id}, outcomes := q.outcomes[id := TimedOut])
  }

  /** rejectAllPending's loop when it has dealt with `ids`. */
  function RejectOnly(q: Requests, ids: set<string>, reason: string): Requests
    requires ids <= q.pending.Keys
  {
    q.(timers := q.timers - (set id | id in ids :: q.pending[id]),
       settlements := q.settlements + multiset(ids),
       outcomes := q.outcomes + map id | id in ids :: Rejected(reason))
  }

  /** rejectAllPending */
  function RejectAll(q: Requests, reason: string): Requests {
    RejectOnly(q, q.pending.Keys, reason).(pending := map[])
  }

  /** A request goes out under a new id, with its timer. */
  function Issue(q: Requests): Requests {
    var n := q.requestId + 1;
    q.(requestId := n, pending := q.pending[RequestName(n) := n], timers := q.timers + {n},
       sent := q.sent + [RequestName(n)])
  }

  lemma RejectNone(q: Requests, ids: set<string>, reason: string)
    requires ids == {}
    ensures RejectOnly(q, ids, reason) == q
  {
  }

  lemma RejectOneMore(q: Requests, ids: set<string>, id: string, reason: string)
    requires ids <= q.pending.Keys && id in q.pending && id !in ids
    ensures var r := RejectOnly(q, ids, reason);
            RejectOnly(q, ids + {id}, reason)
            == r.(timers := r.timers - {q.pending[id]}, settlements := r.settlements + multiset{id},
                  outcomes := r.outcomes[id := Rejected(reason)])
  {
    assert (set x | x in ids + {id} :: q.pending[x]) == (set x | x in ids :: q.pending[x]) + {q.pending[id]};
    assert multiset(ids + {id}) == multiset(ids) + multiset{id};
  }

  // ----- The restart limiter -----

  /** restartTimestamps.filter(t => now - t < 60_000) */
  function Recent(ts: seq<int>, now: int): seq<int> {
    if ts == [] then []
    else if now - ts[0] < WINDOW then [ts[0]] + Recent(ts[1..], now)
    else Recent(ts[1..], now)
  }

  predicate IsCrash(code: Option<int>, signal: Option<string>) {
    code != Some(0) && signal != Some("SIGTERM")
  }

  /** The restart decision of the exit handler. */
  function OnCrash(r: Restarts, now: int): Restarts {
    var recent := Recent(r.timestamps + [now], now);
    var restart := |recent| <= MAX_RECENT && r.count < MAX_RESTARTS;
    Restarts(if restart then r.count + 1 else r.count, recent, r.crashes + [Crash(now, restart)], r.startedAt)
  }

  /** start() sets restartCount back to 0. */
  function Restarted(r: Restarts): Restarts { r.(count := 0, startedAt := |r.crashes|) }

  // ----- The client -----

  function HandleLine(c: Client, line: string, parse: string -> Parsed): Client {
    match parse(line)
    case NotJson => c
    case Response(id) =>
      if id in c.requests.pending then c.(requests := SettleOne(c.requests, id, Resolved(line)))
      else c.(fired := c.fired + [line])
    case OtherData => c.(fired := c.fired + [line])
  }

  function HandleLines(c: Client, lines: seq<string>, parse: string -> Parsed): Client
    decreases |lines|
  {
    if lines == [] then c else HandleLines(HandleLine(c, lines[0], parse), lines[1..], parse)
  }

  function Step(c: Client, i: Input, parse: string -> Parsed): Client {
    match i
    case Start =>
      if c.hasProcess then c else c.(hasProcess := true, buffer := "", restarts := Restarted(c.restarts))
    case StopBegins => c.(hasProcess := false)
    case StopEnds => c.(requests := RejectAll(c.requests, "Client stopped"))
    case Send => if c.hasProcess then c.(requests := Issue(c.requests)) else c
    case Data(chunk) =>
      var text := c.buffer + chunk;
      HandleLines(c.(buffer := Partial(text)), Handled(Complete(text)), parse)
    case Timeout(n) => if n in c.requests.timers then c.(requests := Expire(c.requests, n)) else c
    case Exit(code, signal, reason, now) =>
      c.(hasProcess := false, requests := RejectAll(c.requests, reason),
         restarts := if IsCrash(code, signal) then OnCrash(c.restarts, now) else c.restarts)
  }

  function StepAll(c: Client, inputs: seq<Input>, parse: string -> Parsed): Client
    decreases |inputs|
  {
    if inputs == [] then c else StepAll(Step(c, inputs[0], parse), inputs[1..], parse)
  }

  // ----- Exactly-once settlement -----

  /** The sent ids are the pending ones and the settled ones, each settled once. */
  ghost predicate Balanced(sent: seq<string>, pending: set<string>, settlements: multiset<string>,
                           settled: set<string>) {
    && multiset(sent) == multiset(pending) + settlements
    && settlements == multiset(settled)
    && settled !! pending
  }

  /** Ids are numbered in turn, and each pending request has one live timer and no
      other timer is live. */
  ghost predicate Numbered(q: Requests) {
    && |q.sent| == q.requestId
    && (forall k :: 0 <= k < |q.sent| ==> q.sent[k] == RequestName(k + 1))
    && (forall id :: id in q.pending ==> id == RequestName(q.pending[id]))
    && q.timers == q.pending.Values
  }

  ghost predicate Settled(q: Requests) {
    Numbered(q) && Balanced(q.sent, q.pending.Keys, q.settlements, q.outcomes.Keys)
  }

  lemma BalanceSettle(sent: seq<string>, pending: set<string>, settlements: multiset<string>, settled: set<string>,
                      id: string)
    requires Balanced(sent, pending, settlements, settled) && id in pending
    ensures Balanced(sent, pending - {id}, settlements + multiset{id}, settled + {id})
  {
    OneMore(pending - {id}, id);
    assert pending - {id} + {id} == pending;
    OneMore(settled, id);
  }

  lemma BalanceReject(sent: seq<string>, pending: set<string>, settlements: multiset<string>, settled: set<string>)
    requires Balanced(sent, pending, settlements, settled)
    ensures Balanced(sent, {}, settlements + multiset(pending), settled + pending)
  {
    DisjointUnion(settled, pending);
    NothingToCount({});
  }

  lemma NothingToCount(s: set<string>)
    requires s == {}
    ensures multiset(s) == multiset{}
  {
  }

  lemma BalanceIssue(sent: seq<string>, pending: set<string>, settlements: multiset<string>, settled: set<string>,
                     id: string)
    requires Balanced(sent, pending, settlements, settled) && id !in pending && id !in settled
    ensures Balanced(sent + [id], pending + {id}, settlements, settled)
  {
    OneMore(pending, id);
  }

  lemma OneMore(s: set<string>, id: string)
    requires id !in s
    ensures multiset(s + {id}) == multiset(s) + multiset{id}
  {
  }

  lemma DisjointUnion(a: set<string>, b: set<string>)
    requires a !! b
    ensures multiset(a + b) == multiset(a) + multiset(b)
  {
  }

  lemma FreshIds(q: Requests)
    requires Settled(q)
    ensures Distinct(q.sent) && RequestName(q.requestId + 1) !in q.sent
  {
    hide RequestName;
    forall i, j | 0 <= i < j < |q.sent| ensures q.sent[i] != q.sent[j] {
      if q.sent[i] == q.sent[j] { NamesDiffer(i + 1, j + 1); }
    }
    if RequestName(q.requestId + 1) in q.sent {
      var k :| 0 <= k < |q.sent| && q.sent[k] == RequestName(q.requestId + 1);
      NamesDiffer(k + 1, q.requestId + 1);
    }
  }

  /** No request is ever settled twice, or settled and pending. */
  lemma AtMostOnce(q: Requests, id: string)
    requires Settled(q)
    ensures q.settlements[id] <= 1
    ensures id in q.sent <==> id in q.pending || id in q.outcomes
    ensures !(id in q.pending && id in q.outcomes)
  {
    hide RequestName;
    assert multiset(q.sent)[id] == multiset(q.pending.Keys)[id] + q.settlements[id];
    assert id in q.sent <==> id in multiset(q.sent);
  }

  lemma ValuesWithout(m: map<string, nat>, id: string)
    requires id in m
    requires forall a, b :: a in m && b in m && m[a] == m[b] ==> a == b
    ensures (m - {id}).Values == m.Values - {m[id]}
  {
    var m' := m - {id};
    forall v | v in m.Values - {m[id]} ensures v in m'.Values {
      var k :| k in m && m[k] == v;
      assert k in m' && m'[k] == v;
    }
    forall v | v in m'.Values ensures v in m.Values - {m[id]} {
      var k :| k in m' && m'[k] == v;
      assert m[k] == v;
    }
  }

  lemma ValuesWith(m: map<string, nat>, id: string, n: nat)
    requires id !in m
    ensures m[id := n].Values == m.Values + {n}
  {
    var m' := m[id := n];
    forall v | v in m.Values + {n} ensures v in m'.Values {
      if v in m.Values {
        var k :| k in m && m[k] == v;
        assert m'[k] == v;
      } else {
        assert m'[id] == v;
      }
    }
    forall v | v in m'.Values ensures v in m.Values + {n} {
      var k :| k in m' && m'[k] == v;
      if k != id { assert m[k] == v; }
    }
  }

  lemma SettleKeeps(q: Requests, id: string, how: How)
    requires Settled(q) && id in q.pending
    ensures Settled(SettleOne(q, id, how))
  {
    hide RequestName, Balanced;
    var r := SettleOne(q, id, how);
    ValuesWithout(q.pending, id);
    BalanceSettle(q.sent, q.pending.Keys, q.settlements, q.outcomes.Keys, id);
    assert r.pending.Keys == q.pending.Keys - {id};
    assert r.outcomes.Keys == q.outcomes.Keys + {id};
  }

  /** A live timer always finds its request still pending. */
  lemma TimerFindsItsRequest(q: Requests, n: nat)
    requires Settled(q) && n in q.timers
    ensures RequestName(n) in q.pending && q.pending[RequestName(n)] == n
  {
    hide RequestName;
    var id :| id in q.pending && q.pending[id] == n;
  }

  lemma ExpireKeeps(q: Requests, n: nat)
    requires Settled(q) && n in q.timers
    ensures Settled(Expire(q, n)) && Expire(q, n) == SettleOne(q, RequestName(n), TimedOut)
  {
    hide Settled, RequestName;
    TimerFindsItsRequest(q, n);
    SettleKeeps(q, RequestName(n), TimedOut);
  }

  lemma RejectKeeps(q: Requests, reason: string)
    requires Settled(q)
    ensures var r := RejectAll(q, reason);
            && Settled(r) && r.pending == map[] && r.timers == {}
            && r.settlements == q.settlements + multiset(q.pending.Keys)
  {
    hide RequestName, RejectAll, Balanced;
    var rejected := map id | id in q.pending.Keys :: Rejected(reason);
    RejectAllIs(q, reason);
    NothingLeft(map[]);
    MergedKeys(q.outcomes, rejected);
    assert rejected.Keys == q.pending.Keys;
    BalanceReject(q.sent, q.pending.Keys, q.settlements, q.outcomes.Keys);
  }

  lemma RejectAllIs(q: Requests, reason: string)
    ensures RejectAll(q, reason)
         == q.(pending := map[], timers := q.timers - q.pending.Values,
               settlements := q.settlements + multiset(q.pending.Keys),
               outcomes := q.outcomes + map id | id in q.pending.Keys :: Rejected(reason))
  {
    assert (set id | id in q.pending.Keys :: q.pending[id]) == q.pending.Values;
  }

  lemma NothingLeft(m: map<string, nat>)
    requires m == map[]
    ensures m.Keys == {} && m.Values == {}
  {
  }

  lemma MergedKeys(a: map<string, How>, b: map<string, How>)
    ensures (a + b).Keys == a.Keys + b.Keys
  {
  }

  lemma IssueKeeps(q: Requests)
    requires Settled(q)
    ensures Settled(Issue(q))
  {
    hide RequestName, Balanced, Numbered;
    var id := RequestName(q.requestId + 1);
    FreshIds(q);
    AtMostOnce(q, id);
    BalanceIssue(q.sent, q.pending.Keys, q.settlements, q.outcomes.Keys, id);
    assert Issue(q).pending.Keys == q.pending.Keys + {id};
    NumberedIssue(q);
  }

  lemma NumberedIssue(q: Requests)
    requires Numbered(q) && RequestName(q.requestId + 1) !in q.pending
    ensures Numbered(Issue(q))
  {
    hide RequestName;
    ValuesWith(q.pending, RequestName(q.requestId + 1), q.requestId + 1);
  }

  lemma {:induction false} LinesKeep(c: Client, lines: seq<string>, parse: string -> Parsed)
    requires Settled(c.requests)
    ensures Settled(HandleLines(c, lines, parse).requests)
    decreases |lines|
  {
    hide Settled, SettleOne;
    if lines != [] {
      LineKeeps(c, lines[0], parse);
      LinesKeep(HandleLine(c, lines[0], parse), lines[1..], parse);
    }
  }

  lemma LineKeeps(c: Client, line: string, parse: string -> Parsed)
    requires Settled(c.requests)
    ensures Settled(HandleLine(c, line, parse).requests)
  {
    hide Settled, SettleOne;
    match parse(line)
    case Response(id) => if id in c.requests.pending { SettleKeeps(c.requests, id, Resolved(line)); }
    case _ =>
  }

  lemma StepKeeps(c: Client, i: Input, parse: string -> Parsed)
    requires Settled(c.requests)
    ensures Settled(Step(c, i, parse).requests)
  {
    hide Settled, HandleLines, OnCrash, Expire, RejectAll, Issue, Complete, Partial;
    match i
    case Send => IssueKeeps(c.requests);
    case StopEnds => RejectKeeps(c.requests, "Client stopped");
    case Data(chunk) =>
      var text := c.buffer + chunk;
      LinesKeep(c.(buffer := Partial(text)), Handled(Complete(text)), parse);
    case Timeout(n) => if n in c.requests.timers { ExpireKeeps(c.requests, n); }
    case Exit(_, _, reason, _) => RejectKeeps(c.requests, reason);
    case _ =>
  }

  /** Over every interleaving of sends, lines, timeouts, exits and stops the
      bookkeeping holds. */
  lemma {:induction false} RequestsSettleOnce(c: Client, inputs: seq<Input>, parse: string -> Parsed)
    requires Settled(c.requests)
    ensures Settled(StepAll(c, inputs, parse).requests)
    decreases |inputs|
  {
    hide Settled, Step;
    if inputs != [] {
      StepKeeps(c, inputs[0], parse);
      RequestsSettleOnce(Step(c, inputs[0], parse), inputs[1..], parse);
    }
  }

  lemma NothingSettled()
    ensures Settled(NO_REQUESTS)
  {
    NothingToCount({});
    NothingLeft(map[]);
  }

  // ----- Framing -----

  lemma {:induction false} LinesAppend(c: Client, x: seq<string>, y: seq<string>, parse: string -> Parsed)
    ensures HandleLines(c, x + y, parse) == HandleLines(HandleLines(c, x, parse), y, parse)
    decreases |x|
  {
    hide HandleLine;
    if x == [] {
      assert x + y == y;
    } else {
      assert (x + y)[1..] == x[1..] + y;
      LinesAppend(HandleLine(c, x[0], parse), x[1..], y, parse);
    }
  }

  lemma {:induction false} LinesIgnoreBuffer(c: Client, lines: seq<string>, buffer: string, parse: string -> Parsed)
    ensures HandleLines(c.(buffer := buffer), lines, parse) == HandleLines(c, lines, parse).(buffer := buffer)
    ensures HandleLines(c, lines, parse).buffer == c.buffer
    decreases |lines|
  {
    if lines != [] { LinesIgnoreBuffer(HandleLine(c, lines[0], parse), lines[1..], buffer, parse); }
  }

  /** Where the process's output is cut into chunks makes no difference. */
  lemma ChunksCompose(c: Client, x: string, y: string, parse: string -> Parsed)
    ensures Step(Step(c, Data(x), parse), Data(y), parse) == Step(c, Data(x + y), parse)
  {
    hide Complete, Partial, HandleLines, Handled;
    var text := c.buffer + x;
    var rest := Partial(text) + y;
    assert c.buffer + (x + y) == text + y;
    SplitAppend(text, y);
    HandledAppend(Complete(text), Complete(rest));
    LinesAppend(c, Handled(Complete(text)), Handled(Complete(rest)), parse);
    LinesIgnoreBuffer(c, Handled(Complete(text)), Partial(text), parse);
    LinesIgnoreBuffer(HandleLines(c, Handled(Complete(text)), parse), Handled(Complete(rest)), Partial(rest), parse);
    LinesIgnoreBuffer(c, Handled(Complete(text)) + Handled(Complete(rest)), Partial(rest), parse);
  }

  // ----- What the lines of a chunk do -----

  /** One line: it resolves its request or fires an event, never both; a line that does
      not parse does neither. */
  lemma LineResolvesOrFires(c: Client, line: string, parse: string -> Parsed)
    ensures var r, p := HandleLine(c, line, parse), parse(line);
            && (p.NotJson? ==> r == c)
            && (p.Response? && p.id in c.requests.pending ==>
                  r.fired == c.fired && r.requests.settlements == c.requests.settlements + multiset{p.id}
                  && r.requests.pending == c.requests.pending - {p.id}
                  && r.requests.outcomes == c.requests.outcomes[p.id := Resolved(line)])
            && (!p.NotJson? && !(p.Response? && p.id in c.requests.pending) ==>
                  r.fired == c.fired + [line] && r.requests == c.requests)
  {
  }

  /** No line is a response to this request. */
  predicate Unanswered(lines: seq<string>, id: string, parse: string -> Parsed) {
    forall j :: 0 <= j < |lines| ==> parse(lines[j]) != Response(id)
  }

  /** Of these lines, line `k` is the first response to a request that is pending. */
  predicate Resolves(pending: set<string>, lines: seq<string>, k: nat, parse: string -> Parsed)
    requires k < |lines|
  {
    && parse(lines[k]).Response? && parse(lines[k]).id in pending
    && forall j :: 0 <= j < k ==> parse(lines[j]) != parse(lines[k])
  }

  /** The ids the lines resolve, in order. */
  function ResolvedBy(pending: set<string>, lines: seq<string>, parse: string -> Parsed): seq<string> {
    if lines == [] then []
    else
      var last := |lines| - 1;
      ResolvedBy(pending, lines[..last], parse)
      + (if Resolves(pending, lines, last, parse) then [parse(lines[last]).id] else [])
  }

  /** The lines that fire events, in order. */
  function FiredBy(pending: set<string>, lines: seq<string>, parse: string -> Parsed): seq<string> {
    if lines == [] then []
    else
      var last := |lines| - 1;
      FiredBy(pending, lines[..last], parse)
      + (if !parse(lines[last]).NotJson? && !Resolves(pending, lines, last, parse) then [lines[last]] else [])
  }

  function CountParsed(lines: seq<string>, parse: string -> Parsed): nat {
    if lines == [] then 0
    else CountParsed(lines[..|lines| - 1], parse) + (if parse(lines[|lines| - 1]).NotJson? then 0 else 1)
  }

  /** What handling some lines comes to. */
  ghost predicate Sorted(c: Client, lines: seq<string>, parse: string -> Parsed, r: Client) {
    var pending := c.requests.pending.Keys;
    && r.fired == c.fired + FiredBy(pending, lines, parse)
    && r.requests.settlements == c.requests.settlements + multiset(ResolvedBy(pending, lines, parse))
    && (forall id :: id in r.requests.pending <==> id in pending && Unanswered(lines, id, parse))
    && (forall k :: 0 <= k < |lines| && Resolves(pending, lines, k, parse) ==> Told(r.requests, lines[k], parse))
  }

  /** The request this line answers was resolved by it. */
  predicate Told(q: Requests, line: string, parse: string -> Parsed) {
    var p := parse(line);
    p.Response? && p.id in q.outcomes && q.outcomes[p.id] == Resolved(line)
  }

  lemma SortedMore(pending: set<string>, early: seq<string>, line: string, parse: string -> Parsed)
    ensures var lines := early + [line];
            && ResolvedBy(pending, lines, parse)
               == ResolvedBy(pending, early, parse)
                  + (if Resolves(pending, lines, |early|, parse) then [parse(line).id] else [])
            && FiredBy(pending, lines, parse)
               == FiredBy(pending, early, parse)
                  + (if !parse(line).NotJson? && !Resolves(pending, lines, |early|, parse) then [line] else [])
            && CountParsed(lines, parse) == CountParsed(early, parse) + (if parse(line).NotJson? then 0 else 1)
            && (forall k :: 0 <= k < |early| ==>
                  (Resolves(pending, lines, k, parse) <==> Resolves(pending, early, k, parse)))
  {
    var lines := early + [line];
    assert lines[..|early|] == early;
    forall k | 0 <= k < |early| ensures Resolves(pending, lines, k, parse) <==> Resolves(pending, early, k, parse) {
      assert lines[k] == early[k];
      assert forall j :: 0 <= j < k ==> lines[j] == early[j];
    }
  }

  lemma UnansweredMore(early: seq<string>, line: string, id: string, parse: string -> Parsed)
    ensures Unanswered(early + [line], id, parse) <==> Unanswered(early, id, parse) && parse(line) != Response(id)
  {
    var lines := early + [line];
    assert lines[|early|] == line && forall j :: 0 <= j < |early| ==> lines[j] == early[j];
  }

  lemma ResolvesLast(pending: set<string>, early: seq<string>, line: string, parse: string -> Parsed)
    ensures Resolves(pending, early + [line], |early|, parse)
            <==> parse(line).Response? && parse(line).id in pending && Unanswered(early, parse(line).id, parse)
  {
    var lines := early + [line];
    assert lines[|early|] == line && forall j :: 0 <= j < |early| ==> lines[j] == early[j];
  }

  /** An earlier line's outcome stays: no later one answers the same request. */
  lemma ToldStays(pending: set<string>, early: seq<string>, line: string, k: nat, parse: string -> Parsed,
                  q: Requests, q': Requests)
    requires k < |early| && Told(q, early[k], parse)
    requires q'.outcomes == q.outcomes
             || (Resolves(pending, early + [line], |early|, parse)
                 && q'.outcomes == q.outcomes[parse(line).id := Resolved(line)])
    ensures Told(q', early[k], parse)
  {
    ResolvesLast(pending, early, line, parse);
  }

  lemma OneMoreSorted(c: Client, early: seq<string>, line: string, parse: string -> Parsed, mid: Client)
    requires Sorted(c, early, parse, mid)
    ensures Sorted(c, early + [line], parse, HandleLine(mid, line, parse))
  {
    hide FiredBy, ResolvedBy, HandleLine, Resolves, Unanswered, Told;
    var pending, lines, p := c.requests.pending.Keys, early + [line], parse(line);
    var r := HandleLine(mid, line, parse);
    SortedMore(pending, early, line, parse);
    LineResolvesOrFires(mid, line, parse);
    ResolvesLast(pending, early, line, parse);
    forall id ensures id in r.requests.pending <==> id in pending && Unanswered(lines, id, parse) {
      UnansweredMore(early, line, id, parse);
    }
    forall k | 0 <= k < |lines| && Resolves(pending, lines, k, parse) ensures Told(r.requests, lines[k], parse) {
      if k < |early| {
        assert lines[k] == early[k];
        ToldStays(pending, early, line, k, parse, mid.requests, r.requests);
      } else {
        JustTold(mid.requests.outcomes, r.requests, line, parse);
      }
    }
  }

  lemma JustTold(before: map<string, How>, q: Requests, line: string, parse: string -> Parsed)
    requires parse(line).Response? && q.outcomes == before[parse(line).id := Resolved(line)]
    ensures Told(q, line, parse)
  {
  }

  lemma {:induction false} LinesSort(c: Client, lines: seq<string>, parse: string -> Parsed)
    ensures Sorted(c, lines, parse, HandleLines(c, lines, parse))
    ensures var pending := c.requests.pending.Keys;
            |ResolvedBy(pending, lines, parse)| + |FiredBy(pending, lines, parse)| == CountParsed(lines, parse)
    decreases |lines|
  {
    hide HandleLine;
    if lines != [] {
      hide Sorted, FiredBy, ResolvedBy, CountParsed, Resolves;
      var early, line := lines[..|lines| - 1], lines[|lines| - 1];
      assert lines == early + [line];
      LinesSort(c, early, parse);
      LinesAppend(c, early, [line], parse);
      JustLine(HandleLines(c, early, parse), line, parse);
      OneMoreSorted(c, early, line, parse, HandleLines(c, early, parse));
      SortedMore(c.requests.pending.Keys, early, line, parse);
    }
  }

  lemma JustLine(c: Client, line: string, parse: string -> Parsed)
    ensures HandleLines(c, [line], parse) == HandleLine(c, line, parse)
  {
    hide HandleLine;
    assert [line][1..] == [];
  }

  /** A chunk of output, whatever lines it completes: each line that parses resolves one
      pending request or fires one event, never both.  It resolves exactly when it is
      the first response there to a request that was pending; the requests resolved
      leave the pending ones, with that line as their outcome, and all the other lines
      fire their events in order. */
  lemma ResolvesOrFires(c: Client, chunk: string, parse: string -> Parsed)
    ensures var lines, r := Handled(Complete(c.buffer + chunk)), Step(c, Data(chunk), parse);
            var pending := c.requests.pending.Keys;
            && Sorted(c, lines, parse, r)
            && |ResolvedBy(pending, lines, parse)| + |FiredBy(pending, lines, parse)| == CountParsed(lines, parse)
            && r.hasProcess == c.hasProcess && r.restarts == c.restarts
            && r.requests.sent == c.requests.sent && r.requests.requestId == c.requests.requestId
            && r.buffer == Partial(c.buffer + chunk)
  {
    hide HandleLines, Handled, Complete, Lines.Partial, ResolvedBy, FiredBy, CountParsed, Resolves;
    var text := c.buffer + chunk;
    LinesSort(c.(buffer := Lines.Partial(text)), Handled(Complete(text)), parse);
    LinesLeave(c.(buffer := Lines.Partial(text)), Handled(Complete(text)), parse);
  }

  lemma {:induction false} LinesLeave(c: Client, lines: seq<string>, parse: string -> Parsed)
    ensures var r := HandleLines(c, lines, parse);
            && r.hasProcess == c.hasProcess && r.restarts == c.restarts && r.buffer == c.buffer
            && r.requests.sent == c.requests.sent && r.requests.requestId == c.requests.requestId
    decreases |lines|
  {
    if lines != [] { LinesLeave(HandleLine(c, lines[0], parse), lines[1..], parse); }
  }

  // ----- What the other inputs do -----

  /** Every pending request is rejected with this reason and its timer cleared; what was
      settled before stays as it was. */
  predicate AllRejected(q: Requests, r: Requests, reason: string) {
    && r.pending == map[] && r.timers == {}
    && (forall id :: id in q.pending ==> id in r.outcomes && r.outcomes[id] == Rejected(reason))
    && (forall id :: id in q.outcomes && id !in q.pending ==> id in r.outcomes && r.outcomes[id] == q.outcomes[id])
    && (forall id :: id in r.outcomes ==> id in q.pending || id in q.outcomes)
    && r.settlements == q.settlements + multiset(q.pending.Keys)
    && r.sent == q.sent && r.requestId == q.requestId
  }

  lemma RejectAllRejects(q: Requests, reason: string)
    requires Settled(q)
    ensures AllRejected(q, RejectAll(q, reason), reason)
  {
    hide Settled, RejectAll;
    RejectKeeps(q, reason);
    RejectAllIs(q, reason);
    RejectedOutcomes(q.outcomes, q.pending.Keys, reason);
  }

  lemma RejectedOutcomes(before: map<string, How>, ids: set<string>, reason: string)
    ensures var r := before + map id | id in ids :: Rejected(reason);
            && (forall id :: id in r <==> id in before || id in ids)
            && (forall id :: id in ids ==> r[id] == Rejected(reason))
            && (forall id :: id in before && id !in ids ==> r[id] == before[id])
  {
  }

  /** When the process exits, every pending request is rejected with the reason, no timer
      stays live, and no request can be sent until the next start. */
  lemma ExitRejectsAll(c: Client, code: Option<int>, signal: Option<string>, reason: string, now: int,
                       parse: string -> Parsed)
    requires Settled(c.requests)
    ensures var r := Step(c, Exit(code, signal, reason, now), parse);
            && AllRejected(c.requests, r.requests, reason)
            && !r.hasProcess && r.buffer == c.buffer && r.fired == c.fired
  {
    hide Settled, RejectAll, OnCrash, AllRejected;
    RejectAllRejects(c.requests, reason);
  }

  /** The end of stop() does the same to the requests, in its own words. */
  lemma StopRejectsAll(c: Client, parse: string -> Parsed)
    requires Settled(c.requests)
    ensures var r := Step(c, StopEnds, parse);
            AllRejected(c.requests, r.requests, "Client stopped") && r == c.(requests := r.requests)
    ensures Step(c, StopBegins, parse) == c.(hasProcess := false)
  {
    hide Settled, RejectAll, AllRejected;
    RejectAllRejects(c.requests, "Client stopped");
  }

  /** A timer that fires takes exactly its own request out of the pending ones, with a
      timeout as its outcome; one that is not live does nothing. */
  lemma TimeoutSettlesOne(c: Client, n: nat, parse: string -> Parsed)
    requires Settled(c.requests)
    ensures var q, r, id := c.requests, Step(c, Timeout(n), parse), "req_" + Decimal(n);
            if n in q.timers then
              && id in q.pending
              && r == c.(requests := q.(pending := q.pending - {id}, timers := q.timers - {n},
                                        settlements := q.settlements + multiset{id},
                                        outcomes := q.outcomes[id := TimedOut]))
            else r == c
  {
    hide Settled, Decimal;
    if n in c.requests.timers { TimerFindsItsRequest(c.requests, n); }
  }

  /** A request goes out, while there is a process, under an id no earlier request had,
      and is then pending with a live timer of its own; nothing else changes. */
  lemma SendIssuesOne(c: Client, parse: string -> Parsed)
    requires Settled(c.requests)
    ensures var q, r, n := c.requests, Step(c, Send, parse), c.requests.requestId + 1;
            var id := "req_" + Decimal(n);
            && id !in q.sent && id !in q.pending && n !in q.timers
            && r == if c.hasProcess then
                      c.(requests := q.(requestId := n, pending := q.pending[id := n], timers := q.timers + {n},
                                        sent := q.sent + [id]))
                    else c
  {
    hide Balanced;
    FreshIds(c.requests);
    AtMostOnce(c.requests, RequestName(c.requests.requestId + 1));
    NoSuchTimer(c.requests);
  }

  lemma NoSuchTimer(q: Requests)
    requires Settled(q)
    ensures q.requestId + 1 !in q.timers
  {
    hide Balanced;
    FreshIds(q);
    AtMostOnce(q, RequestName(q.requestId + 1));
    assert forall id :: id in q.pending ==> id == RequestName(q.pending[id]);
  }

  /** start() does nothing while there is a process; otherwise there is one from then on,
      no text is left from before, and restarts are counted from 0 again. */
  lemma StartResets(c: Client, parse: string -> Parsed)
    ensures var r := Step(c, Start, parse);
            r == if c.hasProcess then c
                 else c.(hasProcess := true, buffer := "",
                         restarts := c.restarts.(count := 0, startedAt := |c.restarts.crashes|))
  {
  }

  // ----- The restart limit -----

  function Times(cs: seq<Crash>): (ts: seq<int>)
    ensures |ts| == |cs| && forall k :: 0 <= k < |cs| ==> ts[k] == cs[k].at
  {
    seq(|cs|, k requires 0 <= k < |cs| => cs[k].at)
  }

  /** The clock reads of crashes do not go back. */
  predicate Monotone(cs: seq<Crash>) {
    forall i, j :: 0 <= i < j < |cs| ==> cs[i].at <= cs[j].at
  }

  /** The timestamp list is the crashes less than 60 s before the latest one, in
      order, and a restart was scheduled only when there were at most three. */
  predicate Limited(r: Restarts) {
    && r.timestamps == (if r.crashes == [] then [] else Recent(Times(r.crashes), r.crashes[|r.crashes| - 1].at))
    && Spaced(r.crashes)
    && r.startedAt <= |r.crashes| && r.count == Scheduled(r.crashes[r.startedAt..])
  }

  /** Restarts scheduled for these crashes. */
  function Scheduled(cs: seq<Crash>): nat {
    if cs == [] then 0
    else Scheduled(cs[..|cs| - 1]) + (if cs[|cs| - 1].restarted then 1 else 0)
  }

  lemma ScheduledAppend(cs: seq<Crash>, c: Crash)
    ensures Scheduled(cs + [c]) == Scheduled(cs) + (if c.restarted then 1 else 0)
  {
    assert (cs + [c])[..|cs|] == cs;
  }

  predicate Spaced(cs: seq<Crash>) {
    forall k :: 0 <= k < |cs| && cs[k].restarted ==> |Recent(Times(cs[..k + 1]), cs[k].at)| <= MAX_RECENT
  }

  /** Filtering keeps what lies less than 60 s back. */
  lemma RecentOne(t: int, now: int)
    ensures Recent([t], now) == if now - t < 60000 then [t] else []
  {
    assert [t][1..] == [];
  }

  lemma {:induction false} RecentAppend(a: seq<int>, b: seq<int>, now: int)
    ensures Recent(a + b, now) == Recent(a, now) + Recent(b, now)
  {
    if a == [] {
      assert a + b == b;
    } else {
      assert (a + b)[1..] == a[1..] + b;
      RecentAppend(a[1..], b, now);
    }
  }

  /** Filtering at an earlier time first makes no difference. */
  lemma {:induction false} RecentTwice(ts: seq<int>, earlier: int, now: int)
    requires earlier <= now
    ensures Recent(Recent(ts, earlier), now) == Recent(ts, now)
  {
    if ts != [] {
      RecentTwice(ts[1..], earlier, now);
      var r := Recent(ts[1..], earlier);
      assert ([ts[0]] + r)[1..] == r;
    }
  }

  /** The limiter's new list, against everything that ever crashed. */
  lemma RecentCrashes(r: Restarts, now: int)
    requires Limited(r) && (r.crashes != [] ==> r.crashes[|r.crashes| - 1].at <= now)
    ensures Recent(r.timestamps + [now], now) == Recent(Times(r.crashes) + [now], now)
    ensures |Recent(r.timestamps + [now], now)| == |Recent(Times(r.crashes), now)| + 1
  {
    RecentAppend(r.timestamps, [now], now);
    RecentAppend(Times(r.crashes), [now], now);
    if r.crashes != [] { RecentTwice(Times(r.crashes), r.crashes[|r.crashes| - 1].at, now); }
    assert |Recent([now], now)| == 1;
  }

  lemma CrashKeepsLimit(r: Restarts, now: int)
    requires Limited(r) && (r.crashes != [] ==> r.crashes[|r.crashes| - 1].at <= now)
    ensures Limited(OnCrash(r, now))
  {
    hide Recent, Spaced;
    RecentCrashes(r, now);
    var crash := OnCrash(r, now).crashes[|r.crashes|];
    assert Times(r.crashes + [crash]) == Times(r.crashes) + [now];
    SpacedAppend(r.crashes, crash);
    assert (r.crashes + [crash])[r.startedAt..] == r.crashes[r.startedAt..] + [crash];
    ScheduledAppend(r.crashes[r.startedAt..], crash);
  }

  lemma SpacedAppend(cs: seq<Crash>, c: Crash)
    requires Spaced(cs) && (c.restarted ==> |Recent(Times(cs + [c]), c.at)| <= MAX_RECENT)
    ensures Spaced(cs + [c])
  {
    hide Recent;
    var all := cs + [c];
    forall k | 0 <= k < |all| && all[k].restarted ensures |Recent(Times(all[..k + 1]), all[k].at)| <= MAX_RECENT {
      if k < |cs| {
        assert all[..k + 1] == cs[..k + 1];
      } else {
        assert all[..k + 1] == all;
      }
    }
  }

  lemma {:induction false} LinesKeepRestarts(c: Client, lines: seq<string>, parse: string -> Parsed)
    ensures HandleLines(c, lines, parse).restarts == c.restarts
    decreases |lines|
  {
    if lines != [] { LinesKeepRestarts(HandleLine(c, lines[0], parse), lines[1..], parse); }
  }

  /** What a step does to the limiter. */
  lemma StepRestarts(c: Client, i: Input, parse: string -> Parsed)
    ensures var r := Step(c, i, parse).restarts;
            if i.Exit? && IsCrash(i.code, i.signal) then r == OnCrash(c.restarts, i.now)
            else r == c.restarts || r == Restarted(c.restarts)
  {
    hide HandleLines, OnCrash, IsCrash, RejectAll, Issue, Expire;
    if i.Data? {
      var text := c.buffer + i.chunk;
      LinesKeepRestarts(c.(buffer := Partial(text)), Handled(Complete(text)), parse);
    }
  }

  lemma StepGrows(c: Client, i: Input, parse: string -> Parsed)
    ensures c.restarts.crashes <= Step(c, i, parse).restarts.crashes
  {
    hide Step, IsCrash;
    StepRestarts(c, i, parse);
  }

  lemma StepKeepsLimit(c: Client, i: Input, parse: string -> Parsed)
    requires Limited(c.restarts) && Monotone(Step(c, i, parse).restarts.crashes)
    ensures Limited(Step(c, i, parse).restarts)
  {
    hide Step, IsCrash, Recent, Spaced;
    StepRestarts(c, i, parse);
    assert c.restarts.crashes[|c.restarts.crashes|..] == [];
    if i.Exit? && IsCrash(i.code, i.signal) {
      var n, cs := |c.restarts.crashes|, OnCrash(c.restarts, i.now).crashes;
      assert n > 0 ==> cs[n - 1].at <= cs[n].at;
      CrashKeepsLimit(c.restarts, i.now);
    }
  }

  /** Over every run with a monotone clock the limiter's list is exactly the
      crashes of the last 60 s. */
  lemma {:induction false} LimiterHolds(c: Client, inputs: seq<Input>, parse: string -> Parsed)
    requires Limited(c.restarts) && Monotone(StepAll(c, inputs, parse).restarts.crashes)
    ensures Limited(StepAll(c, inputs, parse).restarts)
    decreases |inputs|
  {
    hide Limited, Step;
    if inputs != [] {
      CrashesGrow(Step(c, inputs[0], parse), inputs[1..], parse);
      StepKeepsLimit(c, inputs[0], parse);
      LimiterHolds(Step(c, inputs[0], parse), inputs[1..], parse);
    }
  }

  lemma {:induction false} CrashesGrow(c: Client, inputs: seq<Input>, parse: string -> Parsed)
    requires Monotone(StepAll(c, inputs, parse).restarts.crashes)
    ensures Monotone(c.restarts.crashes)
    decreases |inputs|
  {
    hide Step, Monotone;
    if inputs != [] {
      CrashesGrow(Step(c, inputs[0], parse), inputs[1..], parse);
      StepGrows(c, inputs[0], parse);
      PrefixMonotone(c.restarts.crashes, Step(c, inputs[0], parse).restarts.crashes);
    }
  }

  lemma PrefixMonotone(a: seq<Crash>, b: seq<Crash>)
    requires a <= b && Monotone(b)
    ensures Monotone(a)
  {
  }

  /** Restarts scheduled in the window [lo, hi). */
  function RestartsIn(cs: seq<Crash>, lo: int, hi: int): nat {
    if cs == [] then 0
    else RestartsIn(cs[..|cs| - 1], lo, hi)
         + (var c := cs[|cs| - 1]; if c.restarted && lo <= c.at < hi then 1 else 0)
  }

  lemma {:induction false} RestartsAreRecent(cs: seq<Crash>, lo: int, hi: int, now: int)
    requires hi - lo <= WINDOW && lo <= now < hi
    ensures RestartsIn(cs, lo, hi) <= |Recent(Times(cs), now)|
  {
    if cs != [] {
      var early, c := cs[..|cs| - 1], cs[|cs| - 1];
      RestartsAreRecent(early, lo, hi, now);
      assert Times(cs) == Times(early) + [c.at];
      RecentAppend(Times(early), [c.at], now);
    }
  }

  /** The limit: no window of up to 60 s ever holds more than three scheduled
      restarts. */
  lemma {:induction false} AtMostThreeRestarts(cs: seq<Crash>, lo: int, hi: int)
    requires Spaced(cs) && hi - lo <= WINDOW
    ensures RestartsIn(cs, lo, hi) <= MAX_RECENT
  {
    if cs != [] {
      var n := |cs| - 1;
      if cs[n].restarted && lo <= cs[n].at < hi {
        RestartsAreRecent(cs, lo, hi, cs[n].at);
        assert cs[..n + 1] == cs;
      } else {
        SpacedPrefix(cs, n);
        AtMostThreeRestarts(cs[..n], lo, hi);
      }
    }
  }

  lemma SpacedPrefix(cs: seq<Crash>, n: nat)
    requires Spaced(cs) && n <= |cs|
    ensures Spaced(cs[..n])
  {
    hide Recent;
    var early := cs[..n];
    forall k | 0 <= k < |early| && early[k].restarted
      ensures |Recent(Times(early[..k + 1]), early[k].at)| <= MAX_RECENT
    {
      assert early[..k + 1] == cs[..k + 1];
    }
  }

  /** The same for whole runs of a new client. */
  lemma RunsRestartAtMostThreeTimes(inputs: seq<Input>, parse: string -> Parsed, lo: int, hi: int)
    requires Monotone(StepAll(NEW, inputs, parse).restarts.crashes) && hi - lo <= 60000
    ensures RestartsIn(StepAll(NEW, inputs, parse).restarts.crashes, lo, hi) <= 3
  {
    hide StepAll;
    LimiterHolds(NEW, inputs, parse);
    AtMostThreeRestarts(StepAll(NEW, inputs, parse).restarts.crashes, lo, hi);
  }

  /** A process's exit schedules a restart exactly when it was neither clean nor
      by SIGTERM, at most two crashes came in the 60 s before it, and fewer than
      three restarts were scheduled since the last start. */
  lemma RestartsExactlyWhen(c: Client, code: Option<int>, signal: Option<string>, reason: string, now: int,
                            parse: string -> Parsed)
    requires Limited(c.restarts)
    requires c.restarts.crashes != [] ==> c.restarts.crashes[|c.restarts.crashes| - 1].at <= now
    ensures var n, r := |c.restarts.crashes|, Step(c, Exit(code, signal, reason, now), parse).restarts;
            var crash := code != Some(0) && signal != Some("SIGTERM");
            && c.restarts.crashes <= r.crashes && |r.crashes| == (if crash then n + 1 else n)
            && (crash ==> r.crashes[n].at == now)
            && (|r.crashes| > n && r.crashes[n].restarted
                <==> crash && |Recent(Times(c.restarts.crashes), now)| <= 2
                     && Scheduled(c.restarts.crashes[c.restarts.startedAt..]) < 3)
  {
    hide Recent, RejectAll, Spaced, Scheduled;
    RecentCrashes(c.restarts, now);
  }
}
