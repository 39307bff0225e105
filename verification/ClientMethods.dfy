/** class GsdClient as imperative code. */
module ClientMethods {
  import opened Messages
  import opened Lines
  import opened RpcClient

  class GsdClient {
    const parse: string -> Parsed
    var hasProcess: bool
    var buffer: string
    var requestId: nat
    var pendingRequests: map<string, nat>
    var timers: set<nat>
    var restartCount: nat
    var restartTimestamps: seq<int>
    /** History. */
    var sent: seq<string>
    var settlements: multiset<string>
    var outcomes: map<string, How>
    var fired: seq<string>
    var crashes: seq<Crash>
    var startedAt: nat

    function Requested(): Requests
      reads this
    {
      Requests(requestId, pendingRequests, timers, sent, settlements, outcomes)
    }

    function Limiter(): Restarts
      reads this
    {
      Restarts(restartCount, restartTimestamps, crashes, startedAt)
    }

    function State(): Client
      reads this
    {
      Client(hasProcess, buffer, Requested(), Limiter(), fired)
    }

    constructor (parse: string -> Parsed)
      ensures State() == NEW && this.parse == parse && Settled(Requested()) && Limited(Limiter())
    {
      this.parse, hasProcess, buffer, requestId, pendingRequests, timers := parse, false, "", 0, map[], {};
      restartCount, restartTimestamps, sent, settlements, outcomes := 0, [], [], multiset{}, map[];
      fired, crashes, startedAt := [], [], 0;
      new;
      NothingSettled();
    }

    method Start()
      modifies this
      ensures State() == Step(old(State()), Input.Start, parse)
    {
      if hasProcess { return; }
      hasProcess, buffer := true, "";
      restartCount, startedAt := 0, |crashes|;
    }

    /** The synchronous part of stop(). */
    method BeginStop()
      modifies this
      ensures State() == Step(old(State()), StopBegins, parse)
    {
      if !hasProcess { return; }
      hasProcess := false;
    }

    /** stop() once the process has exited or been killed. */
    method EndStop()
      modifies this
      ensures State() == Step(old(State()), StopEnds, parse)
    {
      RejectAllPending("Client stopped");
    }

    /** Resolving or rejecting the promise of one request. */
    method SettlePromise(id: string, how: How)
      modifies this`settlements, this`outcomes
      ensures settlements == old(settlements) + multiset{id} && outcomes == old(outcomes)[id := how]
    {
      settlements, outcomes := settlements + multiset{id}, outcomes[id := how];
    }

    method RejectAllPending(reason: string)
      modifies this`pendingRequests, this`timers, this`settlements, this`outcomes
      ensures Requested() == RejectAll(old(Requested()), reason)
    {
      hide RejectOnly;
      var left := pendingRequests.Keys;
      RejectNone(Requested(), pendingRequests.Keys - left, reason);
      while left != {}
        invariant pendingRequests == old(pendingRequests) && left <= pendingRequests.Keys
        invariant Requested() == RejectOnly(old(Requested()), old(pendingRequests).Keys - left, reason)
        decreases |left|
      {
        var id :| id in left;
        RejectOneMore(old(Requested()), old(pendingRequests).Keys - left, id, reason);
        assert old(pendingRequests).Keys - (left - {id}) == old(pendingRequests).Keys - left + {id};
        timers := timers - {pendingRequests[id]};
        SettlePromise(id, Rejected(reason));
        left := left - {id};
      }
      assert old(pendingRequests).Keys - {} == old(pendingRequests).Keys;
      pendingRequests := map[];
    }

    /** send(): the id of the request, or None when the client is not started. */
    method Send() returns (id: Option<string>)
      modifies this
      ensures State() == Step(old(State()), Input.Send, parse)
      ensures id == if old(hasProcess) then Some(RequestName(old(requestId) + 1)) else None
    {
      if !hasProcess { return None; }
      requestId := requestId + 1;
      var name := RequestName(requestId);
      timers := timers + {requestId};
      pendingRequests := pendingRequests[name := requestId];
      sent := sent + [name];
      id := Some(name);
    }

    /** The callback of a request's timer. */
    method OnTimeout(timer: nat)
      requires timer in timers
      modifies this
      ensures State() == Step(old(State()), Timeout(timer), parse)
    {
      hide Expire;
      ExpireTimer(timer);
    }

    method ExpireTimer(timer: nat)
      modifies this`pendingRequests, this`timers, this`settlements, this`outcomes
      ensures Requested() == Expire(old(Requested()), timer)
    {
      hide RequestName;
      var id := RequestName(timer);
      timers := timers - {timer};
      pendingRequests := pendingRequests - {id};
      SettlePromise(id, TimedOut);
    }

    method Resolve(id: string, line: string)
      requires id in pendingRequests
      modifies this`pendingRequests, this`timers, this`settlements, this`outcomes
      ensures Requested() == SettleOne(old(Requested()), id, Resolved(line))
    {
      var timer := pendingRequests[id];
      pendingRequests := pendingRequests - {id};
      timers := timers - {timer};
      SettlePromise(id, Resolved(line));
    }

    method HandleLine(line: string)
      modifies this
      ensures State() == RpcClient.HandleLine(old(State()), line, parse) && buffer == old(buffer)
    {
      hide SettleOne;
      var data := parse(line);
      if data.NotJson? { return; }
      if data.Response? && data.id in pendingRequests {
        Resolve(data.id, line);
        return;
      }
      fired := fired + [line];
    }

    /** stdout data: drainBuffer. */
    method OnData(chunk: string)
      modifies this
      ensures State() == Step(old(State()), Data(chunk), parse)
    {
      hide Complete, Partial, Handled, RpcClient.HandleLine, HandleLines;
      buffer := buffer + chunk;
      ghost var text := buffer;
      ghost var s0 := State().(buffer := Partial(text));
      LinesIgnoreBuffer(s0, Handled(Complete(text)), text, parse);
      ghost var all := HandleLines(s0, Handled(Complete(text)), parse);
      while true
        invariant Partial(buffer) == Partial(text)
        invariant all == HandleLines(State().(buffer := Partial(text)), Handled(Complete(buffer)), parse)
        decreases |buffer|
      {
        var newlineIdx := IndexOf(buffer);
        if newlineIdx == -1 {
          LastPartial(buffer);
          NothingHandled(State().(buffer := Partial(text)), parse);
          break;
        }
        var line := buffer[..newlineIdx];
        var rest := buffer[newlineIdx + 1..];
        CutLine(buffer, line, rest);
        HandledCons(line, Complete(rest));
        LinesAppend(State().(buffer := Partial(text)), if StripCR(line) == "" then [] else [StripCR(line)],
                    Handled(Complete(rest)), parse);
        NothingHandled(State().(buffer := Partial(text)), parse);
        buffer := rest;
        if line != "" && line[|line| - 1] == '\r' {
          line := line[..|line| - 1];
        }
        if line == "" {
          continue;
        }
        OneHandled(State(), line, Partial(text), parse);
        HandleLine(line);
      }
    }

    /** restartTimestamps.filter(t => now - t < 60_000) */
    static method KeepRecent(ts: seq<int>, now: int) returns (kept: seq<int>)
      ensures kept == Recent(ts, now)
    {
      kept := [];
      for i := 0 to |ts|
        invariant kept + Recent(ts[i..], now) == Recent(ts, now)
      {
        assert ts[i..][0] == ts[i] && ts[i..][1..] == ts[i + 1..];
        if now - ts[i] < WINDOW {
          kept := kept + [ts[i]];
        }
      }
    }

    /** The exit handler. */
    method OnExit(code: Option<int>, signal: Option<string>, reason: string, now: int)
      modifies this
      ensures State() == Step(old(State()), Exit(code, signal, reason, now), parse)
    {
      hide RejectAll, OnCrash, RejectOnly, Recent, HandleLines;
      hasProcess := false;
      RejectAllPending(reason);
      if code != Some(0) && signal != Some("SIGTERM") { LimitRestarts(now); }
    }

    /** The exit handler's bookkeeping of a crash. */
    method LimitRestarts(now: int)
      modifies this`restartTimestamps, this`restartCount, this`crashes
      ensures Limiter() == OnCrash(old(Limiter()), now)
    {
      hide Recent;
      var kept := KeepRecent(restartTimestamps + [now], now);
      restartTimestamps := kept;
      var restart := |restartTimestamps| <= MAX_RECENT && restartCount < MAX_RESTARTS;
      if restart { restartCount := restartCount + 1; }
      crashes := crashes + [Crash(now, restart)];
    }
  }

  lemma NothingHandled(c: Client, parse: string -> Parsed)
    ensures HandleLines(c, [], parse) == c
  {
  }

  lemma OneHandled(c: Client, line: string, buffer: string, parse: string -> Parsed)
    ensures HandleLines(c.(buffer := buffer), [line], parse)
         == RpcClient.HandleLine(c, line, parse).(buffer := buffer)
  {
    assert [line][1..] == [];
  }
}
