/** class AnswerInjector as imperative code. */
module AnswersMethods {
  import opened Answers

  class AnswerInjector {
    const answerFile: AnswerFile
    var questionMetaByTitle: map<string, Meta>
    /** A Map: in insertion order. */
    var deferredEvents: seq<Deferral>
    var timers: set<nat>
    var usedQuestionIds: set<string>
    var questionsAnswered: nat
    var questionsDefaulted: nat
    /** History. */
    var requests: seq<Select>
    var written: seq<Written>
    var fates: seq<Fate>

    function State(): Injector
      reads this
    {
      Injector(answerFile, questionMetaByTitle, deferredEvents, timers, usedQuestionIds, questionsAnswered,
               questionsDefaulted, requests, written, fates)
    }

    constructor (file: AnswerFile)
      ensures State() == Fresh(file) && Inv(State())
    {
      answerFile, questionMetaByTitle, deferredEvents, timers := file, map[], [], {};
      usedQuestionIds, questionsAnswered, questionsDefaulted, requests, written, fates := {}, 0, 0, [], [], [];
      new;
      FreshInv(file);
    }

    /** writeToStdin of a response to request `n`. */
    method Respond(n: nat, fate: Fate)
      requires n < |fates| && (fate.Answered? || fate.Defaulted?)
      modifies this`written, this`fates
      ensures State() == Write(old(State()), n, fate)
    {
      written := written + [Written(n, fate.response)];
      fates := fates[n := fate];
    }

    method ProcessEventWithMeta(n: nat) returns (handled: bool)
      requires n < |requests| == |fates| && requests[n].title in questionMetaByTitle
      modifies this`written, this`fates, this`usedQuestionIds, this`questionsAnswered, this`questionsDefaulted
      ensures (State(), handled) == ProcessWithMeta(old(State()), n)
    {
      var meta := questionMetaByTitle[requests[n].title];
      var answer := FromFile(answerFile, meta, requests[n].options);
      if answer.Some? {
        Respond(n, Answered(meta.id, answer.value));
        usedQuestionIds := usedQuestionIds + {meta.id};
        questionsAnswered := questionsAnswered + 1;
        return true;
      }
      questionsDefaulted := questionsDefaulted + 1;
      if answerFile.cancel {
        Respond(n, Defaulted(Cancelled));
        return true;
      }
      fates := fates[n := Dropped];
      handled := false;
    }

    /** A select request: tryHandle, then handleExtensionUIRequest if it declines. */
    method OnSelect(r: Select)
      requires |requests| == |fates|
      modifies this
      ensures State() == OnAsk(old(State()), r)
    {
      hide FromFile, Put, FirstOption;
      var n := |requests|;
      requests := requests + [r];
      fates := fates + [Waiting];
      if r.title in questionMetaByTitle {
        var handled := ProcessEventWithMeta(n);
        if !handled { Respond(n, Defaulted(FirstOption(r.options))); }
      } else {
        deferredEvents := Put(deferredEvents, Deferral(r.title, n));
        timers := timers + {n};
      }
    }

    /** The timer callback of a deferred request. */
    method OnTimer(n: nat)
      requires n in timers && n < |requests| == |fates|
      modifies this
      ensures State() == OnFire(old(State()), n)
    {
      hide Remove, FirstOption;
      timers := timers - {n};
      deferredEvents := Remove(deferredEvents, requests[n].title);
      questionsDefaulted := questionsDefaulted + 1;
      if answerFile.cancel {
        Respond(n, Defaulted(Cancelled));
      } else {
        Respond(n, Defaulted(FirstOption(requests[n].options)));
      }
    }

    /** observeEvent, given the questions of the tool call. */
    method ObserveEvent(questions: seq<Question>)
      requires Inv(State())
      modifies this
      ensures State() == OnObserve(old(State()), questions) && Inv(State())
    {
      hide Inv, Resolve;
      ObserveKeeps(State(), questions);
      LearnQuestions(questions);
      var deferrals := deferredEvents;
      ghost var all := ResolveAll(State(), deferrals);
      for i := 0 to |deferrals|
        invariant all == ResolveAll(State(), deferrals[i..])
      {
        assert deferrals[i..][0] == deferrals[i] && deferrals[i..][1..] == deferrals[i + 1..];
        var d := deferrals[i];
        if d.title in questionMetaByTitle && d.request < |requests| == |fates| && requests[d.request].title == d.title {
          ResolveOne(d);
        }
      }
    }

    method LearnQuestions(questions: seq<Question>)
      modifies this`questionMetaByTitle
      ensures questionMetaByTitle == Learn(old(questionMetaByTitle), questions)
    {
      for i := 0 to |questions|
        invariant Learn(questionMetaByTitle, questions[i..]) == Learn(old(questionMetaByTitle), questions)
      {
        assert questions[i..][0] == questions[i] && questions[i..][1..] == questions[i + 1..];
        questionMetaByTitle := questionMetaByTitle[questions[i].title := questions[i].meta];
      }
    }

    method ResolveOne(d: Deferral)
      requires d.request < |requests| == |fates| && requests[d.request].title in questionMetaByTitle
      modifies this
      ensures State() == Resolve(old(State()), d)
    {
      hide ProcessWithMeta, Remove;
      timers := timers - {d.request};
      deferredEvents := Remove(deferredEvents, d.title);
      var _ := ProcessEventWithMeta(d.request);
    }
  }
}
