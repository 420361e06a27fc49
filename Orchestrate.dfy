/**
 FastA2A-Agno-Llamaindex/orchestrate.py: the bounded waiter and the four-step
 collaborative chain LlamaIndex, Agno, LlamaIndex, Agno.

 The waiter's loop shares ONE counter of 60 attempts between "still running"
 replies (sleep 2) and exceptions whose text mentions a server error (sleep
 5). The "failed" and "canceled" exceptions are raised inside the same `try`,
 so they reach the same `except` clause and are retried when their text
 mentions a server error.
 */
module Orchestrate {
  import opened Strings
  import opened Schema
  import opened Polling
  import opened Workflow

  const MaxAttempts: nat := 60
  const PollDelay: nat := 2
  const ServerErrorDelay: nat := 5
  const NoErrorDetails: string := "No error details available"

  /** The `except` clause's test: `"500" in str(e) or "Internal Server Error" in str(e)`. */
  predicate IsServerError(message: string)
    ensures IsServerError(message) ==> |message| >= 3
  {
    Contains(message, "500") || Contains(message, "Internal Server Error")
  }

  /** A text with neither a '5' nor an 'S' passes neither test of the clause. */
  lemma PlainTextNoServerError(message: string)
    requires '5' !in message && 'S' !in message
    ensures !IsServerError(message)
  {
    MissingCharNotContained(message, "500", '5');
    MissingCharNotContained(message, "Internal Server Error", 'S');
  }

  /** The "failed" exception: the service, then the error text or the placeholder. */
  function FailedMessage(service: string, error: Option<string>): (m: string)
    ensures |m| >= |service| + 14 && m[..|service|] == service
    ensures m[|service| + 14..] == if error.Some? then error.value else NoErrorDetails
  {
    service + " task failed: " + (match error case Some(e) => e case None => NoErrorDetails)
  }

  function CanceledMessage(service: string): (m: string)
    ensures |m| == |service| + 18 && m[..|service|] == service
  {
    service + " task was canceled"
  }

  /** The exception raised after the loop, quoting `max_attempts * 2` seconds. */
  function TimeoutMessage(service: string): (m: string)
    ensures |m| >= |service| && m[..|service|] == service
    ensures m[|service|..] == " task timed out after " + DecimalString(MaxAttempts * 2) + " seconds"
  {
    service + " task timed out after " + DecimalString(MaxAttempts * 2) + " seconds"
  }

  /** The `except Exception` clause: a server error is retried after 5
      seconds, any other exception is re-raised. */
  function Handle(message: string): (a: PollAction)
    ensures !a.Finish?
    ensures a.Retry? <==> IsServerError(message)
    ensures a.Retry? ==> a.delay == ServerErrorDelay
    ensures a.Propagate? ==> a.message == message
  {
    if IsServerError(message) then Retry(ServerErrorDelay) else Propagate(message)
  }

  /** What one iteration of the loop does with one `get_task` outcome. */
  function PollStep(service: string, f: Fetch): (a: PollAction)
    ensures a.Finish? ==> f.Reply? && f.state == Completed && ReplyText(f.artifacts).Some?
                          && a.text == ReplyText(f.artifacts).value
    ensures f.Reply? && StillRunning(f) ==> a == Retry(PollDelay)
  {
    match f
    case Failure(m) => Handle(m)
    case Reply(state, error, artifacts) =>
      if state == Completed then
        match ReplyText(artifacts)
        case Some(t) => Finish(t)
        case None => Handle(MalformedReplyMessage)
      else if state == Failed then Handle(FailedMessage(service, error))
      else if state == Canceled then Handle(CanceledMessage(service))
      else Retry(PollDelay)
  }

  function Actions(service: string, replies: seq<Fetch>): (acts: seq<PollAction>)
    ensures |acts| == |replies|
    ensures forall j :: 0 <= j < |replies| ==> acts[j] == PollStep(service, replies[j])
  {
    seq(|replies|, j requires 0 <= j < |replies| => PollStep(service, replies[j]))
  }

  /** `wait_for_task_completion` of orchestrate.py, as a function of the
      outcomes its `get_task` calls observe: at most 60 calls, and with 60
      observed outcomes it always returns or raises. */
  function BoundedWait(service: string, replies: seq<Fetch>): (r: WaitRun)
    ensures r.calls <= MaxAttempts && r.calls <= |replies|
    ensures |replies| >= MaxAttempts ==> !r.outcome.Pending?
  {
    SettleWithin(Actions(service, replies), MaxAttempts, TimeoutMessage(service))
  }

  /** The polling loop itself. */
  method WaitForTaskCompletion(replies: seq<Fetch>, service: string) returns (run: WaitRun)
    ensures run == BoundedWait(service, replies)
  {
    ghost var acts := Actions(service, replies);
    var attempts: nat := 0;
    var delays: seq<nat> := [];
    while attempts < MaxAttempts
      invariant attempts <= MaxAttempts && attempts <= |replies|
      invariant AllRetry(acts, attempts)
      invariant delays == Delays(acts[..attempts])
    {
      if attempts == |replies| {
        // the observation ends; the next `get_task` call is not covered
        assert acts[..attempts] == acts;
        SettleWithinUndecided(acts, MaxAttempts, TimeoutMessage(service));
        return WaitRun(Pending, attempts, delays);
      }
      var reply := replies[attempts];
      // the exception leaving the `try` body, if any
      var raised: Option<string> := None;
      match reply {
        case Failure(m) =>
          raised := Some(m);
        case Reply(state, error, artifacts) =>
          if state == Completed {
            var text := ReplyText(artifacts);
            if text.Some? {
              SettleWithinDecidedAt(acts, MaxAttempts, TimeoutMessage(service), attempts);
              return WaitRun(Done(text.value), attempts + 1, delays);
            }
            raised := Some(MalformedReplyMessage);
          } else if state == Failed {
            raised := Some(FailedMessage(service, error));
          } else if state == Canceled {
            raised := Some(CanceledMessage(service));
          }
      }
      assert acts[attempts] == if raised.Some? then Handle(raised.value) else Retry(PollDelay);
      if acts[attempts].Retry? {
        RetryExtends(acts, attempts);
      }
      if raised.None? {
        attempts := attempts + 1;
        delays := delays + [PollDelay];
      } else if IsServerError(raised.value) {
        attempts := attempts + 1;
        delays := delays + [ServerErrorDelay];
      } else {
        SettleWithinDecidedAt(acts, MaxAttempts, TimeoutMessage(service), attempts);
        return WaitRun(Raised(raised.value), attempts + 1, delays);
      }
    }
    SettleWithinTimesOut(acts, MaxAttempts, TimeoutMessage(service));
    return WaitRun(Raised(TimeoutMessage(service)), attempts, delays);
  }

  /** What a single outcome can make the loop do: return only the text of a
      "completed" reply; sleep 2 only after a running reply, else 5. */
  lemma PollStepCases(service: string, f: Fetch)
    ensures PollStep(service, f).Finish? ==>
              f.Reply? && f.state == Completed && ReplyText(f.artifacts) == Some(PollStep(service, f).text)
    ensures PollStep(service, f).Retry? ==>
              (PollStep(service, f).delay == PollDelay <==> StillRunning(f))
              && (PollStep(service, f).delay == PollDelay || PollStep(service, f).delay == ServerErrorDelay)
  {
  }

  /** The three ways a bounded wait ends: a deciding outcome at index k < 60,
      a timeout after 60 retries, or (observation exhausted) still pending. */
  lemma BoundedWaitShape(service: string, replies: seq<Fetch>) returns (k: nat)
    ensures k <= MaxAttempts && k <= |replies|
    ensures AllRetry(Actions(service, replies), k)
    ensures k < MaxAttempts && k < |replies| ==>
              !Actions(service, replies)[k].Retry?
              && BoundedWait(service, replies)
                 == WaitRun(Decide(Actions(service, replies)[k]), k + 1, Delays(Actions(service, replies)[..k]))
    ensures k == MaxAttempts ==>
              BoundedWait(service, replies)
              == WaitRun(Raised(TimeoutMessage(service)), MaxAttempts, Delays(Actions(service, replies)[..k]))
    ensures k < MaxAttempts && k == |replies| ==>
              BoundedWait(service, replies) == WaitRun(Pending, k, Delays(Actions(service, replies)))
  {
    k := SettleWithinShape(Actions(service, replies), MaxAttempts, TimeoutMessage(service));
  }

  /** Success is returned only for a "completed" reply, and the value is that
      reply's `artifacts[0].parts[0].text`. */
  lemma SuccessOnlyOnCompleted(service: string, replies: seq<Fetch>)
    ensures var r := BoundedWait(service, replies);
            r.outcome.Done? ==>
              && 0 < r.calls
              && replies[r.calls - 1].Reply?
              && replies[r.calls - 1].state == Completed
              && ReplyText(replies[r.calls - 1].artifacts) == Some(r.outcome.value)
  {
    var k := BoundedWaitShape(service, replies);
    if k < MaxAttempts && k < |replies| {
      PollStepCases(service, replies[k]);
    }
  }

  /** One shared counter: every sleep before the end is 2 seconds after a
      running reply and 5 seconds after a retried exception, and the loop
      sleeps once per call except possibly the last. */
  lemma SleepsFollowTheReplies(service: string, replies: seq<Fetch>)
    ensures var r := BoundedWait(service, replies);
            && |r.delays| <= r.calls <= |r.delays| + 1
            && forall j :: 0 <= j < |r.delays| ==>
                 (r.delays[j] == PollDelay <==> StillRunning(replies[j]))
                 && (r.delays[j] == PollDelay || r.delays[j] == ServerErrorDelay)
  {
    var k := BoundedWaitShape(service, replies);
    forall j | 0 <= j < k {
      PollStepCases(service, replies[j]);
    }
  }

  /** The timeout message quotes 60 * 2 = 120 seconds. */
  lemma TimeoutQuotes120Seconds(service: string)
    ensures TimeoutMessage(service) == service + " task timed out after 120 seconds"
  {
    DecimalStringOf120();
  }

  /** Polls and server errors draw on the same 60 attempts: any mix of 60
      running replies and server errors times out after exactly 60 calls. */
  lemma ServerErrorsShareTheBudget(service: string, replies: seq<Fetch>)
    requires |replies| >= MaxAttempts
    requires forall j :: 0 <= j < MaxAttempts ==>
               StillRunning(replies[j]) || (replies[j].Failure? && IsServerError(replies[j].message))
    ensures var r := BoundedWait(service, replies);
            && r.outcome == Raised(TimeoutMessage(service))
            && r.calls == MaxAttempts
            && |r.delays| == MaxAttempts
            && forall j :: 0 <= j < MaxAttempts ==>
                 r.delays[j] == (if replies[j].Failure? then ServerErrorDelay else PollDelay)
  {
    var acts := Actions(service, replies);
    forall j | 0 <= j < MaxAttempts
      ensures acts[j] == Retry(if replies[j].Failure? then ServerErrorDelay else PollDelay)
    {
    }
    SettleWithinTimesOut(acts, MaxAttempts, TimeoutMessage(service));
  }

  /** An exception that does not look like a server error escapes at once;
      the attempts before it are the only ones consumed. */
  lemma OtherErrorsEscapeAtOnce(service: string, replies: seq<Fetch>, k: nat)
    requires k < MaxAttempts && k < |replies|
    requires forall j :: 0 <= j < k ==> PollStep(service, replies[j]).Retry?
    requires replies[k].Failure? && !IsServerError(replies[k].message)
    ensures var r := BoundedWait(service, replies);
            r.outcome == Raised(replies[k].message) && r.calls == k + 1 && |r.delays| == k
  {
    var acts := Actions(service, replies);
    assert AllRetry(acts, k);
    SettleWithinDecidedAt(acts, MaxAttempts, TimeoutMessage(service), k);
  }

  /** The first "completed" reply after only retries is the result. */
  lemma FirstCompletedReplyWins(service: string, replies: seq<Fetch>, k: nat, text: string)
    requires k < MaxAttempts && k < |replies|
    requires forall j :: 0 <= j < k ==> PollStep(service, replies[j]).Retry?
    requires replies[k].Reply? && replies[k].state == Completed && ReplyText(replies[k].artifacts) == Some(text)
    ensures var r := BoundedWait(service, replies);
            r.outcome == Done(text) && r.calls == k + 1 && |r.delays| == k
  {
    var acts := Actions(service, replies);
    assert AllRetry(acts, k);
    SettleWithinDecidedAt(acts, MaxAttempts, TimeoutMessage(service), k);
  }

  /** A "failed" reply whose error text mentions a server error is raised
      inside the `try`, caught by the `except`, and polled again after 5
      seconds, counting one attempt. */
  lemma FailedReplyRetriedOnServerErrorText(service: string, error: string, artifacts: seq<Artifact>)
    requires IsServerError(error)
    ensures PollStep(service, Reply(Failed, Some(error), artifacts)) == Retry(ServerErrorDelay)
  {
    var prefix := service + " task failed: ";
    assert FailedMessage(service, Some(error)) == prefix + error;
    if Contains(error, "500") {
      ContainsInSuffix(prefix, error, "500");
    } else {
      ContainsInSuffix(prefix, error, "Internal Server Error");
    }
  }

  /** A message made of a prefix ending in ": " with neither a '5' nor an 'S',
      then a detail that is no server error, is no server error. */
  lemma NoServerErrorAfterPrefix(prefix: string, detail: string)
    requires |prefix| >= 2 && prefix[|prefix| - 2] == ':' && prefix[|prefix| - 1] == ' '
    requires '5' !in prefix && 'S' !in prefix
    requires !IsServerError(detail)
    ensures !IsServerError(prefix + detail)
  {
    MissingCharNotContained(prefix, "500", '5');
    MissingCharNotContained(prefix, "Internal Server Error", 'S');
    ColonSpaceNoStraddle(prefix, "500");
    ColonSpaceNoStraddle(prefix, "Internal Server Error");
    ContainsConcat(prefix, detail, "500");
    ContainsConcat(prefix, detail, "Internal Server Error");
  }

  /** For the two services the workflow names, the "failed" message's fixed
      part ends in ": " and holds neither a '5' nor an 'S'. */
  lemma FailedPrefixPlain(service: string)
    requires service == "Agno" || service == "LlamaIndex"
    ensures var prefix := service + " task failed: ";
            && |prefix| >= 2 && prefix[|prefix| - 2] == ':' && prefix[|prefix| - 1] == ' '
            && '5' !in prefix && 'S' !in prefix
  {
    var suffix := " task failed: ";
    assert '5' !in suffix && 'S' !in suffix;
    assert '5' !in service && 'S' !in service;
    var prefix := service + suffix;
    assert prefix[|prefix| - 2] == suffix[|suffix| - 2] && prefix[|prefix| - 1] == suffix[|suffix| - 1];
  }

  /** The placeholder for a missing error text is no server error. */
  lemma NoErrorDetailsPlain()
    ensures !IsServerError(NoErrorDetails)
  {
    PlainTextNoServerError(NoErrorDetails);
  }

  /** For the two services the workflow names, the "failed" message is no
      server error unless the reply's error text is one. */
  lemma FailedMessageNoServerError(service: string, error: Option<string>)
    requires service == "Agno" || service == "LlamaIndex"
    requires error.Some? ==> !IsServerError(error.value)
    ensures !IsServerError(FailedMessage(service, error))
  {
    var detail := if error.Some? then error.value else NoErrorDetails;
    assert FailedMessage(service, error) == service + " task failed: " + detail;
    FailedPrefixPlain(service);
    NoErrorDetailsPlain();
    NoServerErrorAfterPrefix(service + " task failed: ", detail);
  }

  /** For the two services the workflow names, a "failed" reply whose error
      text does not mention a server error escapes with the reply's error
      text, or "No error details available" when there is none. */
  lemma FailedReplyEscapes(service: string, error: Option<string>, artifacts: seq<Artifact>)
    requires service == "Agno" || service == "LlamaIndex"
    requires error.Some? ==> !IsServerError(error.value)
    ensures PollStep(service, Reply(Failed, error, artifacts))
            == Propagate(service + " task failed: " + (if error.Some? then error.value else "No error details available"))
  {
    FailedMessageNoServerError(service, error);
  }

  /** For the two services the workflow names, a "canceled" reply escapes
      with the cancellation message, whatever its error entry holds. */
  lemma CanceledReplyEscapes(service: string, error: Option<string>, artifacts: seq<Artifact>)
    requires service == "Agno" || service == "LlamaIndex"
    ensures PollStep(service, Reply(Canceled, error, artifacts)) == Propagate(service + " task was canceled")
  {
    var m := CanceledMessage(service);
    assert '5' !in m && 'S' !in m;
    PlainTextNoServerError(m);
  }

  /** The services of the four steps, in order. */
  const CollaborativeRoute: seq<Endpoint> := [LlamaIndexService, AgnoService, LlamaIndexService, AgnoService]

  /** The outcome of waiting for the k-th task the chain submits. */
  function StepOutcome(observe: seq<seq<Fetch>>, k: nat): Outcome<string>
    requires k < |CollaborativeRoute|
  {
    BoundedWait(ServiceName(CollaborativeRoute[k]), RepliesFor(observe, k)).outcome
  }

  /** The four waits by the names the workflow passes to them. */
  lemma StepOutcomesNamed(observe: seq<seq<Fetch>>)
    ensures StepOutcome(observe, 0) == BoundedWait("LlamaIndex", RepliesFor(observe, 0)).outcome
    ensures StepOutcome(observe, 1) == BoundedWait("Agno", RepliesFor(observe, 1)).outcome
    ensures StepOutcome(observe, 2) == BoundedWait("LlamaIndex", RepliesFor(observe, 2)).outcome
    ensures StepOutcome(observe, 3) == BoundedWait("Agno", RepliesFor(observe, 3)).outcome
  {
  }

  /** What the chain leaves behind: its outcome and the tasks it submitted. */
  datatype ChainRun = ChainRun(outcome: Outcome<string>, sent: seq<Submission>)

  /** The chain as a value, given the outcome each of its four waits would
      have: a step is submitted only after the previous one succeeded, and the
      run ends with the first step that does not. */
  function CollaborativeChain(initial: string, step: seq<Outcome<string>>): (r: ChainRun)
    requires |step| == |CollaborativeRoute|
    ensures 1 <= |r.sent| <= 4 && r.outcome == step[|r.sent| - 1]
    ensures forall k :: 0 <= k < |r.sent| ==> r.sent[k].endpoint == CollaborativeRoute[k]
    ensures forall k :: 0 <= k < |r.sent| - 1 ==> step[k].Done?
  {
    var s0 := [] + [Submission(LlamaIndexService, Prompt(CollabAnalysis, [initial]))];  // appended to an empty log
    if !step[0].Done? then ChainRun(step[0], s0)
    else
      var s1 := s0 + [Submission(AgnoService, Prompt(CollabSynthesis, [initial, step[0].value]))];
      if !step[1].Done? then ChainRun(step[1], s1)
      else
        var s2 := s1 + [Submission(LlamaIndexService, Prompt(CollabValidation, [initial, step[1].value]))];
        if !step[2].Done? then ChainRun(step[2], s2)
        else
          var s3 := s2 + [Submission(AgnoService, Prompt(CollabFinal, [initial, step[2].value, step[1].value]))];
          ChainRun(step[3], s3)
  }

  /** The chain written out for each step at which it ends, with the tasks
      appended to an empty log in the order they are sent. */
  lemma CollaborativeChainCases(initial: string, step: seq<Outcome<string>>)
    requires |step| == |CollaborativeRoute|
    ensures !step[0].Done? ==>
              CollaborativeChain(initial, step)
              == ChainRun(step[0], [] + [Submission(LlamaIndexService, Prompt(CollabAnalysis, [initial]))])
    ensures step[0].Done? && !step[1].Done? ==>
              CollaborativeChain(initial, step)
              == ChainRun(step[1], [] + [Submission(LlamaIndexService, Prompt(CollabAnalysis, [initial]))] + [Submission(AgnoService, Prompt(CollabSynthesis, [initial, step[0].value]))])
    ensures step[0].Done? && step[1].Done? && !step[2].Done? ==>
              CollaborativeChain(initial, step)
              == ChainRun(step[2], [] + [Submission(LlamaIndexService, Prompt(CollabAnalysis, [initial]))] + [Submission(AgnoService, Prompt(CollabSynthesis, [initial, step[0].value]))] + [Submission(LlamaIndexService, Prompt(CollabValidation, [initial, step[1].value]))])
    ensures step[0].Done? && step[1].Done? && step[2].Done? ==>
              CollaborativeChain(initial, step)
              == ChainRun(step[3], [] + [Submission(LlamaIndexService, Prompt(CollabAnalysis, [initial]))] + [Submission(AgnoService, Prompt(CollabSynthesis, [initial, step[0].value]))] + [Submission(LlamaIndexService, Prompt(CollabValidation, [initial, step[1].value]))] + [Submission(AgnoService, Prompt(CollabFinal, [initial, step[2].value, step[1].value]))])
  {
  }

  /** `orchestrate_collaborative_workflow`: analysis, synthesis, validation,
      final answer, each awaited before the next is sent. */
  method OrchestrateCollaborativeWorkflow(initial: string, observe: seq<seq<Fetch>>)
    returns (outcome: Outcome<string>, sent: seq<Submission>)
    ensures ChainRun(outcome, sent)
            == CollaborativeChain(initial, [StepOutcome(observe, 0), StepOutcome(observe, 1),
                                            StepOutcome(observe, 2), StepOutcome(observe, 3)])
  {
    ghost var step := [StepOutcome(observe, 0), StepOutcome(observe, 1), StepOutcome(observe, 2), StepOutcome(observe, 3)];
    CollaborativeChainCases(initial, step);
    StepOutcomesNamed(observe);
    sent := [];
    var id: nat;
    // Step 1: LlamaIndex analysis of the topic
    id, sent := SendTaskToService(sent, LlamaIndexService, Prompt(CollabAnalysis, [initial]));
    var llama := WaitForTaskCompletion(RepliesFor(observe, id), "LlamaIndex");
    assert id == 0 && llama.outcome == step[0];
    if !llama.outcome.Done? {
      return llama.outcome, sent;
    }
    // Step 2: Agno synthesis of the analysis
    id, sent := SendTaskToService(sent, AgnoService, Prompt(CollabSynthesis, [initial, llama.outcome.value]));
    var agno := WaitForTaskCompletion(RepliesFor(observe, id), "Agno");
    assert id == 1 && agno.outcome == step[1];
    if !agno.outcome.Done? {
      return agno.outcome, sent;
    }
    // Step 3: LlamaIndex validation of the synthesis
    id, sent := SendTaskToService(sent, LlamaIndexService, Prompt(CollabValidation, [initial, agno.outcome.value]));
    var validation := WaitForTaskCompletion(RepliesFor(observe, id), "LlamaIndex");
    assert id == 2 && validation.outcome == step[2];
    if !validation.outcome.Done? {
      return validation.outcome, sent;
    }
    // Step 4: Agno final answer from the feedback and the synthesis
    id, sent := SendTaskToService(sent, AgnoService,
                                  Prompt(CollabFinal, [initial, validation.outcome.value, agno.outcome.value]));
    var final := WaitForTaskCompletion(RepliesFor(observe, id), "Agno");
    assert id == 3 && final.outcome == step[3];
    return final.outcome, sent;
  }

  /** The chain stops at its first unsuccessful step: one task per step up to
      and including it, on the route's services, and its outcome is the run's;
      only a run of all four steps can succeed, and then with the fourth result. */
  lemma ChainStopsAtFirstFailure(initial: string, step: seq<Outcome<string>>)
    requires |step| == |CollaborativeRoute|
    ensures var c := CollaborativeChain(initial, step);
            && 1 <= |c.sent| <= |CollaborativeRoute|
            && (forall k :: 0 <= k < |c.sent| ==> c.sent[k].endpoint == CollaborativeRoute[k])
            && (forall k :: 0 <= k < |c.sent| - 1 ==> step[k].Done?)
            && c.outcome == step[|c.sent| - 1]
            && (c.outcome.Done? ==> |c.sent| == |CollaborativeRoute|)
  {
  }

  /** Each prompt embeds the topic and the results the source names: the
      analysis, then the synthesis, then the feedback and the synthesis. */
  lemma ChainPromptsEmbedEarlierResults(initial: string, step: seq<Outcome<string>>)
    requires |step| == |CollaborativeRoute|
    ensures var c := CollaborativeChain(initial, step);
            && c.sent[0].prompt == Prompt(CollabAnalysis, [initial])
            && (|c.sent| > 1 ==> c.sent[1].prompt == Prompt(CollabSynthesis, [initial, step[0].value]))
            && (|c.sent| > 2 ==> c.sent[2].prompt == Prompt(CollabValidation, [initial, step[1].value]))
            && (|c.sent| > 3 ==>
                  c.sent[3].prompt == Prompt(CollabFinal, [initial, step[2].value, step[1].value]))
  {
  }
}
