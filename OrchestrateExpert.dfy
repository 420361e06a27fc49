/**
 FastA2A-Agno-Llamaindex/orchestrate_expert.py: the `CollaborativeOrchestrator`
 class, whose `conversation_history` list grows by one entry per successful
 `send_task_and_wait`, and its five-phase expert consultation.

 The orchestrator's two clients are modelled by the log of tasks it submitted
 through them (`sent`, a field, since ids keep counting across consultations)
 and by the outcomes the `get_task` calls of each task id observe.
 */
module OrchestrateExpert {
  import opened Strings
  import opened Schema
  import opened Polling
  import opened Workflow

  const PollDelay: nat := 2
  const PromptLimit: nat := 100
  const ResponseLimit: nat := 200

  /** One `conversation_history` entry: the service name, the prompt cut to
      100 characters and the response cut to 200, each marked by "..." when cut. */
  datatype HistoryEntry = HistoryEntry(service: string, prompt: string, response: string)

  /** The entry `send_task_and_wait` appends for a prompt and its result. */
  function Entry(service: string, prompt: string, result: string): (e: HistoryEntry)
    ensures e.service == service
    ensures |e.prompt| <= PromptLimit + 3 && |e.response| <= ResponseLimit + 3
  {
    HistoryEntry(service, Truncate(prompt, PromptLimit), Truncate(result, ResponseLimit))
  }

  /** The conditional expressions of the entry: a text up to the limit is kept
      as it is, a longer one is cut to the limit and marked by "...". */
  lemma EntryTruncates(service: string, prompt: string, result: string)
    ensures var e := Entry(service, prompt, result);
            && e.service == service
            && (|prompt| <= PromptLimit ==> e.prompt == prompt)
            && (|prompt| > PromptLimit ==> e.prompt == prompt[..PromptLimit] + "...")
            && (|result| <= ResponseLimit ==> e.response == result)
            && (|result| > ResponseLimit ==> e.response == result[..ResponseLimit] + "...")
  {
    var e := Entry(service, prompt, result);
    if |prompt| > PromptLimit {
      assert e.prompt == prompt[..PromptLimit] + "..." by {
        assert e.prompt[..PromptLimit] == prompt[..PromptLimit] && e.prompt[PromptLimit..] == "...";
        assert e.prompt == e.prompt[..PromptLimit] + e.prompt[PromptLimit..];
      }
    }
    if |result| > ResponseLimit {
      assert e.response == result[..ResponseLimit] + "..." by {
        assert e.response[..ResponseLimit] == result[..ResponseLimit] && e.response[ResponseLimit..] == "...";
        assert e.response == e.response[..ResponseLimit] + e.response[ResponseLimit..];
      }
    }
  }

  /** What one iteration of the loop does with one `get_task` outcome: the
      "failed" and "canceled" exceptions name the state; nothing is caught. */
  function PollStep(service: string, f: Fetch): (a: PollAction)
    ensures a.Finish? ==> f.Reply? && f.state == Completed && ReplyText(f.artifacts).Some?
                          && a.text == ReplyText(f.artifacts).value
    ensures a.Retry? <==> StillRunning(f)
    ensures f.Failure? ==> a == Propagate(f.message)
  {
    match f
    case Failure(m) => Propagate(m)
    case Reply(state, _, artifacts) =>
      if state == Completed then
        match ReplyText(artifacts)
        case Some(t) => Finish(t)
        case None => Propagate(MalformedReplyMessage)
      else if state == Failed || state == Canceled then Propagate(service + " task " + StateName(state))
      else Retry(PollDelay)
  }

  function Actions(service: string, replies: seq<Fetch>): (acts: seq<PollAction>)
    ensures |acts| == |replies|
    ensures forall j :: 0 <= j < |replies| ==> acts[j] == PollStep(service, replies[j])
  {
    seq(|replies|, j requires 0 <= j < |replies| => PollStep(service, replies[j]))
  }

  /** The `while True` loop of `send_task_and_wait`, as a function of the
      outcomes its `get_task` calls observe. */
  function ExpertWait(service: string, replies: seq<Fetch>): (r: WaitRun)
    ensures r.calls <= |replies|
  {
    Settle(Actions(service, replies))
  }

  /** What a single outcome can make the loop do: return exactly the text of a
      "completed" reply, poll again after 2 seconds exactly on a running reply,
      raise "<service> task failed" or "<service> task canceled" on those
      states, and pass on `get_task`'s own exception. */
  lemma PollStepCases(service: string, f: Fetch)
    ensures PollStep(service, f).Finish? <==>
              f.Reply? && f.state == Completed && ReplyText(f.artifacts).Some?
    ensures PollStep(service, f).Finish? ==> PollStep(service, f).text == ReplyText(f.artifacts).value
    ensures PollStep(service, f).Retry? <==> StillRunning(f)
    ensures PollStep(service, f).Retry? ==> PollStep(service, f).delay == PollDelay
    ensures f.Failure? ==> PollStep(service, f) == Propagate(f.message)
    ensures f.Reply? && f.state == Failed ==> PollStep(service, f) == Propagate(service + " task failed")
    ensures f.Reply? && f.state == Canceled ==> PollStep(service, f) == Propagate(service + " task canceled")
  {
  }

  /** The wait stops at the first outcome that is not a running reply, with no
      attempt limit; while replies run it stays pending. */
  lemma ExpertWaitShape(service: string, replies: seq<Fetch>)
    ensures var r := ExpertWait(service, replies);
            && (r.outcome.Pending? <==> forall j :: 0 <= j < |replies| ==> StillRunning(replies[j]))
            && (r.outcome.Pending? ==> r.calls == |replies|)
            && (!r.outcome.Pending? ==> 0 < r.calls && forall j :: 0 <= j < r.calls - 1 ==> StillRunning(replies[j]))
            && (r.outcome.Done? ==> PollStep(service, replies[r.calls - 1]) == Finish(r.outcome.value))
            && (r.outcome.Raised? ==> PollStep(service, replies[r.calls - 1]) == Propagate(r.outcome.message))
  {
    var acts := Actions(service, replies);
    var k := 0;
    while k < |acts| && acts[k].Retry?
      invariant k <= |acts| && AllRetry(acts, k)
    {
      k := k + 1;
    }
    forall j | 0 <= j < |replies| {
      PollStepCases(service, replies[j]);
    }
    if k < |acts| {
      SettleDecidedAt(acts, k);
    } else {
      SettleUndecided(acts);
    }
  }

  /** The five phases: the service each is sent to and the name it is logged under. */
  const ExpertRoute: seq<Endpoint> := [LlamaIndexService, AgnoService, LlamaIndexService, AgnoService, LlamaIndexService]
  const ExpertNames: seq<string> :=
    ["LlamaIndex-Research", "Agno-Strategy", "LlamaIndex-Review", "Agno-Final", "LlamaIndex-Validation"]

  /** The five results of a consultation. */
  datatype Answers = Answers(finalAnswer: string, research: string, strategy: string,
                             feedback: string, validation: string)

  /** The dictionary `expert_consultation_workflow` returns: the five results
      and the orchestrator's whole `conversation_history`. */
  datatype Consultation = Consultation(answers: Answers, history: seq<HistoryEntry>)

  /** What one consultation does, apart from the history already there: its
      outcome, the tasks it submitted and the entries it appended. */
  datatype ExpertRun = ExpertRun(outcome: Outcome<Answers>, sent: seq<Submission>, entries: seq<HistoryEntry>)

  /** The prompt of phase k, given the results of the phases before it: the
      question, then the earlier results the phase's f-string embeds, in order. */
  function PhasePrompt(k: nat, question: string, results: seq<string>): (p: Prompt)
    requires k < 5 && |results| == k
    ensures |p.embeds| == (if k == 4 then 2 else k + 1) && p.embeds[0] == question
  {
    if k == 0 then Prompt(ExpertResearch, [question])
    else if k == 1 then Prompt(ExpertStrategy, [question, results[0]])
    else if k == 2 then Prompt(ExpertReview, [question, results[1], results[0]])
    else if k == 3 then Prompt(ExpertFinal, [question, results[0], results[1], results[2]])
    else Prompt(ExpertCheck, [question, results[3]])
  }

  /** The first phase from k on whose wait did not return a value, or 5 when
      all of them did. */
  function FirstUnreturned(step: seq<Outcome<string>>, k: nat): (n: nat)
    requires |step| == 5 && k <= 5
    ensures k <= n <= 5
    ensures forall j :: k <= j < n ==> step[j].Done?
    ensures n < 5 ==> !step[n].Done?
    decreases 5 - k
  {
    if k == 5 || !step[k].Done? then k else FirstUnreturned(step, k + 1)
  }

  /** The results of the first n phases, which all returned. */
  function Results(step: seq<Outcome<string>>, n: nat): (v: seq<string>)
    requires n <= |step| && forall j :: 0 <= j < n ==> step[j].Done?
    ensures |v| == n && forall j :: 0 <= j < n ==> v[j] == step[j].value
  {
    seq(n, j requires 0 <= j < n => step[j].value)
  }

  /** The task of phase k, given (at least) the results of the phases before it. */
  function PhaseTask(k: nat, question: string, results: seq<string>): Submission
    requires k < 5 && k <= |results|
  {
    Submission(ExpertRoute[k], PhasePrompt(k, question, results[..k]))
  }

  /** The history entry of phase k, which returned `results[k]`. */
  function PhaseEntry(k: nat, question: string, results: seq<string>): HistoryEntry
    requires k < 5 && k < |results|
  {
    Entry(ExpertNames[k], Render(PhasePrompt(k, question, results[..k])), results[k])
  }

  /** The consultation as a value, given the outcomes of its five waits: the
      phases up to the first that does not return are sent, each returned one
      logs its entry, and the run ends with the five results or with what the
      first phase that did not return raised. */
  function ExpertChain(question: string, step: seq<Outcome<string>>): (r: ExpertRun)
    requires |step| == 5
    ensures 1 <= |r.sent| <= 5
    ensures |r.sent| == |r.entries| + (if r.outcome.Done? then 0 else 1)
    ensures r.outcome.Done? ==> |r.entries| == 5
  {
    var n := FirstUnreturned(step, 0);
    var results := Results(step, n);
    var count := if n == 5 then 5 else n + 1;
    ExpertRun(
      if n == 5 then Done(Answers(results[3], results[0], results[1], results[2], results[4])) else Relay(step[n]),
      seq(count, j requires 0 <= j < count => PhaseTask(j, question, results)),
      seq(n, j requires 0 <= j < n => PhaseEntry(j, question, results)))
  }

  /** The outcomes of the five waits of a consultation whose first task id is `base`. */
  function ExpertObserved(observe: seq<seq<Fetch>>, base: nat): (step: seq<Outcome<string>>)
    ensures |step| == 5
    ensures forall k :: 0 <= k < 5 ==> step[k] == ExpertWait(ExpertNames[k], RepliesFor(observe, base + k)).outcome
  {
    seq(5, k requires 0 <= k < 5 => ExpertWait(ExpertNames[k], RepliesFor(observe, base + k)).outcome)
  }

  /** How a consultation's own outcome becomes the method's result. */
  function Returned(o: Outcome<Answers>, history: seq<HistoryEntry>): (r: Outcome<Consultation>)
    ensures r.Done? <==> o.Done?
    ensures o.Done? ==> r.value == Consultation(o.value, history)
    ensures o.Raised? ==> r == Raised(o.message)
  {
    match o
    case Done(a) => Done(Consultation(a, history))
    case Raised(m) => Raised(m)
    case Pending => Pending
  }

  /** The `while True` loop of `send_task_and_wait` on the outcomes of one
      task's `get_task` calls; the caller logs the entry of a returned result. */
  method AwaitTask(serviceName: string, replies: seq<Fetch>) returns (run: WaitRun)
    ensures run == ExpertWait(serviceName, replies)
  {
    ghost var acts := Actions(serviceName, replies);
    var i := 0;
    var delays: seq<nat> := [];
    while i < |replies|
      invariant i <= |replies| && AllRetry(acts, i)
      invariant delays == Delays(acts[..i])
    {
      match replies[i] {
        case Failure(m) =>
          SettleDecidedAt(acts, i);
          return WaitRun(Raised(m), i + 1, delays);
        case Reply(state, _, artifacts) =>
          if state == Completed {
            SettleDecidedAt(acts, i);
            var result := ReplyText(artifacts);
            if result.None? {
              return WaitRun(Raised(MalformedReplyMessage), i + 1, delays);
            }
            return WaitRun(Done(result.value), i + 1, delays);
          } else if state == Failed || state == Canceled {
            SettleDecidedAt(acts, i);
            return WaitRun(Raised(serviceName + " task " + StateName(state)), i + 1, delays);
          }
      }
      delays := delays + [PollDelay];
      i := i + 1;
      assert acts[..i] == acts[..i - 1] + [acts[i - 1]];
    }
    // the observation ends; the next `get_task` call is not covered
    assert acts[..i] == acts;
    SettleUndecided(acts);
    return WaitRun(Pending, i, delays);
  }

  class CollaborativeOrchestrator {
    /** `self.conversation_history`. */
    var conversationHistory: seq<HistoryEntry>
    /** The tasks submitted through the two clients, in order; a task's id is
        its position. */
    var sent: seq<Submission>

    /** `__init__`: an empty history and, as yet, no task. */
    constructor()
      ensures conversationHistory == [] && sent == []
    {
      conversationHistory := [];
      sent := [];
    }

    /** `send_task_and_wait`: submit the prompt, poll its task until it is not
        running, and on success log one truncated entry and return the full
        result. A failure leaves the history as it was. */
    method SendTaskAndWait(endpoint: Endpoint, prompt: Prompt, serviceName: string, observe: seq<seq<Fetch>>)
      returns (outcome: Outcome<string>)
      modifies this
      ensures sent == old(sent) + [Submission(endpoint, prompt)]
      ensures outcome == ExpertWait(serviceName, RepliesFor(observe, |old(sent)|)).outcome
      ensures conversationHistory
              == old(conversationHistory)
                 + (if outcome.Done? then [Entry(serviceName, Render(prompt), outcome.value)] else [])
    {
      var taskId;
      taskId, sent := SendTaskToService(sent, endpoint, prompt);
      var run := AwaitTask(serviceName, RepliesFor(observe, taskId));
      outcome := run.outcome;
      if outcome.Done? {
        conversationHistory := conversationHistory + [Entry(serviceName, Render(prompt), outcome.value)];
      }
    }

    /** Phases k to 4 of `expert_consultation_workflow`, given the results of
        the phases before k: each phase sends its prompt and awaits the result
        before the next one is sent, and the first that does not return ends
        the consultation with what it raised. */
    method ConsultFrom(k: nat, question: string, results: seq<string>, observe: seq<seq<Fetch>>, ghost base: nat)
      returns (outcome: Outcome<Answers>)
      requires k <= 5 && |results| == k && |sent| == base + k
      modifies this
      ensures var r := ExpertFrom(question, ExpertObserved(observe, base), k, results);
              && sent == old(sent) + r.sent
              && conversationHistory == old(conversationHistory) + r.entries
              && outcome == r.outcome
      decreases 5 - k
    {
      ghost var step := ExpertObserved(observe, base);
      if k == 5 {
        return Done(Answers(results[3], results[0], results[1], results[2], results[4]));
      }
      var p := PhasePrompt(k, question, results);
      assert step[k] == ExpertWait(ExpertNames[k], RepliesFor(observe, |sent|)).outcome;
      var result := SendTaskAndWait(ExpertRoute[k], p, ExpertNames[k], observe);
      ExpertFromPhase(question, step, k, results);
      if !result.Done? {
        return Relay(result);
      }
      ghost var rest := ExpertFrom(question, step, k + 1, results + [result.value]);
      outcome := ConsultFrom(k + 1, question, results + [result.value], observe, base);
      AppendAssociates(old(sent), [Submission(ExpertRoute[k], p)], rest.sent);
      AppendAssociates(old(conversationHistory), [Entry(ExpertNames[k], Render(p), result.value)], rest.entries);
    }

    /** `expert_consultation_workflow`: research, strategy, review, final
        explanation, fact check, each awaited before the next is sent, and the
        five results with the whole history. */
    method ExpertConsultationWorkflow(question: string, observe: seq<seq<Fetch>>)
      returns (outcome: Outcome<Consultation>)
      modifies this
      ensures var r := ExpertChain(question, ExpertObserved(observe, |old(sent)|));
              && sent == old(sent) + r.sent
              && conversationHistory == old(conversationHistory) + r.entries
              && outcome == Returned(r.outcome, conversationHistory)
    {
      var answers := ConsultFrom(0, question, [], observe, |sent|);
      ExpertFromIsChain(question, ExpertObserved(observe, |old(sent)|), 0);
      outcome := match answers
        case Done(a) => Done(Consultation(a, conversationHistory))
        case Raised(m) => Raised(m)
        case Pending => Pending;
    }
  }

  /** Phase k of a consultation that reaches it sends its prompt, built from
      the results of the phases before it, to the phase's service. */
  lemma ChainPhaseSends(question: string, step: seq<Outcome<string>>, k: nat)
    requires |step| == 5 && k < 5 && k <= FirstUnreturned(step, 0)
    ensures var r := ExpertChain(question, step);
            && k < |r.sent|
            && r.sent[k..] == [Submission(ExpertRoute[k], PhasePrompt(k, question, Results(step, k)))] + r.sent[k + 1..]
  {
    var r := ExpertChain(question, step);
    var n := FirstUnreturned(step, 0);
    assert Results(step, n)[..k] == Results(step, k);
    assert r.sent[k] == PhaseTask(k, question, Results(step, n));
    SliceSplit(r.sent, k);
  }

  /** A phase that returns logs its entry and hands its result on to the next
      phase. */
  lemma ChainPhaseReturns(question: string, step: seq<Outcome<string>>, k: nat)
    requires |step| == 5 && k < 5 && k <= FirstUnreturned(step, 0) && step[k].Done?
    ensures var r := ExpertChain(question, step);
            var p := PhasePrompt(k, question, Results(step, k));
            && k + 1 <= FirstUnreturned(step, 0)
            && Results(step, k + 1) == Results(step, k) + [step[k].value]
            && k < |r.entries|
            && r.entries[k..] == [Entry(ExpertNames[k], Render(p), step[k].value)] + r.entries[k + 1..]
  {
    var r := ExpertChain(question, step);
    var n := FirstUnreturned(step, 0);
    ResultsExtend(step, k);
    ResultsPrefix(step, n, k);
    assert r.entries[k] == PhaseEntry(k, question, Results(step, n));
    SliceSplit(r.entries, k);
  }

  /** The results of k + 1 phases are those of k phases and one more. */
  lemma ResultsExtend(step: seq<Outcome<string>>, k: nat)
    requires k < |step| && forall j :: 0 <= j <= k ==> step[j].Done?
    ensures Results(step, k + 1) == Results(step, k) + [step[k].value]
  {
  }

  /** The results of k phases are the first k of the results of more phases. */
  lemma ResultsPrefix(step: seq<Outcome<string>>, n: nat, k: nat)
    requires k <= n <= |step| && forall j :: 0 <= j < n ==> step[j].Done?
    ensures Results(step, n)[..k] == Results(step, k)
  {
  }

  /** A phase that does not return ends the consultation with what it raised,
      after its own task and with nothing more logged. */
  lemma ChainPhaseStops(question: string, step: seq<Outcome<string>>, k: nat)
    requires |step| == 5 && k < 5 && k <= FirstUnreturned(step, 0) && !step[k].Done?
    ensures var r := ExpertChain(question, step);
            && |r.sent| == k + 1 && |r.entries| == k
            && r.outcome == Relay(step[k])
  {
  }

  /** A consultation in which all five phases returned: nothing after them,
      and the answers drawn from the five results. */
  lemma ChainEnd(question: string, step: seq<Outcome<string>>)
    requires |step| == 5 && FirstUnreturned(step, 0) == 5
    ensures var r := ExpertChain(question, step);
            var v := Results(step, 5);
            && r.sent[5..] == [] && r.entries[5..] == []
            && r.outcome == Done(Answers(v[3], v[0], v[1], v[2], v[4]))
  {
  }

  /** The consultation from phase k on, given the outcomes of the five waits
      and the results of the phases before k, one phase at a time: each
      returned phase adds its task and its entry, and the first phase that
      does not return ends the run. */
  function ExpertFrom(question: string, step: seq<Outcome<string>>, k: nat, results: seq<string>): (r: ExpertRun)
    requires |step| == 5 && k <= 5 && |results| == k
    ensures |r.sent| <= 5 - k
    ensures |r.sent| == |r.entries| + (if r.outcome.Done? then 0 else 1)
    ensures r.outcome.Done? ==> |r.entries| == 5 - k
    decreases 5 - k
  {
    if k == 5 then
      ExpertRun(Done(Answers(results[3], results[0], results[1], results[2], results[4])), [], [])
    else
      var p := PhasePrompt(k, question, results);
      var task := Submission(ExpertRoute[k], p);
      if !step[k].Done? then ExpertRun(Relay(step[k]), [task], [])
      else
        var rest := ExpertFrom(question, step, k + 1, results + [step[k].value]);
        ExpertRun(rest.outcome, [task] + rest.sent, [Entry(ExpertNames[k], Render(p), step[k].value)] + rest.entries)
  }

  /** One phase of the recursion: a phase that returns is followed by the
      rest, and one that does not ends the run. */
  lemma ExpertFromPhase(question: string, step: seq<Outcome<string>>, k: nat, results: seq<string>)
    requires |step| == 5 && k < 5 && |results| == k
    ensures var r := ExpertFrom(question, step, k, results);
            var p := PhasePrompt(k, question, results);
            && (!step[k].Done? ==> r == ExpertRun(Relay(step[k]), [Submission(ExpertRoute[k], p)], []))
            && (step[k].Done? ==>
                  var rest := ExpertFrom(question, step, k + 1, results + [step[k].value]);
                  r == ExpertRun(rest.outcome, [Submission(ExpertRoute[k], p)] + rest.sent,
                                 [Entry(ExpertNames[k], Render(p), step[k].value)] + rest.entries))
  {
  }

  /** Run phase by phase from any phase the consultation reaches, it does what
      the closed form says is left of it from there on. */
  lemma {:induction false} ExpertFromIsChain(question: string, step: seq<Outcome<string>>, k: nat)
    requires |step| == 5 && k <= FirstUnreturned(step, 0)
    ensures var r := ExpertChain(question, step);
            && k <= |r.sent| && k <= |r.entries|
            && ExpertFrom(question, step, k, Results(step, k)) == ExpertRun(r.outcome, r.sent[k..], r.entries[k..])
    decreases 5 - k
  {
    if k == 5 {
      ChainEnd(question, step);
    } else {
      ChainPhaseSends(question, step, k);
      if step[k].Done? {
        ChainPhaseReturns(question, step, k);
        ExpertFromIsChain(question, step, k + 1);
      } else {
        ChainPhaseStops(question, step, k);
      }
    }
  }

  /** Appending is associative. */
  lemma AppendAssociates<T>(a: seq<T>, b: seq<T>, c: seq<T>)
    ensures (a + b) + c == a + (b + c)
  {
  }

  /** A sequence from k on is its element at k followed by the rest. */
  lemma SliceSplit<T>(s: seq<T>, k: nat)
    requires k < |s|
    ensures s[k..] == [s[k]] + s[k + 1..]
  {
  }

  /** The consultation stops at its first phase that does not return: one task
      per phase up to it, on the route's services, one entry per returned
      phase under the phase's name, and five of each when all return. */
  lemma ExpertChainStops(question: string, step: seq<Outcome<string>>)
    requires |step| == 5
    ensures var r := ExpertChain(question, step);
            && 1 <= |r.sent| <= 5
            && (forall k :: 0 <= k < |r.sent| ==> r.sent[k].endpoint == ExpertRoute[k])
            && (forall k :: 0 <= k < |r.sent| - 1 ==> step[k].Done?)
            && (r.outcome.Done? <==> forall k :: 0 <= k < 5 ==> step[k].Done?)
            && |r.entries| == (if r.outcome.Done? then |r.sent| else |r.sent| - 1)
            && (!r.outcome.Done? ==> !step[|r.sent| - 1].Done?)
            && (forall k :: 0 <= k < |r.entries| ==> r.entries[k].service == ExpertNames[k])
            && (r.outcome.Done? ==> |r.sent| == 5 && |r.entries| == 5)
  {
  }

  /** Which earlier results each phase's prompt embeds, in order: the
      strategy before the research in phase 3; research, strategy, feedback
      in phase 4; the phase-4 explanation in phase 5. */
  lemma ExpertPromptsEmbedEarlierResults(question: string, step: seq<Outcome<string>>)
    requires |step| == 5
    ensures var r := ExpertChain(question, step);
            && r.sent[0].prompt == Prompt(ExpertResearch, [question])
            && (|r.sent| > 1 ==> r.sent[1].prompt == Prompt(ExpertStrategy, [question, step[0].value]))
            && (|r.sent| > 2 ==> r.sent[2].prompt == Prompt(ExpertReview, [question, step[1].value, step[0].value]))
            && (|r.sent| > 3 ==>
                  r.sent[3].prompt == Prompt(ExpertFinal, [question, step[0].value, step[1].value, step[2].value]))
            && (|r.sent| > 4 ==> r.sent[4].prompt == Prompt(ExpertCheck, [question, step[3].value]))
  {
  }

  /** Each returned phase logs one entry: under the phase's name, the rendered
      prompt its task carried and the phase's full result, both truncated. */
  lemma ExpertEntriesLogPhases(question: string, step: seq<Outcome<string>>)
    requires |step| == 5
    ensures var r := ExpertChain(question, step);
            && |r.entries| <= |r.sent|
            && forall k :: 0 <= k < |r.entries| ==>
                 step[k].Done? && r.entries[k] == Entry(ExpertNames[k], Render(r.sent[k].prompt), step[k].value)
  {
  }

  /** The returned `final_answer` is the phase-4 explanation, not the fact
      check, and the other fields are the results of their phases. */
  lemma ExpertFinalAnswerIsPhaseFour(question: string, step: seq<Outcome<string>>)
    requires |step| == 5
    ensures var r := ExpertChain(question, step);
            r.outcome.Done? ==>
              r.outcome.value == Answers(step[3].value, step[0].value, step[1].value, step[2].value, step[4].value)
  {
  }

  /** Every logged prompt and response is at most 3 characters longer than its
      limit and starts with as much of the original as fits. */
  lemma EntryKeepsPrefixes(service: string, prompt: string, result: string)
    ensures var e := Entry(service, prompt, result);
            && |e.prompt| <= 103 && |e.response| <= 203
            && (var n := if |prompt| <= PromptLimit then |prompt| else PromptLimit;
                n <= |e.prompt| && e.prompt[..n] == prompt[..n])
            && (var n := if |result| <= ResponseLimit then |result| else ResponseLimit;
                n <= |e.response| && e.response[..n] == result[..n])
  {
    TruncateKeepsPrefix(prompt, PromptLimit);
    TruncateKeepsPrefix(result, ResponseLimit);
  }

  /** The history is never reset: two consultations by one orchestrator that
      both succeed leave ten entries, the first consultation's five first, and
      the second result carries all ten. */
  method ConsultTwice(first: string, second: string, observe: seq<seq<Fetch>>)
    returns (o: CollaborativeOrchestrator, r1: Outcome<Consultation>, r2: Outcome<Consultation>)
    ensures fresh(o)
    ensures r1.Done? && r2.Done? ==>
              && |o.conversationHistory| == 10
              && o.conversationHistory[..5] == ExpertChain(first, ExpertObserved(observe, 0)).entries
              && o.conversationHistory[5..] == ExpertChain(second, ExpertObserved(observe, 5)).entries
              && r2.value.history == o.conversationHistory
  {
    o := new CollaborativeOrchestrator();
    r1 := o.ExpertConsultationWorkflow(first, observe);
    ghost var afterFirst := o.conversationHistory;
    r2 := o.ExpertConsultationWorkflow(second, observe);
    if r1.Done? && r2.Done? {
      ExpertChainStops(first, ExpertObserved(observe, 0));
      ExpertChainStops(second, ExpertObserved(observe, 5));
      assert o.conversationHistory[..5] == afterFirst;
      assert o.conversationHistory[5..] == o.conversationHistory[|afterFirst|..];
    }
  }
}
