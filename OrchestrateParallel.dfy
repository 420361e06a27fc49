/**
 FastA2A-Agno-Llamaindex/orchestrate_parallel.py: the unbounded waiter, the
 fan-out/fan-in workflow with an Agno synthesis, and the two-round debate.

 A task group (`anyio.create_task_group` with two `start_soon` members) is
 modelled as running both members to their end, one after the other; the
 order in which the members finish, which decides the order of the entries
 appended to the shared results list, is a parameter. A group whose members
 do not both return ends the workflow.
 */
module OrchestrateParallel {
  import opened Schema
  import opened Polling
  import opened Workflow

  const PollDelay: nat := 2

  function FailedMessage(service: string): (m: string)
    ensures |m| == |service| + 12 && m[..|service|] == service
  {
    service + " task failed"
  }

  function CanceledMessage(service: string): (m: string)
    ensures |m| == |service| + 18 && m[..|service|] == service
  {
    service + " task was canceled"
  }

  /** What one iteration of the loop does with one `get_task` outcome. Nothing
      is caught: an exception from `get_task` leaves the loop as it is. */
  function PollStep(service: string, f: Fetch): (a: PollAction)
    ensures a.Finish? ==> f.Reply? && f.state == Completed && ReplyText(f.artifacts).Some?
                          && a.text == ReplyText(f.artifacts).value
    ensures a.Retry? <==> StillRunning(f)
    ensures f.Failure? ==> a == Propagate(f.message)
  {
    match f
    case Failure(m) => Propagate(m)
    case Reply(state, _, artifacts) =>
      if state == Completed then
        match ReplyText(artifacts)
        case Some(t) => Finish(t)
        case None => Propagate(MalformedReplyMessage)
      else if state == Failed then Propagate(FailedMessage(service))
      else if state == Canceled then Propagate(CanceledMessage(service))
      else Retry(PollDelay)
  }

  function Actions(service: string, replies: seq<Fetch>): (acts: seq<PollAction>)
    ensures |acts| == |replies|
    ensures forall j :: 0 <= j < |replies| ==> acts[j] == PollStep(service, replies[j])
  {
    seq(|replies|, j requires 0 <= j < |replies| => PollStep(service, replies[j]))
  }

  /** `wait_for_task_completion` of orchestrate_parallel.py, as a function of
      the outcomes its `get_task` calls observe. */
  function UnboundedWait(service: string, replies: seq<Fetch>): (r: WaitRun)
    ensures r.calls <= |replies|
  {
    Settle(Actions(service, replies))
  }

  /** The polling loop itself: `while True`, one `get_task` per iteration. */
  method WaitForTaskCompletion(replies: seq<Fetch>, service: string) returns (run: WaitRun)
    ensures run == UnboundedWait(service, replies)
  {
    ghost var acts := Actions(service, replies);
    var i := 0;
    var delays: seq<nat> := [];
    while i < |replies|
      invariant i <= |replies|
      invariant AllRetry(acts, i)
      invariant delays == Delays(acts[..i])
    {
      match replies[i] {
        case Failure(m) =>
          SettleDecidedAt(acts, i);
          return WaitRun(Raised(m), i + 1, delays);
        case Reply(state, _, artifacts) =>
          if state == Completed {
            var text := ReplyText(artifacts);
            SettleDecidedAt(acts, i);
            if text.Some? {
              return WaitRun(Done(text.value), i + 1, delays);
            }
            return WaitRun(Raised(MalformedReplyMessage), i + 1, delays);
          } else if state == Failed {
            SettleDecidedAt(acts, i);
            return WaitRun(Raised(FailedMessage(service)), i + 1, delays);
          } else if state == Canceled {
            SettleDecidedAt(acts, i);
            return WaitRun(Raised(CanceledMessage(service)), i + 1, delays);
          }
      }
      delays := delays + [PollDelay];
      i := i + 1;
      assert acts[..i] == acts[..i - 1] + [acts[i - 1]];
    }
    // the observation ends; the next `get_task` call is not covered
    assert acts[..i] == acts;
    SettleUndecided(acts);
    return WaitRun(Pending, i, delays);
  }

  /** What a single outcome can make the loop do: return exactly the text of a
      "completed" reply, poll again exactly on a running reply, and otherwise
      raise at once, with `get_task`'s own exception passed through. */
  lemma PollStepCases(service: string, f: Fetch)
    ensures PollStep(service, f).Finish? <==>
              f.Reply? && f.state == Completed && ReplyText(f.artifacts).Some?
    ensures PollStep(service, f).Finish? ==> PollStep(service, f).text == ReplyText(f.artifacts).value
    ensures PollStep(service, f).Retry? <==> StillRunning(f)
    ensures PollStep(service, f).Retry? ==> PollStep(service, f).delay == PollDelay
    ensures f.Failure? ==> PollStep(service, f) == Propagate(f.message)
    ensures f.Reply? && f.state == Failed ==> PollStep(service, f) == Propagate(service + " task failed")
    ensures f.Reply? && f.state == Canceled ==> PollStep(service, f) == Propagate(service + " task was canceled")
  {
  }

  /** The whole unbounded wait: it sleeps 2 seconds after each running reply,
      stops at the first reply that is not running (or the first exception of
      `get_task`), and stays pending, with no attempt limit, while replies run. */
  lemma UnboundedWaitShape(service: string, replies: seq<Fetch>)
    ensures var r := UnboundedWait(service, replies);
            && (r.outcome.Pending? <==> forall j :: 0 <= j < |replies| ==> StillRunning(replies[j]))
            && (r.outcome.Pending? ==> r.calls == |replies|)
            && (!r.outcome.Pending? ==> 0 < r.calls == |r.delays| + 1)
            && (r.outcome.Pending? ==> |r.delays| == r.calls)
            && (forall j :: 0 <= j < |r.delays| ==> StillRunning(replies[j]) && r.delays[j] == PollDelay)
            && (r.outcome.Done? ==> PollStep(service, replies[r.calls - 1]) == Finish(r.outcome.value))
            && (r.outcome.Raised? ==> PollStep(service, replies[r.calls - 1]) == Propagate(r.outcome.message))
  {
    var acts := Actions(service, replies);
    var k := 0;
    while k < |acts| && acts[k].Retry?
      invariant k <= |acts| && AllRetry(acts, k)
    {
      k := k + 1;
    }
    forall j | 0 <= j < |replies| {
      PollStepCases(service, replies[j]);
    }
    if k < |acts| {
      SettleDecidedAt(acts, k);
    } else {
      SettleUndecided(acts);
    }
  }

  /** The first "completed" reply after running ones is the result. */
  lemma FirstCompletedReplyWins(service: string, replies: seq<Fetch>, k: nat, text: string)
    requires k < |replies| && forall j :: 0 <= j < k ==> StillRunning(replies[j])
    requires replies[k].Reply? && replies[k].state == Completed && ReplyText(replies[k].artifacts) == Some(text)
    ensures var r := UnboundedWait(service, replies);
            r.outcome == Done(text) && r.calls == k + 1
  {
    var acts := Actions(service, replies);
    forall j | 0 <= j < k ensures acts[j].Retry? {
      PollStepCases(service, replies[j]);
    }
    SettleDecidedAt(acts, k);
  }

  /** An exception of `get_task` leaves the wait on its first occurrence, even
      one that mentions a server error. */
  lemma GetTaskErrorsPropagate(service: string, replies: seq<Fetch>, k: nat)
    requires k < |replies| && forall j :: 0 <= j < k ==> StillRunning(replies[j])
    requires replies[k].Failure?
    ensures var r := UnboundedWait(service, replies);
            r.outcome == Raised(replies[k].message) && r.calls == k + 1
  {
    var acts := Actions(service, replies);
    forall j | 0 <= j < k ensures acts[j].Retry? {
      PollStepCases(service, replies[j]);
    }
    SettleDecidedAt(acts, k);
  }

  // ---------------------------------------------------------------------
  // Fan-in: the tagged results list and its extraction loop

  /** One entry `(service, result)` of a results list. */
  datatype Tagged = Tagged(tag: string, result: string)

  /** The value of the last entry carrying `tag`, or None when there is none. */
  function LastTagged(results: seq<Tagged>, tag: string): Option<string>
    decreases |results|
  {
    if results == [] then None
    else if results[|results| - 1].tag == tag then Some(results[|results| - 1].result)
    else LastTagged(results[..|results| - 1], tag)
  }

  /** There is no entry with `tag` exactly when the extraction finds none, and
      what it finds is the value of an entry with `tag` that no later entry
      with `tag` follows. */
  lemma {:induction false} LastTaggedIsLast(results: seq<Tagged>, tag: string)
    ensures var r := LastTagged(results, tag);
            && (r.None? <==> forall j :: 0 <= j < |results| ==> results[j].tag != tag)
            && (r.Some? ==> exists k :: 0 <= k < |results| && results[k] == Tagged(tag, r.value)
                                        && forall j :: k < j < |results| ==> results[j].tag != tag)
    decreases |results|
  {
    if results != [] && results[|results| - 1].tag != tag {
      var init := results[..|results| - 1];
      LastTaggedIsLast(init, tag);
      assert forall j :: 0 <= j < |init| ==> init[j] == results[j];
      var rest := LastTagged(init, tag);
      if rest.Some? {
        var k :| 0 <= k < |init| && init[k] == Tagged(tag, rest.value)
                 && forall j :: k < j < |init| ==> init[j].tag != tag;
        assert results[k] == Tagged(tag, rest.value);
      }
    }
  }

  /** The `for service, result in results` loop: each entry overwrites the
      variable of its tag; entries with other tags are skipped. */
  method ExtractResults(results: seq<Tagged>) returns (agno: Option<string>, llama: Option<string>)
    ensures agno == LastTagged(results, "agno")
    ensures llama == LastTagged(results, "llama")
  {
    agno := None;
    llama := None;
    for i := 0 to |results|
      invariant agno == LastTagged(results[..i], "agno")
      invariant llama == LastTagged(results[..i], "llama")
    {
      assert results[..i + 1][..i] == results[..i];
      if results[i].tag == "agno" {
        agno := Some(results[i].result);
      } else if results[i].tag == "llama" {
        llama := Some(results[i].result);
      }
    }
    assert results[..|results|] == results;
  }

  /** Where a tag occurs at most once, the extracted value does not depend on
      the order of the entries: any permutation extracts the same. */
  lemma ExtractionIgnoresOrder(xs: seq<Tagged>, ys: seq<Tagged>, tag: string)
    requires multiset(xs) == multiset(ys)
    requires forall i, j :: 0 <= i < j < |xs| && xs[i].tag == tag ==> xs[j].tag != tag
    ensures LastTagged(xs, tag) == LastTagged(ys, tag)
  {
    var rx := LastTagged(xs, tag);
    var ry := LastTagged(ys, tag);
    LastTaggedIsLast(xs, tag);
    LastTaggedIsLast(ys, tag);
    if ry.Some? {
      var k :| 0 <= k < |ys| && ys[k] == Tagged(tag, ry.value)
               && forall j :: k < j < |ys| ==> ys[j].tag != tag;
      assert ys[k] in multiset(ys);
      assert ys[k] in multiset(xs);
      var i :| 0 <= i < |xs| && xs[i] == ys[k];
      assert rx.Some?;
      var m :| 0 <= m < |xs| && xs[m] == Tagged(tag, rx.value)
               && forall j :: m < j < |xs| ==> xs[j].tag != tag;
      assert i == m;
    } else {
      forall j | 0 <= j < |xs| ensures xs[j].tag != tag {
        assert xs[j] in multiset(xs);
        assert xs[j] in ys;
      }
    }
  }

  /** The results list after both members of a group appended their entry, in
      the order they finished. */
  function Collected(agno: string, llama: string, llamaFirst: bool): seq<Tagged>
  {
    if llamaFirst then [Tagged("llama", llama), Tagged("agno", agno)]
    else [Tagged("agno", agno), Tagged("llama", llama)]
  }

  /** Two appends to an empty list give the two-element list. */
  lemma AppendedPair<T>(x: T, y: T)
    ensures [] + [x] + [y] == [x, y]
  {
  }

  /** Either order of a group's appends extracts the agno entry for "agno" and
      the llama entry for "llama". */
  lemma CollectedExtracts(agno: string, llama: string, llamaFirst: bool)
    ensures LastTagged(Collected(agno, llama, llamaFirst), "agno") == Some(agno)
    ensures LastTagged(Collected(agno, llama, llamaFirst), "llama") == Some(llama)
  {
    var xs := Collected(agno, llama, false);
    var ys := Collected(agno, llama, true);
    assert multiset(xs) == multiset(ys);
    assert LastTagged(xs, "agno") == LastTagged(xs[..1], "agno");
    ExtractionIgnoresOrder(xs, ys, "agno");
    ExtractionIgnoresOrder(xs, ys, "llama");
  }

  /** How a two-member task group that did not return both results ends: the
      exception of the first member that raised, else still pending. */
  function GroupStop<T>(first: Outcome<string>, second: Outcome<string>): (r: Outcome<T>)
    requires !(first.Done? && second.Done?)
    ensures r.Raised? <==> first.Raised? || second.Raised?
    ensures first.Raised? ==> r == Raised(first.message)
    ensures !first.Raised? && second.Raised? ==> r == Raised(second.message)
  {
    if first.Raised? then Raised(first.message)
    else if second.Raised? then Raised(second.message)
    else Pending
  }

  // ---------------------------------------------------------------------
  // parallel_processing_workflow

  /** The three values the workflow returns: `(final, agno, llama)`. */
  datatype ParallelResult = ParallelResult(final: string, agno: Option<string>, llama: Option<string>)

  datatype ParallelRun = ParallelRun(outcome: Outcome<ParallelResult>, sent: seq<Submission>)

  /** The tasks of the two group members, as each `process_with_*` builds them. */
  function GroupTasks(initial: string): seq<Submission>
  {
    [Submission(AgnoService, Prompt(ParallelCreative, [initial])),
     Submission(LlamaIndexService, Prompt(ParallelFactual, [initial]))]
  }

  /** The log after a group's two members have each sent their task. */
  function AfterGroup(sent: seq<Submission>, initial: string): (s: seq<Submission>)
    ensures s == sent + GroupTasks(initial)
  {
    sent + [Submission(AgnoService, Prompt(ParallelCreative, [initial]))]
         + [Submission(LlamaIndexService, Prompt(ParallelFactual, [initial]))]
  }

  /** The workflow as a value, given the outcomes of its five waits in
      submission order: the first group (discarded), the second group, then
      the synthesis. */
  function ParallelChain(initial: string, step: seq<Outcome<string>>, llamaFirst: bool): (r: ParallelRun)
    requires |step| == 5
    ensures |r.sent| == 2 || |r.sent| == 4 || |r.sent| == 5
    ensures r.sent[..2] == GroupTasks(initial)
    ensures r.outcome.Done? ==> |r.sent| == 5
  {
    var s1 := AfterGroup([], initial);
    if !(step[0].Done? && step[1].Done?) then ParallelRun(GroupStop(step[0], step[1]), s1)
    else
      var s2 := AfterGroup(s1, initial);
      if !(step[2].Done? && step[3].Done?) then ParallelRun(GroupStop(step[2], step[3]), s2)
      else
        var results := Collected(step[2].value, step[3].value, llamaFirst);
        var agno := LastTagged(results, "agno");
        var llama := LastTagged(results, "llama");
        var s3 := s2 + [Submission(AgnoService, Prompt(ParallelSynthesis, [initial, Show(agno), Show(llama)]))];
        if step[4].Done? then ParallelRun(Done(ParallelResult(step[4].value, agno, llama)), s3)
        else ParallelRun(Relay(step[4]), s3)
  }

  /** The outcomes of the waits for tasks 0 .. |route| - 1 on the given services. */
  function Observed(observe: seq<seq<Fetch>>, route: seq<Endpoint>): (step: seq<Outcome<string>>)
    ensures |step| == |route|
    ensures forall k :: 0 <= k < |route| ==>
              step[k] == UnboundedWait(ServiceName(route[k]), RepliesFor(observe, k)).outcome
  {
    seq(|route|, k requires 0 <= k < |route| => UnboundedWait(ServiceName(route[k]), RepliesFor(observe, k)).outcome)
  }

  /** The services of the five tasks of the parallel workflow, in submission order. */
  const ParallelRoute: seq<Endpoint> := [AgnoService, LlamaIndexService, AgnoService, LlamaIndexService, AgnoService]

  /** The five waits of the parallel workflow by the names of their services. */
  lemma ParallelStepsNamed(observe: seq<seq<Fetch>>)
    ensures var step := Observed(observe, ParallelRoute);
            && step[0] == UnboundedWait("Agno", RepliesFor(observe, 0)).outcome
            && step[1] == UnboundedWait("LlamaIndex", RepliesFor(observe, 1)).outcome
            && step[2] == UnboundedWait("Agno", RepliesFor(observe, 2)).outcome
            && step[3] == UnboundedWait("LlamaIndex", RepliesFor(observe, 3)).outcome
            && step[4] == UnboundedWait("Agno", RepliesFor(observe, 4)).outcome
  {
  }

  /** One member of a task group: submit the prompt, then wait for its task. */
  method Process(sent: seq<Submission>, observe: seq<seq<Fetch>>, endpoint: Endpoint, prompt: Prompt)
    returns (outcome: Outcome<string>, sent': seq<Submission>)
    ensures sent' == sent + [Submission(endpoint, prompt)]
    ensures outcome == UnboundedWait(ServiceName(endpoint), RepliesFor(observe, |sent|)).outcome
  {
    var id;
    id, sent' := SendTaskToService(sent, endpoint, prompt);
    var run := WaitForTaskCompletion(RepliesFor(observe, id), ServiceName(endpoint));
    outcome := run.outcome;
  }

  /** `parallel_processing_workflow`. `llamaFirst` says which member of the
      second group finished, and so appended its entry, first. */
  method ParallelProcessingWorkflow(initial: string, observe: seq<seq<Fetch>>, llamaFirst: bool)
    returns (outcome: Outcome<ParallelResult>, sent: seq<Submission>)
    ensures ParallelRun(outcome, sent) == ParallelChain(initial, Observed(observe, ParallelRoute), llamaFirst)
  {
    ghost var step := Observed(observe, ParallelRoute);
    ParallelStepsNamed(observe);
    sent := [];
    // first task group: process_with_agno, process_with_llama; results unused
    var a0, l0;
    a0, sent := Process(sent, observe, AgnoService, Prompt(ParallelCreative, [initial]));
    l0, sent := Process(sent, observe, LlamaIndexService, Prompt(ParallelFactual, [initial]));
    assert a0 == step[0] && l0 == step[1] && sent == AfterGroup([], initial);
    if !(a0.Done? && l0.Done?) {
      return GroupStop(a0, l0), sent;
    }
    // second task group: collect_agno, collect_llama append to `results`
    var a1, l1;
    a1, sent := Process(sent, observe, AgnoService, Prompt(ParallelCreative, [initial]));
    l1, sent := Process(sent, observe, LlamaIndexService, Prompt(ParallelFactual, [initial]));
    assert a1 == step[2] && l1 == step[3] && sent == AfterGroup(AfterGroup([], initial), initial);
    if !(a1.Done? && l1.Done?) {
      return GroupStop(a1, l1), sent;
    }
    var results: seq<Tagged> := [];
    if llamaFirst {
      results := results + [Tagged("llama", l1.value)];
      results := results + [Tagged("agno", a1.value)];
      AppendedPair(Tagged("llama", l1.value), Tagged("agno", a1.value));
    } else {
      results := results + [Tagged("agno", a1.value)];
      results := results + [Tagged("llama", l1.value)];
      AppendedPair(Tagged("agno", a1.value), Tagged("llama", l1.value));
    }
    assert results == Collected(a1.value, l1.value, llamaFirst);
    var agno, llama := ExtractResults(results);
    CollectedExtracts(a1.value, l1.value, llamaFirst);
    // synthesis phase on the Agno service
    var final;
    final, sent := Process(sent, observe, AgnoService, Prompt(ParallelSynthesis, [initial, Show(agno), Show(llama)]));
    assert final == step[4];
    if final.Done? {
      outcome := Done(ParallelResult(final.value, agno, llama));
    } else {
      outcome := Relay(final);
    }
  }

  /** The first group's two prompts are sent again by the second group: each
      service receives its first prompt twice before any synthesis. */
  lemma ParallelSendsGroupTwice(initial: string, step: seq<Outcome<string>>, llamaFirst: bool)
    requires |step| == 5
    ensures var r := ParallelChain(initial, step, llamaFirst);
            && r.sent[..2] == GroupTasks(initial)
            && (|r.sent| > 2 ==> r.sent[2..4] == GroupTasks(initial))
            && (step[0].Done? && step[1].Done? <==> |r.sent| > 2)
  {
  }

  /** A successful run sends the synthesis to Agno with the agno result before
      the llama result, and returns `(final, agno, llama)` from the second group
      and the synthesis. */
  lemma ParallelSynthesisOrder(initial: string, step: seq<Outcome<string>>, llamaFirst: bool)
    requires |step| == 5
    ensures var r := ParallelChain(initial, step, llamaFirst);
            r.outcome.Done? <==> forall k :: 0 <= k < 5 ==> step[k].Done?
    ensures var r := ParallelChain(initial, step, llamaFirst);
            r.outcome.Done? ==>
              && |r.sent| == 5
              && r.sent[4] == Submission(AgnoService, Prompt(ParallelSynthesis, [initial, step[2].value, step[3].value]))
              && r.outcome.value == ParallelResult(step[4].value, Some(step[2].value), Some(step[3].value))
  {
    if step[2].Done? && step[3].Done? {
      CollectedExtracts(step[2].value, step[3].value, llamaFirst);
    }
  }

  /** The order in which the second group's members finish changes nothing. */
  lemma ParallelIgnoresCompletionOrder(initial: string, step: seq<Outcome<string>>)
    requires |step| == 5
    ensures ParallelChain(initial, step, true) == ParallelChain(initial, step, false)
  {
    if step[2].Done? && step[3].Done? {
      CollectedExtracts(step[2].value, step[3].value, true);
      CollectedExtracts(step[2].value, step[3].value, false);
    }
  }

  /** A group that does not return both results ends the run: nothing is
      submitted after it and its first exception is the run's. */
  lemma ParallelStopsAtFailedGroup(initial: string, step: seq<Outcome<string>>, llamaFirst: bool)
    requires |step| == 5
    ensures var r := ParallelChain(initial, step, llamaFirst);
            && (!(step[0].Done? && step[1].Done?) ==>
                  |r.sent| == 2 && r.outcome == GroupStop(step[0], step[1]))
            && (step[0].Done? && step[1].Done? && !(step[2].Done? && step[3].Done?) ==>
                  |r.sent| == 4 && r.outcome == GroupStop(step[2], step[3]))
  {
  }

  // ---------------------------------------------------------------------
  // debate_workflow

  /** The debate's return value: the round-2 pair `(agno, llama)`. */
  datatype DebateResult = DebateResult(agno: Option<string>, llama: Option<string>)

  datatype DebateRun = DebateRun(outcome: Outcome<DebateResult>, sent: seq<Submission>)

  /** The services of the debate's four tasks, in submission order. */
  const DebateRoute: seq<Endpoint> := [AgnoService, LlamaIndexService, AgnoService, LlamaIndexService]

  /** The debate as a value, given the outcomes of its four waits and the
      finishing order of each round's two waits. */
  function DebateChain(initial: string, step: seq<Outcome<string>>, llamaFirst1: bool, llamaFirst2: bool): (r: DebateRun)
    requires |step| == 4
    ensures |r.sent| == 2 || |r.sent| == 4
    ensures r.sent[..2] == DebateOpenings(initial)
    ensures r.outcome.Done? ==> |r.sent| == 4
  {
    var s1 := DebateOpenings(initial);
    if !(step[0].Done? && step[1].Done?) then DebateRun(GroupStop(step[0], step[1]), s1)
    else
      var round1 := Collected(step[0].value, step[1].value, llamaFirst1);
      var agno1 := Show(LastTagged(round1, "agno"));
      var llama1 := Show(LastTagged(round1, "llama"));
      var s2 := DebateAllTasks(initial, agno1, llama1);
      if !(step[2].Done? && step[3].Done?) then DebateRun(GroupStop(step[2], step[3]), s2)
      else
        var round2 := Collected(step[2].value, step[3].value, llamaFirst2);
        DebateRun(Done(DebateResult(LastTagged(round2, "agno"), LastTagged(round2, "llama"))), s2)
  }

  /** The debate's two opening tasks, in the order they are sent. */
  function DebateOpenings(initial: string): (s: seq<Submission>)
    ensures |s| == 2
  {
    [] + [Submission(AgnoService, Prompt(DebateOpeningCreative, [initial]))]
       + [Submission(LlamaIndexService, Prompt(DebateOpeningFactual, [initial]))]
  }

  /** The debate's four tasks once both openings returned `agno` and `llama`. */
  function DebateAllTasks(initial: string, agno: string, llama: string): (s: seq<Submission>)
    ensures |s| == 4
  {
    DebateOpenings(initial)
      + [Submission(AgnoService, Prompt(DebateRefineCreative, [initial, agno, llama]))]
      + [Submission(LlamaIndexService, Prompt(DebateRefineFactual, [initial, llama, agno]))]
  }

  /** A debate whose first round does not return both answers stops after it. */
  lemma DebateStopsInRoundOne(initial: string, step: seq<Outcome<string>>, llamaFirst1: bool, llamaFirst2: bool)
    requires |step| == 4 && !(step[0].Done? && step[1].Done?)
    ensures DebateChain(initial, step, llamaFirst1, llamaFirst2)
            == DebateRun(GroupStop(step[0], step[1]), DebateOpenings(initial))
  {
  }

  /** After a first round that returned both answers, the refinements embed
      them and the second round's outcome decides the debate. */
  lemma DebateAfterRoundOne(initial: string, step: seq<Outcome<string>>, llamaFirst1: bool, llamaFirst2: bool)
    requires |step| == 4 && step[0].Done? && step[1].Done?
    ensures var r := DebateChain(initial, step, llamaFirst1, llamaFirst2);
            && r.sent == DebateAllTasks(initial, step[0].value, step[1].value)
            && (!(step[2].Done? && step[3].Done?) ==> r.outcome == GroupStop(step[2], step[3]))
            && (step[2].Done? && step[3].Done? ==> r.outcome == Done(DebateResult(Some(step[2].value), Some(step[3].value))))
  {
    CollectedExtracts(step[0].value, step[1].value, llamaFirst1);
    if step[2].Done? && step[3].Done? {
      CollectedExtracts(step[2].value, step[3].value, llamaFirst2);
    }
  }

  /** A task group whose two members each wait for one task already sent:
      the outcomes of the Agno and the LlamaIndex wait. */
  method AwaitPair(observe: seq<seq<Fetch>>, agnoTask: nat, llamaTask: nat)
    returns (agno: Outcome<string>, llama: Outcome<string>)
    ensures agno == UnboundedWait("Agno", RepliesFor(observe, agnoTask)).outcome
    ensures llama == UnboundedWait("LlamaIndex", RepliesFor(observe, llamaTask)).outcome
  {
    var a := WaitForTaskCompletion(RepliesFor(observe, agnoTask), "Agno");
    var l := WaitForTaskCompletion(RepliesFor(observe, llamaTask), "LlamaIndex");
    agno, llama := a.outcome, l.outcome;
  }

  /** The four waits of the debate, spelled out. */
  lemma DebateObserved(observe: seq<seq<Fetch>>)
    ensures Observed(observe, DebateRoute)
            == [UnboundedWait("Agno", RepliesFor(observe, 0)).outcome,
                UnboundedWait("LlamaIndex", RepliesFor(observe, 1)).outcome,
                UnboundedWait("Agno", RepliesFor(observe, 2)).outcome,
                UnboundedWait("LlamaIndex", RepliesFor(observe, 3)).outcome]
  {
  }

  /** `debate_workflow`: both opening prompts are sent before either is
      awaited, then both refinements, each led by its own round-1 answer. */
  method DebateWorkflow(initial: string, observe: seq<seq<Fetch>>, llamaFirst1: bool, llamaFirst2: bool)
    returns (outcome: Outcome<DebateResult>, sent: seq<Submission>)
    ensures DebateRun(outcome, sent)
            == DebateChain(initial, Observed(observe, DebateRoute), llamaFirst1, llamaFirst2)
  {
    DebateObserved(observe);
    ghost var step := Observed(observe, DebateRoute);
    sent := [];
    // Round 1: initial positions
    var agnoTask1, llamaTask1;
    agnoTask1, sent := SendTaskToService(sent, AgnoService, Prompt(DebateOpeningCreative, [initial]));
    llamaTask1, sent := SendTaskToService(sent, LlamaIndexService, Prompt(DebateOpeningFactual, [initial]));
    var agno1, llama1 := AwaitPair(observe, agnoTask1, llamaTask1);
    assert agno1 == step[0] && llama1 == step[1];
    if !(agno1.Done? && llama1.Done?) {
      DebateStopsInRoundOne(initial, step, llamaFirst1, llamaFirst2);
      return GroupStop(agno1, llama1), sent;
    }
    DebateAfterRoundOne(initial, step, llamaFirst1, llamaFirst2);
    var round1 := Collected(agno1.value, llama1.value, llamaFirst1);
    var agnoRound1, llamaRound1 := ExtractResults(round1);
    CollectedExtracts(agno1.value, llama1.value, llamaFirst1);
    ghost var s2 := sent;
    // Round 2: each side refines its answer against the other's
    var agnoTask2, llamaTask2;
    agnoTask2, sent := SendTaskToService(sent, AgnoService,
                                         Prompt(DebateRefineCreative, [initial, Show(agnoRound1), Show(llamaRound1)]));
    llamaTask2, sent := SendTaskToService(sent, LlamaIndexService,
                                          Prompt(DebateRefineFactual, [initial, Show(llamaRound1), Show(agnoRound1)]));
    var agno2, llama2 := AwaitPair(observe, agnoTask2, llamaTask2);
    assert agno2 == step[2] && llama2 == step[3];
    if !(agno2.Done? && llama2.Done?) {
      return GroupStop(agno2, llama2), sent;
    }
    var round2 := Collected(agno2.value, llama2.value, llamaFirst2);
    var agnoRound2, llamaRound2 := ExtractResults(round2);
    CollectedExtracts(agno2.value, llama2.value, llamaFirst2);
    return Done(DebateResult(agnoRound2, llamaRound2)), sent;
  }

  /** Exactly two rounds: the refinements are sent only after both openings
      returned, and each round-2 prompt leads with its own side's round-1
      answer and follows with the other side's, whatever order the openings
      finished in. */
  lemma DebateCrossReferences(initial: string, step: seq<Outcome<string>>, llamaFirst1: bool, llamaFirst2: bool)
    requires |step| == 4
    ensures var r := DebateChain(initial, step, llamaFirst1, llamaFirst2);
            && (|r.sent| == 2 || |r.sent| == 4)
            && (step[0].Done? && step[1].Done? <==> |r.sent| == 4)
            && (|r.sent| == 4 ==>
                  && r.sent[2] == Submission(AgnoService, Prompt(DebateRefineCreative, [initial, step[0].value, step[1].value]))
                  && r.sent[3] == Submission(LlamaIndexService, Prompt(DebateRefineFactual, [initial, step[1].value, step[0].value])))
  {
    if step[0].Done? && step[1].Done? {
      DebateAfterRoundOne(initial, step, llamaFirst1, llamaFirst2);
    } else {
      DebateStopsInRoundOne(initial, step, llamaFirst1, llamaFirst2);
    }
  }

  /** The debate succeeds exactly when all four waits do, and then returns the
      round-2 pair, whatever order the refinements finished in. */
  lemma DebateReturnsRoundTwo(initial: string, step: seq<Outcome<string>>, llamaFirst1: bool, llamaFirst2: bool)
    requires |step| == 4
    ensures var r := DebateChain(initial, step, llamaFirst1, llamaFirst2);
            && (r.outcome.Done? <==> forall k :: 0 <= k < 4 ==> step[k].Done?)
            && (r.outcome.Done? ==> r.outcome.value == DebateResult(Some(step[2].value), Some(step[3].value)))
            && (!(step[0].Done? && step[1].Done?) ==> r.outcome == GroupStop(step[0], step[1]))
  {
    if step[0].Done? && step[1].Done? {
      DebateAfterRoundOne(initial, step, llamaFirst1, llamaFirst2);
    } else {
      DebateStopsInRoundOne(initial, step, llamaFirst1, llamaFirst2);
    }
  }
}
