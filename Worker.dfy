/**
 What the two workers' `run_task` and `cancel_task` have in common: the
 parameters they receive, how a run ends, and the writes each makes to the
 task store. The workers differ only in how they obtain an answer from their
 model.
 */
module Worker {
  import opened Schema
  import opened Storage

  /** The `params` of `run_task` and `cancel_task`: the task id and the
      message sent with the task. */
  datatype TaskParams = TaskParams(id: string, message: Message)

  /** How `run_task` ends: it returns, or an exception escapes it because the
      message has no text part (`next` raises) or because the store does not
      hold the task (its lookup raises). */
  datatype RunOutcome = Ran | NoTextPart | TaskMissing

  /** The writes of a run that reached its model: `working`, then `completed`
      with the answer as the single artifact, or `failed` alone when the
      model raised (`answer` is None). */
  function RunWrites(id: string, answer: Option<string>): (ws: seq<Write>)
    ensures |ws| == 2 && ws[0] == Write(id, Working, None)
    ensures ws[1].id == id && ws[1].state in {Completed, Failed}
  {
    [Write(id, Working, None),
     if answer.Some? then Write(id, Completed, Some([AnswerArtifact(answer.value)])) else Write(id, Failed, None)]
  }

  /** What a run leaves in the store: the task ends `completed` with exactly
      the answer artifact, or `failed` with its artifacts and history as they
      were; every other task is untouched. */
  lemma RunLeavesTerminalRecord(tasks: map<string, TaskRecord>, id: string, answer: Option<string>)
    requires id in tasks
    ensures var after := Apply(tasks, RunWrites(id, answer));
            && after.Keys == tasks.Keys
            && (forall other :: other in tasks && other != id ==> after[other] == tasks[other])
            && after[id].history == tasks[id].history
            && (answer.Some? ==> after[id].state == Completed && after[id].artifacts == Some([AnswerArtifact(answer.value)]))
            && (answer.None? ==> after[id].state == Failed && after[id].artifacts == tasks[id].artifacts)
  {
    ApplyTwo(tasks, RunWrites(id, answer));
  }

  /** Worker to orchestrator: a completed run's artifacts read back, the way
      the orchestrators read a completed reply, as exactly the answer. */
  lemma CompletedRunReadsBack(tasks: map<string, TaskRecord>, id: string, answer: string)
    requires id in tasks
    ensures var after := Apply(tasks, RunWrites(id, Some(answer)));
            after[id].artifacts.Some? && ReplyText(after[id].artifacts.value) == Some(answer)
  {
    RunLeavesTerminalRecord(tasks, id, Some(answer));
  }

  /** A cancel write overrides any state, a terminal one included, and keeps
      the task's artifacts and history. */
  lemma CancelOverridesAnyState(tasks: map<string, TaskRecord>, id: string)
    requires id in tasks
    ensures var after := ApplyOne(tasks, Write(id, Canceled, None));
            && after[id] == TaskRecord(Canceled, tasks[id].artifacts, tasks[id].history)
            && (forall other :: other in tasks && other != id ==> after[other] == tasks[other])
  {
  }

  /** A completed run canceled afterwards ends `canceled`, still holding the
      answer artifact. */
  lemma {:induction false} CancelAfterCompletedRun(tasks: map<string, TaskRecord>, id: string, answer: string)
    requires id in tasks
    ensures var after := Apply(tasks, RunWrites(id, Some(answer)) + [Write(id, Canceled, None)]);
            && after[id].state == Canceled
            && after[id].artifacts == Some([AnswerArtifact(answer)])
  {
    ApplyAppend(tasks, RunWrites(id, Some(answer)), Write(id, Canceled, None));
    RunLeavesTerminalRecord(tasks, id, Some(answer));
  }
}
