/**
 The LlamaIndex worker: runs a task's prompt through a LlamaIndex completion
 model and records the outcome in the task store. The model is a parameter:
 what its `complete(prompt)` gives for each prompt.
 */
module LlamaIndex {
  import opened Schema
  import opened Storage
  import opened Worker

  /** What `llm.complete(prompt)` returns: its `text` attribute where it has
      one, and the value itself as the text it is stored as. */
  datatype Completion = Completion(text: Option<string>, itself: string)

  /** The model call returns a completion or raises. */
  datatype CompletionReply = Completes(completion: Completion) | Raises(error: string)

  /** `getattr(completion, "text", completion)`. */
  function LlamaAnswer(c: Completion): (a: string)
    ensures c.text.Some? ==> a == c.text.value
    ensures c.text.None? ==> a == c.itself
  {
    if c.text.Some? then c.text.value else c.itself
  }

  /** The answer never depends on the completion itself when it has `text`,
      and is the completion itself when it has none. */
  lemma LlamaAnswerPrefersText(c: Completion, other: string)
    ensures c.text.Some? ==> LlamaAnswer(c.(itself := other)) == LlamaAnswer(c)
    ensures LlamaAnswer(Completion(None, other)) == other
  {
  }

  /** What the run hands to the store: the answer, or None when the model raised. */
  function LlamaResult(reply: CompletionReply): (answer: Option<string>)
    ensures answer.Some? <==> reply.Completes?
    ensures reply.Completes? ==> answer.value == LlamaAnswer(reply.completion)
  {
    match reply
    case Completes(c) => Some(LlamaAnswer(c))
    case Raises(_) => None
  }

  class LlamaIndexWorker {
    /** The store the worker was started with. */
    const storage: TaskStore

    constructor(storage: TaskStore)
      ensures this.storage == storage
    {
      this.storage := storage;
    }

    /** `run_task`: select the prompt, mark the task working, complete the
        prompt, and mark the task completed with the answer or failed.
        Without a text part nothing is written; a task the store does not
        hold fails the first write and nothing is written either. */
    method RunTask(params: TaskParams, llm: string -> CompletionReply) returns (outcome: RunOutcome)
      requires storage.Valid()
      modifies storage
      ensures storage.Valid()
      ensures var prompt := FirstText(params.message.parts);
              && (prompt.None? ==> outcome == NoTextPart)
              && (prompt.Some? && params.id !in old(storage.tasks) ==> outcome == TaskMissing)
              && (prompt.Some? && params.id in old(storage.tasks) ==> outcome == Ran)
              && (outcome != Ran ==> storage.tasks == old(storage.tasks) && storage.writes == old(storage.writes))
              && (outcome == Ran ==>
                    && prompt.Some? && params.id in old(storage.tasks)
                    && storage.writes == old(storage.writes) + RunWrites(params.id, LlamaResult(llm(prompt.value)))
                    && storage.tasks == Apply(old(storage.tasks), RunWrites(params.id, LlamaResult(llm(prompt.value)))))
    {
      var prompt := FirstText(params.message.parts);
      if prompt.None? {
        return NoTextPart;
      }
      ghost var before := storage.tasks;
      ghost var log := storage.writes;
      var found := storage.UpdateTask(params.id, Working, None);
      if !found {
        return TaskMissing;
      }
      var reply := llm(prompt.value);
      ghost var ws := RunWrites(params.id, LlamaResult(reply));
      ApplyTwo(before, ws);
      match reply {
        case Raises(_) =>
          found := storage.UpdateTask(params.id, Failed, None);
        case Completes(completion) =>
          var answer := LlamaAnswer(completion);
          found := storage.UpdateTask(params.id, Completed, Some([AnswerArtifact(answer)]));
      }
      LogTwo(log, ws);
      return Ran;
    }

    /** `cancel_task`: mark the task canceled, whatever its state, including a
        terminal one; `found` is false, and nothing changes, when the store
        does not hold the task. */
    method CancelTask(params: TaskParams) returns (found: bool)
      requires storage.Valid()
      modifies storage
      ensures storage.Valid()
      ensures found <==> params.id in old(storage.tasks)
      ensures found ==> storage.writes == old(storage.writes) + [Write(params.id, Canceled, None)]
      ensures found ==> storage.tasks == ApplyOne(old(storage.tasks), Write(params.id, Canceled, None))
      ensures !found ==> storage.tasks == old(storage.tasks) && storage.writes == old(storage.writes)
    {
      found := storage.UpdateTask(params.id, Canceled, None);
    }

    /** `build_message_history`: the task history, as it is. */
    function BuildMessageHistory(taskHistory: seq<Message>): (h: seq<Message>)
      ensures h == taskHistory
    {
      taskHistory
    }

    /** `build_artifacts`: no artifacts, whatever the result. */
    function BuildArtifacts(result: Completion): (a: seq<Artifact>)
      ensures a == []
    {
      []
    }
  }
}
