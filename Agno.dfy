/**
 The Agno worker: runs a task's prompt through an Agno agent and records the
 outcome in the task store. The agent itself is a parameter: what its
 `arun(prompt)` gives for each prompt.
 */
module Agno {
  import opened Schema
  import opened Storage
  import opened Worker

  /** What `agent.arun(prompt)` returns, as the worker probes it: the `text`,
      `content` and `message` attributes where the response has them (the
      last already passed through `str`), and `str(response)`. */
  datatype AgentResponse = AgentResponse(text: Option<string>, content: Option<string>, message: Option<string>, shown: string)

  /** The agent call returns a response or raises. */
  datatype AgentReply = Responds(response: AgentResponse) | Raises(error: string)

  /** The first present value in `candidates`, else `fallback`. */
  function FirstPresent(candidates: seq<Option<string>>, fallback: string): (a: string)
    ensures (forall j :: 0 <= j < |candidates| ==> candidates[j].None?) ==> a == fallback
    decreases |candidates|
  {
    if candidates == [] then fallback
    else if candidates[0].Some? then candidates[0].value
    else FirstPresent(candidates[1..], fallback)
  }

  /** The answer taken from a response: `.text`, else `.content`, else
      `str(.message)`, else `str(response)`. */
  function AgnoAnswer(r: AgentResponse): (a: string)
    ensures a in {r.shown} + (if r.text.Some? then {r.text.value} else {})
                           + (if r.content.Some? then {r.content.value} else {})
                           + (if r.message.Some? then {r.message.value} else {})
  {
    if r.text.Some? then r.text.value
    else if r.content.Some? then r.content.value
    else if r.message.Some? then r.message.value
    else r.shown
  }

  /** The answer is the first attribute present in the probing order, with
      `str(response)` as the last resort. */
  lemma AgnoAnswerProbesInOrder(r: AgentResponse)
    ensures AgnoAnswer(r) == FirstPresent([r.text, r.content, r.message], r.shown)
  {
    var c := [r.text, r.content, r.message];
    assert c[1..] == [r.content, r.message] && c[1..][1..] == [r.message] && c[1..][1..][1..] == [];
    assert FirstPresent([r.message], r.shown) == if r.message.Some? then r.message.value else r.shown;
    assert FirstPresent([r.content, r.message], r.shown)
           == if r.content.Some? then r.content.value else FirstPresent([r.message], r.shown);
  }

  /** A response with a `text` attribute is answered by it, whatever else the
      response carries; without `text`, `content` wins over the rest. */
  lemma AgnoAnswerPriority(r: AgentResponse, content: Option<string>, message: Option<string>, shown: string)
    ensures r.text.Some? ==> AgnoAnswer(r.(content := content, message := message, shown := shown)) == r.text.value
    ensures r.text.None? && r.content.Some? ==> AgnoAnswer(r.(message := message, shown := shown)) == r.content.value
  {
  }

  /** What the run hands to the store: the answer, or None when the agent raised. */
  function AgnoResult(reply: AgentReply): (answer: Option<string>)
    ensures answer.Some? <==> reply.Responds?
    ensures reply.Responds? ==> answer.value == AgnoAnswer(reply.response)
  {
    match reply
    case Responds(r) => Some(AgnoAnswer(r))
    case Raises(_) => None
  }

  class AgnoWorker {
    /** The store the worker was started with. */
    const storage: TaskStore

    constructor(storage: TaskStore)
      ensures this.storage == storage
    {
      this.storage := storage;
    }

    /** `run_task`: select the prompt, mark the task working, run the agent on
        the prompt, and mark the task completed with the answer or failed.
        Without a text part nothing is written; a task the store does not
        hold fails the first write and nothing is written either. */
    method RunTask(params: TaskParams, agent: string -> AgentReply) returns (outcome: RunOutcome)
      requires storage.Valid()
      modifies storage
      ensures storage.Valid()
      ensures var prompt := FirstText(params.message.parts);
              && (prompt.None? ==> outcome == NoTextPart)
              && (prompt.Some? && params.id !in old(storage.tasks) ==> outcome == TaskMissing)
              && (prompt.Some? && params.id in old(storage.tasks) ==> outcome == Ran)
              && (outcome != Ran ==> storage.tasks == old(storage.tasks) && storage.writes == old(storage.writes))
              && (outcome == Ran ==>
                    && prompt.Some? && params.id in old(storage.tasks)
                    && storage.writes == old(storage.writes) + RunWrites(params.id, AgnoResult(agent(prompt.value)))
                    && storage.tasks == Apply(old(storage.tasks), RunWrites(params.id, AgnoResult(agent(prompt.value)))))
    {
      var prompt := FirstText(params.message.parts);
      if prompt.None? {
        return NoTextPart;
      }
      ghost var before := storage.tasks;
      ghost var log := storage.writes;
      var found := storage.UpdateTask(params.id, Working, None);
      if !found {
        return TaskMissing;
      }
      var reply := agent(prompt.value);
      ghost var ws := RunWrites(params.id, AgnoResult(reply));
      ApplyTwo(before, ws);
      match reply {
        case Raises(_) =>
          found := storage.UpdateTask(params.id, Failed, None);
        case Responds(response) =>
          var answer := AgnoAnswer(response);
          found := storage.UpdateTask(params.id, Completed, Some([AnswerArtifact(answer)]));
      }
      LogTwo(log, ws);
      return Ran;
    }

    /** `cancel_task`: mark the task canceled, whatever its state, including a
        terminal one; `found` is false, and nothing changes, when the store
        does not hold the task. */
    method CancelTask(params: TaskParams) returns (found: bool)
      requires storage.Valid()
      modifies storage
      ensures storage.Valid()
      ensures found <==> params.id in old(storage.tasks)
      ensures found ==> storage.writes == old(storage.writes) + [Write(params.id, Canceled, None)]
      ensures found ==> storage.tasks == ApplyOne(old(storage.tasks), Write(params.id, Canceled, None))
      ensures !found ==> storage.tasks == old(storage.tasks) && storage.writes == old(storage.writes)
    {
      found := storage.UpdateTask(params.id, Canceled, None);
    }

    /** `build_message_history`: the task history, as it is. */
    function BuildMessageHistory(taskHistory: seq<Message>): (h: seq<Message>)
      ensures h == taskHistory
    {
      taskHistory
    }

    /** `build_artifacts`: no artifacts, whatever the result. */
    function BuildArtifacts(result: AgentResponse): (a: seq<Artifact>)
      ensures a == []
    {
      []
    }
  }
}
