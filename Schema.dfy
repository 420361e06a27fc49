/**
 The A2A wire vocabulary shared by the workers and the orchestrators: task
 states, message and artifact parts, and what one `get_task` call yields.
 */
module Schema {

  datatype Option<T> = None | Some(value: T)

  /** The A2A task states. The orchestrators compare the state's wire literal;
      only "completed", "failed" and "canceled" are treated specially by them. */
  datatype TaskState =
    | Submitted | Working | InputRequired | Completed | Canceled
    | Failed | Rejected | AuthRequired | Unknown

  /** The lower-case literal a state travels as. */
  function StateName(s: TaskState): string
  {
    match s
    case Submitted => "submitted"
    case Working => "working"
    case InputRequired => "input-required"
    case Completed => "completed"
    case Canceled => "canceled"
    case Failed => "failed"
    case Rejected => "rejected"
    case AuthRequired => "auth-required"
    case Unknown => "unknown"
  }

  /** A content part; only a text part has a `text` key. */
  datatype Part = TextPart(text: string) | FilePart(file: string) | DataPart(data: string)

  datatype Artifact = Artifact(index: nat, parts: seq<Part>, lastChunk: bool)

  datatype Message = Message(role: string, parts: seq<Part>)

  /** What one `client.get_task(task_id)` call gives the orchestrator: the
      reply's `result` (its state, its optional `error` entry and its
      artifacts), or the exception the call raised, by its message. */
  datatype Fetch =
    | Reply(state: TaskState, error: Option<string>, artifacts: seq<Artifact>)
    | Failure(message: string)

  /** `artifacts[0]["parts"][0]["text"]`, or None where Python's lookup raises. */
  function ReplyText(artifacts: seq<Artifact>): (r: Option<string>)
    ensures r.Some? <==> |artifacts| > 0 && |artifacts[0].parts| > 0 && artifacts[0].parts[0].TextPart?
    ensures r.Some? ==> artifacts[0].parts[0] == TextPart(r.value)
  {
    if |artifacts| > 0 && |artifacts[0].parts| > 0 && artifacts[0].parts[0].TextPart?
    then Some(artifacts[0].parts[0].text)
    else None
  }

  /** The text of the lookup error raised when a "completed" reply has no
      `artifacts[0]["parts"][0]["text"]`. */
  const MalformedReplyMessage: string := "list index out of range"

  /** A reply in a state none of the waiters stops on. */
  predicate StillRunning(f: Fetch)
  {
    f.Reply? && f.state != Completed && f.state != Failed && f.state != Canceled
  }

  /** The text of the first part whose type is "text" (Python's
      `next(p["text"] for p in parts if p["type"] == "text")`); None where
      `next` finds nothing and raises. */
  function FirstText(parts: seq<Part>): (r: Option<string>)
    ensures r.None? <==> forall j :: 0 <= j < |parts| ==> !parts[j].TextPart?
    ensures r.Some? ==> exists k :: 0 <= k < |parts| && parts[k] == TextPart(r.value)
                                    && forall j :: 0 <= j < k ==> !parts[j].TextPart?
    decreases |parts|
  {
    if |parts| == 0 then None
    else if parts[0].TextPart? then Some(parts[0].text)
    else
      var rest := FirstText(parts[1..]);
      assert forall j :: 1 <= j < |parts| ==> parts[j] == parts[1..][j - 1];
      assert rest.Some? ==> exists k :: 1 <= k < |parts| && parts[k] == TextPart(rest.value)
                                        && forall j :: 0 <= j < k ==> !parts[j].TextPart? by {
        if rest.Some? {
          var k :| 0 <= k < |parts[1..]| && parts[1..][k] == TextPart(rest.value)
                   && forall j :: 0 <= j < k ==> !parts[1..][j].TextPart?;
          assert parts[k + 1] == TextPart(rest.value);
          assert forall j :: 1 <= j < k + 1 ==> !parts[j].TextPart?;
        }
      }
      rest
  }

  /** The message `send_task` carries: role "user" and one text part. */
  function TaskMessage(prompt: string): (m: Message)
    ensures m.role == "user" && |m.parts| == 1
  {
    Message("user", [TextPart(prompt)])
  }

  /** The single artifact a worker attaches to a completed task. */
  function AnswerArtifact(answer: string): (a: Artifact)
    ensures a.index == 0 && a.lastChunk && |a.parts| == 1
  {
    Artifact(0, [TextPart(answer)], true)
  }

  /** Round trip orchestrator -> worker: the prompt a worker selects from a
      submitted message is exactly the prompt the orchestrator sent. */
  lemma TaskMessagePromptRoundTrip(prompt: string)
    ensures FirstText(TaskMessage(prompt).parts) == Some(prompt)
  {
  }

  /** Round trip worker -> orchestrator: the text an orchestrator reads from a
      completed task's artifacts is exactly the answer the worker stored. */
  lemma AnswerArtifactRoundTrip(answer: string)
    ensures ReplyText([AnswerArtifact(answer)]) == Some(answer)
  {
  }
}
