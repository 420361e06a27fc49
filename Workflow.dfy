/**
 The vocabulary of the orchestration scripts: the two services, the prompts
 they are sent, and submission of a prompt as a task.

 A prompt is modelled by WHICH earlier results it embeds and in WHAT order;
 the fixed wording of each f-string template is replaced by a label. The
 task service the model talks to is a log of submissions (a task's id is its
 position in the log, so every id is fresh) and, for each id, the sequence
 of outcomes its `get_task` calls observe.
 */
module Workflow {
  import opened Schema

  datatype Endpoint = AgnoService | LlamaIndexService

  /** The `service_name` the two plain orchestrators pass for each service. */
  function ServiceName(e: Endpoint): string
  {
    match e
    case AgnoService => "Agno"
    case LlamaIndexService => "LlamaIndex"
  }

  /** The f-string templates of the three orchestration scripts. */
  datatype Template =
    // orchestrate.py, collaborative workflow
    | CollabAnalysis | CollabSynthesis | CollabValidation | CollabFinal
    // orchestrate_parallel.py, parallel workflow
    | ParallelCreative | ParallelFactual | ParallelSynthesis
    // orchestrate_parallel.py, debate workflow
    | DebateOpeningCreative | DebateOpeningFactual | DebateRefineCreative | DebateRefineFactual
    // orchestrate_expert.py, expert consultation
    | ExpertResearch | ExpertStrategy | ExpertReview | ExpertFinal | ExpertCheck

  /** A template and the values substituted into it, in textual order. */
  datatype Prompt = Prompt(template: Template, embeds: seq<string>)

  function TemplateLabel(t: Template): string
  {
    match t
    case CollabAnalysis => "collaborative analysis"
    case CollabSynthesis => "collaborative synthesis"
    case CollabValidation => "collaborative validation"
    case CollabFinal => "collaborative final answer"
    case ParallelCreative => "parallel creative"
    case ParallelFactual => "parallel factual"
    case ParallelSynthesis => "parallel synthesis"
    case DebateOpeningCreative => "debate opening, creative"
    case DebateOpeningFactual => "debate opening, factual"
    case DebateRefineCreative => "debate refinement, creative"
    case DebateRefineFactual => "debate refinement, factual"
    case ExpertResearch => "expert research"
    case ExpertStrategy => "expert strategy"
    case ExpertReview => "expert review"
    case ExpertFinal => "expert final explanation"
    case ExpertCheck => "expert fact check"
  }

  /** The embedded values, each on its own line, in order. */
  function JoinLines(values: seq<string>): (r: string)
    ensures |r| >= |values|
    decreases |values|
  {
    if values == [] then "" else "\n" + values[0] + JoinLines(values[1..])
  }

  /** The prompt text put on the wire: the template's label, then its values. */
  function Render(p: Prompt): (r: string)
    ensures |r| >= |TemplateLabel(p.template)| + 2 + |p.embeds|
    ensures r[..|TemplateLabel(p.template)| + 2] == "[" + TemplateLabel(p.template) + "]"
  {
    "[" + TemplateLabel(p.template) + "]" + JoinLines(p.embeds)
  }

  /** One `send_task` call: the service it went to and the prompt it carried. */
  datatype Submission = Submission(endpoint: Endpoint, prompt: Prompt) {
    /** The message sent: role "user" and one text part holding the rendered prompt. */
    function Message(): Schema.Message
    {
      TaskMessage(Render(prompt))
    }
  }

  /** The outcomes observed by polling task `id`; none for a task the
      observation does not cover. */
  function RepliesFor(observe: seq<seq<Fetch>>, id: nat): seq<Fetch>
  {
    if id < |observe| then observe[id] else []
  }

  /** How an f-string renders an optional result: the value, or "None". */
  function Show(v: Option<string>): (r: string)
    ensures v.Some? ==> r == v.value
    ensures v.None? ==> r == "None"
  {
    match v
    case Some(s) => s
    case None => "None"
  }

  /** `send_task_to_service`: submit the prompt as a one-part user message and
      return the new task's id, the next free position of the log. */
  method SendTaskToService(log: seq<Submission>, endpoint: Endpoint, prompt: Prompt)
    returns (taskId: nat, sent: seq<Submission>)
    ensures sent == log + [Submission(endpoint, prompt)]
    ensures taskId == |log| && taskId < |sent|
    ensures sent[taskId].Message() == Message("user", [TextPart(Render(prompt))])
  {
    taskId := |log|;
    sent := log + [Submission(endpoint, prompt)];
  }

  /** A worker that picks the first text part of a submitted message reads
      back exactly the rendered prompt. */
  lemma SubmittedPromptReachesWorker(s: Submission)
    ensures FirstText(s.Message().parts) == Some(Render(s.prompt))
  {
    TaskMessagePromptRoundTrip(Render(s.prompt));
  }
}
