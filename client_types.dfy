/** The client's shared vocabulary: the pipeline stages, the agent thoughts pushed over the
    socket, the documentation plan and the socket messages themselves. */
module ClientTypes {
  import opened Wrappers

  /** `PipelineStage`. */
  datatype Stage = Idle | Started | Mining | Planning | Writing | Completed | Error

  /** The `messages` of an `llm_request` thought: one message, a list of them, or missing. */
  datatype RequestMessages =
    | Single(content: string)
    | Listed(contents: seq<string>)
    | NoMessages

  /** `AgentThought`, by subtype: only what the client reads of each is kept. A tool call is
      given by its function's name, "" when it has none. */
  datatype Thought =
    | LlmRequest(messages: RequestMessages)
    | ToolCalls(callNames: seq<string>)
    | Internal
    | LlmResponse(content: string)

  /** `PlanItem`: a page or a category of the documentation plan; `title` is its `label`. */
  datatype PlanItem = PlanItem(id: string, title: string, kind: string, children: seq<PlanItem>)

  /** `SocketMessage`, after `JSON.parse`: `Unparsable` stands for text it rejects. A plan message
      carries `plan.tree`, None when its plan has no tree (or a null one). */
  datatype SocketMessage =
    | StageMessage(stage: Stage, message: string)
    | ProgressMessage(current: int, total: int, pageLabel: Option<string>, message: string)
    | PlanMessage(tree: Option<seq<PlanItem>>)
    | ThoughtMessage(thought: Thought)
    | OtherMessage(kind: string)
    | Unparsable
}
