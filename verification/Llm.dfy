/** The provider-neutral message types, what a turn journals, and the JSON codec.

    Models internal/llm/llm.go and the payloads internal/agent/agent.go writes.
    JSON itself is a parameter: a pair of functions with the round-trip laws a
    turn relies on. */
module Llm {
  import opened Prelude
  import opened Journal

  datatype ToolCall = ToolCall(id: string, name: string, args: string)

  datatype Role = User | Assistant | ToolResult

  datatype Message = Message(role: Role, text: string, toolCalls: seq<ToolCall>,
                             toolCallID: string, isError: bool)

  datatype ToolDef = ToolDef(name: string, description: string, schema: string)

  datatype Request = Request(model: string, system: string, messages: seq<Message>,
                             tools: seq<ToolDef>, maxTokens: int)

  datatype Usage = Usage(input: int, output: int, cached: int) {
    function Plus(u: Usage): Usage {
      Usage(input + u.input, output + u.output, cached + u.cached)
    }
  }

  const NoUsage := Usage(0, 0, 0)

  datatype Response = Response(text: string, toolCalls: seq<ToolCall>, stopReason: string,
                               usage: Usage, model: string)

  /** Everything that can end a turn early. */
  datatype Failure =
    | EmptyResponse
    | UnnamedCall(index: nat)
    | NoIdCall(index: nat, name: string)
    | ProviderFailed(message: string)
    | CassetteExhausted(turn: string, length: nat)
    | RequestMismatch(call: nat, recorded: string, replayed: string)
    | UndecodableResponse(call: nat)
    | ToolFailed(name: string, message: string)
    | StepLimit(steps: int)
    | NoModel
    | NotJournaled(attempt: nat)

  /** Reports the first reason a response cannot drive the loop forward. */
  function Validate(r: Response): Option<Failure> {
    if r.text == "" && r.toolCalls == [] then Some(EmptyResponse) else FirstBadCall(r.toolCalls, 0)
  }

  function FirstBadCall(calls: seq<ToolCall>, i: nat): (f: Option<Failure>)
    requires i <= |calls|
    ensures f.None? <==> forall j | i <= j < |calls| :: calls[j].name != "" && calls[j].id != ""
    decreases |calls| - i
  {
    if i == |calls| then None
    else if calls[i].name == "" then Some(UnnamedCall(i))
    else if calls[i].id == "" then Some(NoIdCall(i, calls[i].name))
    else FirstBadCall(calls, i + 1)
  }

  /** A journaled payload before marshalling. `Verbatim` is a recorded response
      that a replay appends as raw bytes. */
  datatype Payload =
    | TurnStart(prompt: string, model: string, system: string, tools: seq<string>, env: map<string, string>)
    | ModelRequest(request: Request)
    | ModelResponse(response: Response)
    | Verbatim(bytes: string)
    | ToolCalled(call: ToolCall)
    | ToolReturned(id: string, name: string, content: string, isError: bool)
    | ProviderError(provider: string, message: string)
    | LoopError(stage: string, failure: Failure)
    | TurnEnd(reason: string, steps: int, toolCalls: int, usage: Usage)

  function KindOf(p: Payload): Kind {
    match p
    case TurnStart(_, _, _, _, _) => KindTurnStart
    case ModelRequest(_) => KindModelRequest
    case ModelResponse(_) => KindModelResponse
    case Verbatim(_) => KindModelResponse
    case ToolCalled(_) => KindToolCall
    case ToolReturned(_, _, _, _) => KindToolResult
    case ProviderError(_, _) => KindError
    case LoopError(_, _) => KindError
    case TurnEnd(_, _, _, _) => KindTurnEnd
  }

  /** JSON, and the message a model gets for naming a tool that does not exist. */
  datatype Codec = Codec(marshal: Payload -> string,
                         unmarshal: (Kind, string) -> Option<Payload>,
                         missingTool: (string, seq<string>) -> string)

  predicate Decodable(p: Payload) {
    !p.Verbatim? && !p.ProviderError? && !p.LoopError?
  }

  /** Decoding inverts encoding; re-marshalling raw bytes compacts them, which
      leaves a marshalled response alone (tool arguments are compact already) and
      never changes what bytes mean; JSON has no raw NUL and is never empty. */
  ghost predicate Lawful(c: Codec) {
    && (forall p: Payload | Decodable(p) :: c.unmarshal(KindOf(p), c.marshal(p)) == Some(p))
    && (forall r: Response :: c.marshal(Verbatim(c.marshal(ModelResponse(r)))) == c.marshal(ModelResponse(r)))
    && (forall b: string ::
          c.unmarshal(KindModelResponse, c.marshal(Verbatim(b))) == c.unmarshal(KindModelResponse, b))
    && (forall p: Payload :: NulFree(c.marshal(p)) && c.marshal(p) != "")
  }
}
