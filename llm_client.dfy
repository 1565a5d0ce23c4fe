/** The normalized request and tool shapes that every language-model backend accepts,
    the list of models that take images, and the abstract client whose operations a
    backend must supply. */
module LLMClient {
  import opened Wrappers
  import PyValue

  datatype MessageRole = SystemRole | UserRole | AssistantRole

  function RoleName(role: MessageRole): string {
    match role
    case SystemRole => "system"
    case UserRole => "user"
    case AssistantRole => "assistant"
  }

  datatype ContentType = ImageUrlContent | TextContent

  datatype ContentItem = ContentItem(kind: ContentType, imageUrl: Option<string> := None, text: Option<string> := None)

  datatype MessageContent = Text(text: string) | Items(items: seq<ContentItem>)

  datatype ChatMessage = ChatMessage(role: MessageRole, content: MessageContent)

  /** The models the controller may send screenshots to. */
  const ModelsWithVision: seq<string> := [
    "gpt-4o",
    "gpt-4o-mini",
    "claude-3-5-sonnet-20240620",
    "gpt-4o-2024-08-06"
  ]

  predicate SupportsVision(model: string) {
    model in ModelsWithVision
  }

  const AnnotatedScreenshotText: string :=
    "This is a screenshot of the current page state with the elements annotated on it. Each element id is annotated with a number to the top left of it. Duplicate annotations at the same location are under each other vertically."

  datatype Image = Image(buffer: seq<bv8>, description: Option<string> := None)

  datatype ToolType = FunctionToolType

  /** A JSON schema for a tool's arguments; its type is `"object"` unless stated. */
  datatype FunctionParameters = FunctionParameters(
    properties: seq<(string, PyValue.Value)>,
    required: seq<string>,
    kind: string := "object")

  datatype Function = Function(name: string, description: string, parameters: FunctionParameters)

  datatype Tool = Tool(
    kind: ToolType,
    func: Option<Function> := None,
    name: Option<string> := None,
    description: Option<string> := None)

  /** `Tool.function_tool`: a function-typed tool that carries exactly the given name,
      description and parameters, and nothing at the tool's own level. */
  function FunctionTool(name: string, description: string, parameters: FunctionParameters): (t: Tool)
    ensures t.kind == FunctionToolType
    ensures t.func.Some? && t.func.value.name == name && t.func.value.description == description
    ensures t.func.value.parameters == parameters
    ensures t.name.None? && t.description.None?
  {
    Tool(FunctionToolType, func := Some(Function(name, description, parameters)))
  }

  datatype ResponseModel = ResponseModel(name: string, schema: PyValue.Value)

  /** Everything but the model and the messages is optional. */
  datatype ChatCompletionOptions = ChatCompletionOptions(
    model: string,
    messages: seq<ChatMessage>,
    maxTokens: Option<int> := None,
    temperature: Option<real> := None,
    topP: Option<real> := None,
    frequencyPenalty: Option<real> := None,
    presencePenalty: Option<real> := None,
    image: Option<Image> := None,
    tools: Option<seq<Tool>> := None,
    responseModel: Option<ResponseModel> := None)

  /** The options of a structured extraction: as above, but the response model is required. */
  datatype ExtractionOptions = ExtractionOptions(
    model: string,
    messages: seq<ChatMessage>,
    responseModel: ResponseModel,
    maxTokens: Option<int> := None,
    temperature: Option<real> := None,
    topP: Option<real> := None,
    frequencyPenalty: Option<real> := None,
    presencePenalty: Option<real> := None,
    image: Option<Image> := None,
    tools: Option<seq<Tool>> := None)

  datatype ClientError = NotImplemented

  /** The abstract client's chat completion: a backend must override it. */
  function CreateChatCompletion(options: ChatCompletionOptions): (r: Result<PyValue.Value, ClientError>)
    ensures r == Failure(NotImplemented)
  {
    Failure(NotImplemented)
  }

  /** The abstract client's structured extraction: a backend must override it. */
  function CreateExtraction(options: ExtractionOptions): (r: Result<PyValue.Value, ClientError>)
    ensures r == Failure(NotImplemented)
  {
    Failure(NotImplemented)
  }

  /** Options built from a model and messages alone leave every optional field unset. */
  lemma DefaultChatCompletionOptions(model: string, messages: seq<ChatMessage>)
    ensures var o := ChatCompletionOptions(model, messages);
      o.maxTokens.None? && o.temperature.None? && o.topP.None? && o.frequencyPenalty.None? &&
      o.presencePenalty.None? && o.image.None? && o.tools.None? && o.responseModel.None?
  {
  }

  /** Tool parameters are an object schema unless stated otherwise. */
  lemma DefaultParametersType(properties: seq<(string, PyValue.Value)>, required: seq<string>)
    ensures FunctionParameters(properties, required).kind == "object"
  {
  }
}
