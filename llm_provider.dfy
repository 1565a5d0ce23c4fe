/** Selection of a language-model backend from a model name. */
module LLMProvider {
  import opened Wrappers
  import LLMClient

  datatype Backend = OpenAIBackend | AnthropicBackend

  /** The supported models and the provider each belongs to. */
  const SupportedModels: map<string, string> := map[
    "gpt-4o" := "openai",
    "gpt-4o-mini" := "openai",
    "o1-preview" := "openai",
    "o1-mini" := "openai",
    "gpt-4o-2024-08-06" := "openai",
    "claude-3-5-sonnet-20240620" := "anthropic"
  ]

  const OpenAIModels: set<string> := {"gpt-4o", "gpt-4o-mini", "o1-preview", "o1-mini", "gpt-4o-2024-08-06"}

  /** `get_client`: the provider of the model in the table, if any, selects the backend. */
  function GetClient(modelName: string): Result<Backend, string> {
    var provider := if modelName in SupportedModels then Some(SupportedModels[modelName]) else None;
    var name := provider.GetOr("");
    if name == "" then Failure("Unsupported model: " + modelName)
    else if name == "openai" then Success(OpenAIBackend)
    else if name == "anthropic" then Success(AnthropicBackend)
    else Failure("Unsupported provider: " + name)
  }

  /** A backend exists exactly for the models in the table: OpenAI for the five OpenAI
      models, Anthropic for the Claude model; any other name is an "Unsupported model" error. */
  lemma GetClientBackends(modelName: string)
    ensures GetClient(modelName).Success? <==> modelName in SupportedModels
    ensures GetClient(modelName).Failure? ==> GetClient(modelName).error == "Unsupported model: " + modelName
    ensures GetClient(modelName) == Success(OpenAIBackend) <==> modelName in OpenAIModels
    ensures GetClient(modelName) == Success(AnthropicBackend) <==> modelName == "claude-3-5-sonnet-20240620"
  {
  }

  /** The controller's default model name is not in the table. */
  lemma DefaultModelUnsupported()
    ensures GetClient("gpt-4") == Failure("Unsupported model: gpt-4")
  {
    assert forall k | k in SupportedModels :: |k| != |"gpt-4"|;
    assert "gpt-4" !in SupportedModels;
    assert "Unsupported model: " + "gpt-4" == "Unsupported model: gpt-4";
  }

  /** There are four vision models, all distinct, and every one of them has a backend. */
  lemma VisionModelsSupported()
    ensures |LLMClient.ModelsWithVision| == 4
    ensures forall i, j :: 0 <= i < j < 4 ==> LLMClient.ModelsWithVision[i] != LLMClient.ModelsWithVision[j]
    ensures forall m :: m in LLMClient.ModelsWithVision ==> GetClient(m).Success?
  {
  }
}
