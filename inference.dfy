/** The inference gateway: each operation builds its prompts, sends them to the backend
    that `GetClient` selects, and interprets the reply. The language model is an oracle:
    its replies are parameters, and every operation returns, beside its result, the
    requests it sent, in order, so that what was asked can be stated too. */
module Inference {
  import opened Wrappers
  import opened PyValue
  import Strings
  import Prompt
  import LLMClient
  import LLMProvider

  /** One call to the backend. The sampling settings (temperature 0.1, top_p 1, both
      penalties 0) are the same on every call and are not carried. */
  datatype Request = Request(
    model: string,
    messages: seq<Prompt.Message>,
    image: Option<LLMClient.Image> := None,
    tools: seq<LLMClient.Tool> := [],
    responseModel: Option<LLMClient.ResponseModel> := None)

  /** What an operation returned or raised, and the calls it made on the way. */
  datatype Exchange<T> = Exchange(result: Result<T, string>, requests: seq<Request>)

  /** A tool call in the model's reply: the tool's name and its raw arguments. */
  datatype ToolCall = ToolCall(name: string, arguments: string)

  /** The first choice of a chat completion: its tool calls (none when absent) and its text. */
  datatype ChatReply = ChatReply(toolCalls: seq<ToolCall>, content: Option<string>)

  /** A screenshot is attached only when one was given and it is not empty. */
  function ScreenshotImage(screenshot: Option<seq<bv8>>, description: string): Option<LLMClient.Image> {
    if screenshot.Some? && screenshot.value != [] then Some(LLMClient.Image(screenshot.value, Some(description)))
    else None
  }

  // ---------------------------------------------------------------- act

  function ActRequest(action: string, domElements: string, steps: string, model: string,
                      screenshot: Option<seq<bv8>>): Request
  {
    Request(model,
            [Prompt.BuildActSystemPrompt(), Prompt.BuildActUserPrompt(action, domElements, steps)],
            ScreenshotImage(screenshot, LLMClient.AnnotatedScreenshotText),
            Prompt.ActTools)
  }

  /** How a first tool call is read: `skipSection` means "nothing to do in this chunk". */
  function Interpret(call: ToolCall): Option<string> {
    if call.name == "skipSection" then None else Some(call.arguments)
  }

  /** The number of model calls `act` may make when entered with `retries`. */
  function Attempts(retries: int): nat {
    if retries >= 2 then 1 else 3 - retries
  }

  /** `act`: ask the model for the next step in one chunk. `reply(n)` is the model's reply
      to the call made with retry counter `n`. A reply without tool calls is retried, with
      the counter one higher and without the screenshot, until the counter reaches 2. */
  function Act(action: string, domElements: string, steps: string, model: string,
               screenshot: Option<seq<bv8>>, retries: int, reply: int -> ChatReply): Exchange<Option<string>>
    decreases if retries >= 2 then 0 else 2 - retries
  {
    match LLMProvider.GetClient(model)
    case Failure(e) => Exchange(Failure(e), [])
    case Success(_) =>
      var request := ActRequest(action, domElements, steps, model, screenshot);
      var calls := reply(retries).toolCalls;
      if |calls| > 0 then Exchange(Success(Interpret(calls[0])), [request])
      else if retries >= 2 then Exchange(Success(None), [request])
      else
        var next := Act(action, domElements, steps, model, None, retries + 1, reply);
        Exchange(next.result, [request] + next.requests)
  }

  /** An unsupported model fails before any call is made. */
  lemma ActUnsupportedModel(action: string, domElements: string, steps: string, model: string,
                            screenshot: Option<seq<bv8>>, retries: int, reply: int -> ChatReply)
    requires LLMProvider.GetClient(model).Failure?
    ensures Act(action, domElements, steps, model, screenshot, retries, reply) ==
      Exchange(Failure("Unsupported model: " + model), [])
  {
  }

  /** Every call of one `act` carries the same prompts and tools; only the first may carry
      the screenshot, and it does exactly when the screenshot is non-empty. There are
      between one and `Attempts(retries)` calls, so at most three from a fresh start. */
  lemma {:induction false} ActRequests(action: string, domElements: string, steps: string, model: string,
                                       screenshot: Option<seq<bv8>>, retries: int, reply: int -> ChatReply)
    requires LLMProvider.GetClient(model).Success?
    ensures var x := Act(action, domElements, steps, model, screenshot, retries, reply);
      1 <= |x.requests| <= Attempts(retries) &&
      x.requests[0] == ActRequest(action, domElements, steps, model, screenshot) &&
      (x.requests[0].image.Some? <==> screenshot.Some? && screenshot.value != []) &&
      forall i :: 1 <= i < |x.requests| ==> x.requests[i] == ActRequest(action, domElements, steps, model, None)
    decreases if retries >= 2 then 0 else 2 - retries
  {
    var x := Act(action, domElements, steps, model, screenshot, retries, reply);
    if |reply(retries).toolCalls| == 0 && retries < 2 {
      var next := Act(action, domElements, steps, model, None, retries + 1, reply);
      ActRequests(action, domElements, steps, model, None, retries + 1, reply);
      assert x.requests == [ActRequest(action, domElements, steps, model, screenshot)] + next.requests;
      forall i | 1 <= i < |x.requests|
        ensures x.requests[i] == ActRequest(action, domElements, steps, model, None)
      {
        assert x.requests[i] == next.requests[i - 1];
      }
    }
  }

  /** The first reply with a tool call decides: `skipSection` gives nothing, any other tool
      gives its arguments unchanged; the calls made are the ones up to that reply. */
  lemma {:induction false} ActAnswered(action: string, domElements: string, steps: string, model: string,
                                       screenshot: Option<seq<bv8>>, retries: int, reply: int -> ChatReply, k: int)
    requires LLMProvider.GetClient(model).Success?
    requires retries <= k < retries + Attempts(retries)
    requires forall j :: retries <= j < k ==> reply(j).toolCalls == []
    requires reply(k).toolCalls != []
    ensures var x := Act(action, domElements, steps, model, screenshot, retries, reply);
      x.result == Success(Interpret(reply(k).toolCalls[0])) && |x.requests| == k - retries + 1
    decreases k - retries
  {
    if k > retries {
      assert reply(retries).toolCalls == [];
      ActAnswered(action, domElements, steps, model, None, retries + 1, reply, k);
    }
  }

  /** When no reply within the allowed attempts has a tool call, `act` gives up with nothing
      after exactly `Attempts(retries)` calls. */
  lemma {:induction false} ActExhausted(action: string, domElements: string, steps: string, model: string,
                                        screenshot: Option<seq<bv8>>, retries: int, reply: int -> ChatReply)
    requires LLMProvider.GetClient(model).Success?
    requires forall j :: retries <= j < retries + Attempts(retries) ==> reply(j).toolCalls == []
    ensures var x := Act(action, domElements, steps, model, screenshot, retries, reply);
      x.result == Success(None) && |x.requests| == Attempts(retries)
    decreases if retries >= 2 then 0 else 2 - retries
  {
    assert reply(retries).toolCalls == [];
    if retries < 2 {
      ActExhausted(action, domElements, steps, model, None, retries + 1, reply);
    }
  }

  /** Arguments are only ever returned from a tool call other than `skipSection` that some
      reply within the allowed attempts carried first. */
  lemma {:induction false} ActArgumentsOrigin(action: string, domElements: string, steps: string, model: string,
                                              screenshot: Option<seq<bv8>>, retries: int, reply: int -> ChatReply)
    requires Act(action, domElements, steps, model, screenshot, retries, reply).result.Success?
    requires Act(action, domElements, steps, model, screenshot, retries, reply).result.value.Some?
    ensures exists k ::
              retries <= k < retries + Attempts(retries) &&
              reply(k).toolCalls != [] && reply(k).toolCalls[0].name != "skipSection" &&
              Act(action, domElements, steps, model, screenshot, retries, reply).result.value ==
                Some(reply(k).toolCalls[0].arguments)
    decreases if retries >= 2 then 0 else 2 - retries
  {
    if reply(retries).toolCalls == [] {
      ActArgumentsOrigin(action, domElements, steps, model, None, retries + 1, reply);
      var k :| retries + 1 <= k < retries + 1 + Attempts(retries + 1) &&
        reply(k).toolCalls != [] && reply(k).toolCalls[0].name != "skipSection" &&
        Act(action, domElements, steps, model, None, retries + 1, reply).result.value ==
          Some(reply(k).toolCalls[0].arguments);
      assert retries <= k < retries + Attempts(retries);
    } else {
      assert retries < retries + Attempts(retries);
    }
  }

  /** The user message as the gateway builds it: the DOM text and the steps are passed in
      the wrong positions. */
  function ActUserMessageAsWritten(action: string, domElements: string, steps: string): Prompt.Message {
    Prompt.BuildActUserPrompt(action, steps, domElements)
  }

  /** As written, the DOM text lands under the steps heading and the steps under the DOM
      heading; with "a", "d" and "s" the steps section reads "d". */
  lemma ActUserMessageAsWrittenSwapsSections()
    ensures var lines := Strings.Split(ActUserMessageAsWritten("a", "d", "s").content, '\n');
      |lines| == 10 && lines[4] == "# Steps You've Taken So Far" && lines[5] == "d" &&
      lines[7] == "# Current Active Dom Elements" && lines[8] == "s"
  {
    Prompt.ActUserPromptLines("a", "s", "d");
  }

  /** As corrected, the steps sit under the steps heading and the DOM under the DOM heading. */
  lemma ActRequestSections(action: string, domElements: string, steps: string, model: string,
                           screenshot: Option<seq<bv8>>)
    requires '\n' !in action && '\n' !in domElements && '\n' !in steps
    ensures var m := ActRequest(action, domElements, steps, model, screenshot).messages;
      var lines := Strings.Split(m[1].content, '\n');
      |m| == 2 && m[0].role == "system" && m[1].role == "user" && |lines| == 10 &&
      lines[2] == action && lines[4] == "# Steps You've Taken So Far" && lines[5] == steps &&
      lines[7] == "# Current Active Dom Elements" && lines[8] == domElements
  {
    Prompt.ActUserPromptLines(action, domElements, steps);
  }

  // ---------------------------------------------------------------- verify_act_completion

  /** The response model of the verifier: one boolean `completed`, false by default. */
  const VerificationSchema: LLMClient.ResponseModel :=
    LLMClient.ResponseModel("Verification",
      Dict([("completed", Dict([("default", Bool(false)), ("title", Str("Completed")), ("type", Str("boolean"))]))]))

  const VerifyScreenshotText: string := "This is a screenshot of the whole visible page."

  /** `verify_act_completion`: ask whether the goal is met. A falsy or non-dict response,
      or one without `completed`, counts as "not completed"; otherwise the verdict is the
      response's `completed` value as it stands. */
  function VerifyActCompletion(goal: string, steps: string, model: string, screenshot: Option<seq<bv8>>,
                               domElements: Option<string>, response: Value): Exchange<Value>
  {
    match LLMProvider.GetClient(model)
    case Failure(e) => Exchange(Failure(e), [])
    case Success(_) =>
      var request := Request(model,
        [Prompt.BuildVerifyActCompletionSystemPrompt(),
         Prompt.BuildVerifyActCompletionUserPrompt(goal, steps, domElements)],
        ScreenshotImage(screenshot, VerifyScreenshotText), [], Some(VerificationSchema));
      Exchange(Success(Verdict(response)), [request])
  }

  /** How the verifier's response is read. */
  function Verdict(response: Value): Value {
    if !Truthy(response) || !response.Dict? then Bool(false)
    else Get(response.fields, "completed").GetOr(Bool(false))
  }

  /** The verdict is truthy exactly when the response is a dict whose `completed` is
      truthy; a dict that has `completed` yields that value itself; anything that is not a
      dict, and a dict without `completed` (the empty one included), yields false. One call is made, with an image exactly when a screenshot is given. */
  lemma VerifyVerdict(goal: string, steps: string, model: string, screenshot: Option<seq<bv8>>,
                      domElements: Option<string>, response: Value)
    requires LLMProvider.GetClient(model).Success?
    ensures var x := VerifyActCompletion(goal, steps, model, screenshot, domElements, response);
      x.result.Success? && |x.requests| == 1 &&
      (x.requests[0].image.Some? <==> screenshot.Some? && screenshot.value != []) &&
      (Truthy(x.result.value) <==>
        response.Dict? && Get(response.fields, "completed").Some? && Truthy(Get(response.fields, "completed").value)) &&
      (response.Dict? && Get(response.fields, "completed").Some? ==>
        x.result.value == Get(response.fields, "completed").value) &&
      (!response.Dict? ==> x.result.value == Bool(false)) &&
      (response.Dict? && Get(response.fields, "completed").None? ==> x.result.value == Bool(false))
  {
    if response.Dict? && Get(response.fields, "completed").Some? {
      assert response.fields != [];
    }
  }

  // ---------------------------------------------------------------- extract

  /** The response model of the metadata call: a progress text and a completion flag. */
  const MetadataSchema: LLMClient.ResponseModel :=
    LLMClient.ResponseModel("MetadataSchema",
      Dict([("progress", Dict([("title", Str("Progress")), ("type", Str("string"))])),
            ("completed", Dict([("title", Str("Completed")), ("type", Str("boolean"))]))]))

  function ExtractRequest(model: string, instruction: string, domElements: string,
                          schema: LLMClient.ResponseModel): Request
  {
    Request(model, [Prompt.BuildExtractSystemPrompt(), Prompt.BuildExtractUserPrompt(instruction, domElements)],
            responseModel := Some(schema))
  }

  function RefineRequest(model: string, instruction: string, previouslyExtracted: Value, extracted: Value,
                         schema: LLMClient.ResponseModel): Request
  {
    Request(model, [Prompt.BuildRefineSystemPrompt(),
                    Prompt.BuildRefineUserPrompt(instruction, previouslyExtracted, extracted)],
            responseModel := Some(schema))
  }

  function MetadataRequest(model: string, instruction: string, refined: Value,
                           chunksSeen: int, chunksTotal: int): Request
  {
    Request(model, [Prompt.BuildMetadataSystemPrompt(),
                    Prompt.BuildMetadataPrompt(instruction, refined, chunksSeen, chunksTotal)],
            responseModel := Some(MetadataSchema))
  }

  /** `extract`: three structured calls, extract then refine then metadata, whose replies
      are `extracted`, `refined` and `metadata`. The result is the refined dict with the
      metadata stored under "metadata"; a refined reply that is not a dict cannot take the
      item assignment. `progress` is accepted and not used. */
  function Extract(instruction: string, progress: string, previouslyExtracted: Value, domElements: string,
                   schema: LLMClient.ResponseModel, model: string, chunksSeen: int, chunksTotal: int,
                   extracted: Value, refined: Value, metadata: Value): Exchange<Value>
  {
    match LLMProvider.GetClient(model)
    case Failure(e) => Exchange(Failure(e), [])
    case Success(_) =>
      var requests := [ExtractRequest(model, instruction, domElements, schema),
                       RefineRequest(model, instruction, previouslyExtracted, extracted, schema),
                       MetadataRequest(model, instruction, refined, chunksSeen, chunksTotal)];
      if refined.Dict? then Exchange(Success(Dict(Put(refined.fields, "metadata", metadata))), requests)
      else Exchange(Failure("TypeError: the refined response does not support item assignment"), requests)
  }

  lemma ExtractRequests(instruction: string, progress: string, previouslyExtracted: Value, domElements: string,
                        schema: LLMClient.ResponseModel, model: string, chunksSeen: int, chunksTotal: int,
                        extracted: Value, refined: Value, metadata: Value)
    requires LLMProvider.GetClient(model).Success?
    ensures Extract(instruction, progress, previouslyExtracted, domElements, schema, model,
                    chunksSeen, chunksTotal, extracted, refined, metadata).requests ==
      [ExtractRequest(model, instruction, domElements, schema),
       RefineRequest(model, instruction, previouslyExtracted, extracted, schema),
       MetadataRequest(model, instruction, refined, chunksSeen, chunksTotal)]
  {
  }

  /** Exactly three calls, in the order extract, refine, metadata: the first sees the DOM,
      the second the previous content and the raw extraction, the third the refined reply. */
  lemma ExtractCallOrder(instruction: string, progress: string, previouslyExtracted: Value, domElements: string,
                         schema: LLMClient.ResponseModel, model: string, chunksSeen: int, chunksTotal: int,
                         extracted: Value, refined: Value, metadata: Value)
    requires LLMProvider.GetClient(model).Success?
    ensures var rs := Extract(instruction, progress, previouslyExtracted, domElements, schema, model,
                              chunksSeen, chunksTotal, extracted, refined, metadata).requests;
      |rs| == 3 &&
      rs[0].messages == [Prompt.BuildExtractSystemPrompt(), Prompt.BuildExtractUserPrompt(instruction, domElements)] &&
      rs[1].messages == [Prompt.BuildRefineSystemPrompt(),
                         Prompt.BuildRefineUserPrompt(instruction, previouslyExtracted, extracted)] &&
      rs[2].messages == [Prompt.BuildMetadataSystemPrompt(),
                         Prompt.BuildMetadataPrompt(instruction, refined, chunksSeen, chunksTotal)] &&
      rs[0].responseModel == rs[1].responseModel == Some(schema) && rs[2].responseModel == Some(MetadataSchema)
  {
    ExtractRequests(instruction, progress, previouslyExtracted, domElements, schema, model,
                    chunksSeen, chunksTotal, extracted, refined, metadata);
  }

  /** The metadata call depends on the refined reply and not on the DOM, the previous
      content or the raw extraction. */
  lemma ExtractMetadataSeesOnlyRefined(instruction: string, progress: string, schema: LLMClient.ResponseModel,
                                       model: string, chunksSeen: int, chunksTotal: int, refined: Value,
                                       previous1: Value, dom1: string, extracted1: Value, metadata1: Value,
                                       previous2: Value, dom2: string, extracted2: Value, metadata2: Value)
    requires LLMProvider.GetClient(model).Success?
    ensures var rs1 := Extract(instruction, progress, previous1, dom1, schema, model, chunksSeen, chunksTotal,
                               extracted1, refined, metadata1).requests;
      var rs2 := Extract(instruction, progress, previous2, dom2, schema, model, chunksSeen, chunksTotal,
                         extracted2, refined, metadata2).requests;
      |rs1| == |rs2| == 3 && rs1[2] == rs2[2]
  {
    ExtractCallOrder(instruction, progress, previous1, dom1, schema, model, chunksSeen, chunksTotal,
                     extracted1, refined, metadata1);
    ExtractCallOrder(instruction, progress, previous2, dom2, schema, model, chunksSeen, chunksTotal,
                     extracted2, refined, metadata2);
  }

  /** The result is the refined dict with "metadata" set to the metadata reply; every other
      key keeps its value, and the key order is the refined one, with "metadata" last if it
      was new. */
  lemma ExtractResult(instruction: string, progress: string, previouslyExtracted: Value, domElements: string,
                      schema: LLMClient.ResponseModel, model: string, chunksSeen: int, chunksTotal: int,
                      extracted: Value, refined: Value, metadata: Value)
    requires LLMProvider.GetClient(model).Success?
    ensures var r := Extract(instruction, progress, previouslyExtracted, domElements, schema, model,
                             chunksSeen, chunksTotal, extracted, refined, metadata).result;
      (r.Success? <==> refined.Dict?) &&
      (r.Success? ==>
        r.value.Dict? && Get(r.value.fields, "metadata") == Some(metadata) &&
        (forall k :: k != "metadata" ==> Get(r.value.fields, k) == Get(refined.fields, k)) &&
        Keys(r.value.fields) ==
          if "metadata" in Keys(refined.fields) then Keys(refined.fields) else Keys(refined.fields) + ["metadata"])
  {
    if refined.Dict? {
      PutGet(refined.fields, "metadata", metadata);
      PutKeys(refined.fields, "metadata", metadata);
      forall k | k != "metadata"
        ensures Get(Put(refined.fields, "metadata", metadata), k) == Get(refined.fields, k)
      {
        PutOther(refined.fields, "metadata", metadata, k);
      }
    }
  }

  /** The progress text has no effect. */
  lemma ExtractIgnoresProgress(instruction: string, progress1: string, progress2: string,
                               previouslyExtracted: Value, domElements: string,
                               schema: LLMClient.ResponseModel, model: string, chunksSeen: int, chunksTotal: int,
                               extracted: Value, refined: Value, metadata: Value)
    ensures Extract(instruction, progress1, previouslyExtracted, domElements, schema, model,
                    chunksSeen, chunksTotal, extracted, refined, metadata) ==
            Extract(instruction, progress2, previouslyExtracted, domElements, schema, model,
                    chunksSeen, chunksTotal, extracted, refined, metadata)
  {
  }

  // ---------------------------------------------------------------- observe and ask

  const NoSelectorError: string := "no response when finding a selector"

  /** `observe`: the element id the model names, verbatim ("NONE" included); no text, or an
      empty one, is an error. */
  function Observe(observation: string, domElements: string, model: string, content: Option<string>)
    : (x: Exchange<string>)
    ensures LLMProvider.GetClient(model).Success? ==>
      |x.requests| == 1 &&
      x.requests[0].messages == [Prompt.BuildObserveSystemPrompt(), Prompt.BuildObserveUserMessage(observation, domElements)] &&
      (x.result.Success? <==> content.Some? && content.value != "") &&
      (x.result.Success? ==> x.result.value == content.value) &&
      (x.result.Failure? ==> x.result.error == NoSelectorError)
    ensures LLMProvider.GetClient(model).Failure? ==> x.requests == [] && x.result.Failure?
  {
    match LLMProvider.GetClient(model)
    case Failure(e) => Exchange(Failure(e), [])
    case Success(_) =>
      var request := Request(model, [Prompt.BuildObserveSystemPrompt(),
                                     Prompt.BuildObserveUserMessage(observation, domElements)]);
      var elementId := content.GetOr("");
      if elementId == "" then Exchange(Failure(NoSelectorError), [request])
      else Exchange(Success(elementId), [request])
  }

  /** `ask`: the model's text answer, passed on as it is (possibly none). */
  function Ask(question: string, model: string, content: Option<string>): (x: Exchange<Option<string>>)
    ensures LLMProvider.GetClient(model).Success? ==>
      x.result == Success(content) && |x.requests| == 1 &&
      x.requests[0].messages == [Prompt.BuildAskSystemPrompt(), Prompt.BuildAskUserPrompt(question)]
    ensures LLMProvider.GetClient(model).Failure? ==> x.requests == [] && x.result.Failure?
  {
    match LLMProvider.GetClient(model)
    case Failure(e) => Exchange(Failure(e), [])
    case Success(_) =>
      Exchange(Success(content), [Request(model, [Prompt.BuildAskSystemPrompt(), Prompt.BuildAskUserPrompt(question)])])
  }
}
