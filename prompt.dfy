/** The prompts the inference gateway sends: one system message per operation, holding a
    fixed text, and user messages filled in from templates. Each template is written as the
    list of its lines joined by newlines, which is the string its source template produces. */
module Prompt {
  import opened Wrappers
  import Strings
  import PyValue
  import LLMClient

  /** A chat message as the gateway builds it: a role name and a text. */
  datatype Message = Message(role: string, content: string)

  const ActSystemText: string :=
    "\n" +
    "# Instructions\n" +
    "You are a browser automation assistant. Your job is to accomplish the user's goal across multiple model calls.\n" +
    "\n" +
    "You are given:\n" +
    "1. the user's overall goal\n" +
    "2. the steps that you've taken so far\n" +
    "3. a list of active DOM elements in this chunk to consider to get closer to the goal. \n" +
    "\n" +
    "You have 2 tools that you can call: doAction, and skipSection. Do action only performs Playwright actions. Do not perform any other actions.\n" +
    "\n" +
    "Note: If there is a popup on the page for cookies or advertising that has nothing to do with the goal, try to close it first before proceeding. As this can block the goal from being completed.\n" +
    "\n" +
    "Also, verify if the goal has been accomplished already. Do this by checking if the goal has been accomplished based on the previous steps completed, the current page DOM elements and the current page URL / starting page URL. If it has, set completed to true and finish the task.\n" +
    "\n" +
    "Do exactly what the user's goal is. Do not exceed the scope of the goal.\n"

  const VerifyActCompletionSystemText: string :=
    "\n" +
    "You are a browser automation assistant. The job has given you a goal and a list of steps that have been taken so far. Your job is to determine if the user's goal has been completed based on the provided information.\n" +
    "\n" +
    "# Input\n" +
    "You will receive:\n" +
    "1. The user's goal: A clear description of what the user wants to achieve.\n" +
    "2. Steps taken so far: A list of actions that have been performed up to this point.\n" +
    "3. An image of the current page\n" +
    "\n" +
    "# Your Task\n" +
    "Analyze the provided information to determine if the user's goal has been fully completed.\n" +
    "\n" +
    "# Output\n" +
    "Return a boolean value:\n" +
    "- true: If the goal has been definitively completed based on the steps taken and the current page.\n" +
    "- false: If the goal has not been completed or if there's any uncertainty about its completion.\n" +
    "\n" +
    "# Important Considerations\n" +
    "- False positives are okay. False negatives are not okay.\n" +
    "- Look for evidence of errors on the page or something having gone wrong in completing the goal. If one does not exist, return true.\n"

  const ExtractSystemText: string :=
    "You are extracting content on behalf of a user. You will be given:\n" +
    "1. An instruction\n" +
    "2. A list of DOM elements to extract from\n" +
    "\n" +
    "Return the exact text from the DOM elements " +
    "with all symbols, characters, and endlines as is.\n" +
    "Only extract new information that has not already been extracted. Return null or an empty string if no new information is found."

  const RefineSystemText: string :=
    "You are tasked with refining and filtering information for the final output based on newly extracted and previously extracted content. Your responsibilities are:\n" +
    "1. Remove exact duplicates for elements in arrays and objects.\n" +
    "2. For text fields, append or update relevant text if the new content is an extension, replacement, or continuation.\n" +
    "3. For non-text fields (e.g., numbers, booleans), update with new values if they differ.\n" +
    "4. Add any completely new fields or objects.\n" +
    "\n" +
    "Return the updated content that includes both the previous content and the new, non-duplicate, or extended information."

  const MetadataSystemText: string :=
    "You are an AI assistant tasked with evaluating the progress and completion status of an extraction task.\n" +
    "Analyze the extraction response and determine if the task is completed or if more information is needed.\n" +
    "\n" +
    "Strictly abide by the following criteria:\n" +
    "1. If you are certain that the instruction is completed, set the completion status to true, even if there are still chunks left.\n" +
    "2. If there could still be more information to extract and there are still chunks left, set the completion status to false."

  const ObserveSystemText: string :=
    "\n" +
    "You are helping the user automate the browser by finding a playwright locator string. You will be given a instruction of the element to find, and a numbered list of possible elements.\n" +
    "\n" +
    "return only element id we are looking for.\n" +
    "\n" +
    "if the element is not found, return NONE.\n"

  const AskSystemText: string :=
    "\n" +
    "you are a simple question answering assistent given the user's question. respond with only the answer.\n"

  /** The literal pattern the extract and observe system builders replace: a backslash, `s`
      and `+` (no regular expression is involved). */
  const WhitespacePattern: string := "\\s+"

  function BuildVerifyActCompletionSystemPrompt(): Message {
    Message("system", VerifyActCompletionSystemText)
  }

  const VerifyDomHeading: string := "# Active DOM Elements on the current page"

  /** The DOM section is added only when `domElements` is truthy (given and non-empty). */
  function BuildVerifyActCompletionUserPrompt(goal: string, steps: string := "None",
                                              domElements: Option<string> := None): Message
  {
    var withDom := domElements.Some? && domElements.value != "";
    Message("user", Strings.Join(
      ["", "# My Goal", goal, "", "# Steps You've Taken So Far", steps] +
      (if withDom then ["", VerifyDomHeading, domElements.value] else []) +
      [""], '\n'))
  }

  function BuildActSystemPrompt(): Message {
    Message("system", ActSystemText)
  }

  function BuildActUserPrompt(action: string, domElements: string, steps: string := "None"): Message {
    Message("user", Strings.Join(
      ["", "# My Goal", action, "", "# Steps You've Taken So Far", steps, "",
       "# Current Active Dom Elements", domElements, ""], '\n'))
  }

  /** One property of a tool's argument schema: its title and its JSON type. */
  function Field(name: string, title: string, jsonType: string): (string, PyValue.Value) {
    (name, PyValue.Dict([("title", PyValue.Str(title)), ("type", PyValue.Str(jsonType))]))
  }

  /** The two tools the act call offers the model: act on an element, or skip the chunk. */
  const ActTools: seq<LLMClient.Tool> := [
    LLMClient.FunctionTool(
      "doAction",
      "execute the next playwright step that directly accomplishes the goal",
      LLMClient.FunctionParameters(
        [Field("method", "Method", "string"), Field("element", "Element", "integer"),
         ("args", PyValue.Dict([("items", PyValue.Dict([("type", PyValue.Str("string"))])),
                                ("title", PyValue.Str("Args")), ("type", PyValue.Str("array"))])),
         Field("step", "Step", "string"),
         ("why", PyValue.Dict([("anyOf", PyValue.List([PyValue.Dict([("type", PyValue.Str("string"))]),
                                                      PyValue.Dict([("type", PyValue.Str("null"))])])),
                               ("title", PyValue.Str("Why"))])),
         Field("completed", "Completed", "boolean")],
        ["method", "element", "args", "step", "why", "completed"])),
    LLMClient.FunctionTool(
      "skipSection",
      "skips this area of the webpage because the current goal cannot be accomplished here",
      LLMClient.FunctionParameters([Field("reason", "Reason", "string")], ["reason"]))
  ]

  function BuildExtractSystemPrompt(): Message {
    Message("system", Strings.Replace(ExtractSystemText, WhitespacePattern, " "))
  }

  function BuildExtractUserPrompt(instruction: string, domElements: string): Message {
    Message("user", Strings.Join(
      ["Instruction: " + instruction, "    DOM: " + domElements, "    Extracted content:"], '\n'))
  }

  function BuildRefineSystemPrompt(): Message {
    Message("system", RefineSystemText)
  }

  function BuildRefineUserPrompt(instruction: string, previouslyExtracted: PyValue.Value,
                                 newlyExtracted: PyValue.Value): Message
  {
    Message("user", Strings.Join(
      ["Instruction: " + instruction,
       "Previously extracted content: " + PyValue.StrOf(previouslyExtracted),
       "Newly extracted content: " + PyValue.StrOf(newlyExtracted),
       "Refined content:"], '\n'))
  }

  function BuildMetadataSystemPrompt(): Message {
    Message("system", MetadataSystemText)
  }

  function BuildMetadataPrompt(instruction: string, extractionResponse: PyValue.Value,
                               chunksSeen: int, chunksTotal: int): Message
  {
    Message("user", Strings.Join(
      ["Instruction: " + instruction,
       "Extracted content: " + PyValue.StrOf(extractionResponse),
       "Chunks seen: " + Strings.IntToString(chunksSeen),
       "Chunks total: " + Strings.IntToString(chunksTotal)], '\n'))
  }

  function BuildObserveSystemPrompt(): Message {
    Message("system", Strings.Replace(ObserveSystemText, WhitespacePattern, " "))
  }

  function BuildObserveUserMessage(observation: string, domElements: string): Message {
    Message("user", Strings.Join(["instruction: " + observation, "    DOM: " + domElements], '\n'))
  }

  function BuildAskSystemPrompt(): Message {
    Message("system", AskSystemText)
  }

  function BuildAskUserPrompt(question: string): Message {
    Message("user", "question: " + question)
  }

  /** The section headings are single lines. */
  lemma HeadingsAreSingleLines()
    ensures '\n' !in "# My Goal" && '\n' !in "# Steps You've Taken So Far"
    ensures '\n' !in "# Current Active Dom Elements" && '\n' !in VerifyDomHeading
  {
    assert forall c :: c in "# My Goal" ==> c != '\n';
    assert forall c :: c in "# Steps You've Taken So Far" ==> c != '\n';
    assert forall c :: c in "# Current Active Dom Elements" ==> c != '\n';
    assert forall c :: c in VerifyDomHeading ==> c != '\n';
  }

  /** Read line by line, the act prompt holds the goal, the steps and the DOM, each right
      under its own heading and in that order. */
  lemma {:induction false} ActUserPromptLines(action: string, domElements: string, steps: string)
    requires '\n' !in action && '\n' !in domElements && '\n' !in steps
    ensures var m := BuildActUserPrompt(action, domElements, steps);
      m.role == "user" &&
      Strings.Split(m.content, '\n') ==
        ["", "# My Goal", action, "", "# Steps You've Taken So Far", steps, "",
         "# Current Active Dom Elements", domElements, ""]
  {
    HeadingsAreSingleLines();
    Strings.SplitJoin(["", "# My Goal", action, "", "# Steps You've Taken So Far", steps, "",
                       "# Current Active Dom Elements", domElements, ""], '\n');
  }

  /** Read line by line, the verifier's prompt holds the goal and the steps under their
      headings, then the DOM under its heading when DOM text is given and non-empty. */
  lemma {:induction false} VerifyPromptLines(goal: string, steps: string, domElements: Option<string>)
    requires '\n' !in goal && '\n' !in steps && (domElements.Some? ==> '\n' !in domElements.value)
    ensures Strings.Split(BuildVerifyActCompletionUserPrompt(goal, steps, domElements).content, '\n') ==
      ["", "# My Goal", goal, "", "# Steps You've Taken So Far", steps] +
      (if domElements.Some? && domElements.value != "" then ["", VerifyDomHeading, domElements.value] else []) +
      [""]
  {
    HeadingsAreSingleLines();
    if domElements.Some? && domElements.value != "" {
      var lines := ["", "# My Goal", goal, "", "# Steps You've Taken So Far", steps,
                    "", VerifyDomHeading, domElements.value, ""];
      Strings.SplitJoin(lines, '\n');
      assert ["", "# My Goal", goal, "", "# Steps You've Taken So Far", steps] +
             ["", VerifyDomHeading, domElements.value] + [""] == lines;
    } else {
      var lines := ["", "# My Goal", goal, "", "# Steps You've Taken So Far", steps, ""];
      Strings.SplitJoin(lines, '\n');
      assert ["", "# My Goal", goal, "", "# Steps You've Taken So Far", steps] + [] + [""] == lines;
    }
  }

  /** The verifier's prompt has a DOM heading line exactly when DOM text is given and non-empty. */
  lemma VerifyPromptDomSection(goal: string, steps: string, domElements: Option<string>)
    requires '\n' !in goal && '\n' !in steps && (domElements.Some? ==> '\n' !in domElements.value)
    requires goal != VerifyDomHeading && steps != VerifyDomHeading
    ensures var lines := Strings.Split(BuildVerifyActCompletionUserPrompt(goal, steps, domElements).content, '\n');
      (VerifyDomHeading in lines <==> domElements.Some? && domElements.value != "") &&
      |lines| >= 7 && lines[..6] == ["", "# My Goal", goal, "", "# Steps You've Taken So Far", steps]
  {
    VerifyPromptLines(goal, steps, domElements);
    var lines := Strings.Split(BuildVerifyActCompletionUserPrompt(goal, steps, domElements).content, '\n');
    assert |VerifyDomHeading| != |""| && |VerifyDomHeading| != |"# My Goal"| &&
           |VerifyDomHeading| != |"# Steps You've Taken So Far"|;
    if domElements.Some? && domElements.value != "" {
      assert lines[7] == VerifyDomHeading;
    } else {
      assert |lines| == 7;
    }
  }

  /** The verifier's prompt says "None" for the steps when none are given. */
  lemma VerifyPromptDefaultSteps(goal: string)
    ensures BuildVerifyActCompletionUserPrompt(goal) == BuildVerifyActCompletionUserPrompt(goal, "None", None)
  {
  }

  /** The metadata prompt lists the instruction, the extracted content, the chunks seen and
      the chunks total, one per line and in that order. */
  lemma {:induction false} MetadataPromptLines(instruction: string, extractionResponse: PyValue.Value,
                                               chunksSeen: int, chunksTotal: int)
    requires '\n' !in instruction && '\n' !in PyValue.StrOf(extractionResponse)
    ensures Strings.Split(BuildMetadataPrompt(instruction, extractionResponse, chunksSeen, chunksTotal).content, '\n') ==
      ["Instruction: " + instruction,
       "Extracted content: " + PyValue.StrOf(extractionResponse),
       "Chunks seen: " + Strings.IntToString(chunksSeen),
       "Chunks total: " + Strings.IntToString(chunksTotal)]
  {
    var s := Strings.IntToString(chunksSeen);
    var t := Strings.IntToString(chunksTotal);
    assert '\n' !in "Chunks seen: " + s by {
      assert forall i :: 0 <= i < |s| ==> s[i] != '\n';
    }
    assert '\n' !in "Chunks total: " + t by {
      assert forall i :: 0 <= i < |t| ==> t[i] != '\n';
    }
    Strings.SplitJoin(["Instruction: " + instruction,
                       "Extracted content: " + PyValue.StrOf(extractionResponse),
                       "Chunks seen: " + s, "Chunks total: " + t], '\n');
  }

  /** The refine prompt lists the instruction, the previous content and the new content,
      one per line and in that order, and ends with the "Refined content:" line. */
  lemma {:induction false} RefinePromptLines(instruction: string, previouslyExtracted: PyValue.Value,
                                             newlyExtracted: PyValue.Value)
    requires '\n' !in instruction && '\n' !in PyValue.StrOf(previouslyExtracted) && '\n' !in PyValue.StrOf(newlyExtracted)
    ensures Strings.Split(BuildRefineUserPrompt(instruction, previouslyExtracted, newlyExtracted).content, '\n') ==
      ["Instruction: " + instruction,
       "Previously extracted content: " + PyValue.StrOf(previouslyExtracted),
       "Newly extracted content: " + PyValue.StrOf(newlyExtracted),
       "Refined content:"]
  {
    Strings.SplitJoin(["Instruction: " + instruction,
                       "Previously extracted content: " + PyValue.StrOf(previouslyExtracted),
                       "Newly extracted content: " + PyValue.StrOf(newlyExtracted),
                       "Refined content:"], '\n');
  }

  /** The extract and observe user messages: an instruction line, then an indented DOM line
      (and, for extraction, an indented "Extracted content:" line). */
  lemma {:induction false} ExtractAndObserveUserLines(instruction: string, domElements: string)
    requires '\n' !in instruction && '\n' !in domElements
    ensures Strings.Split(BuildExtractUserPrompt(instruction, domElements).content, '\n') ==
      ["Instruction: " + instruction, "    DOM: " + domElements, "    Extracted content:"]
    ensures Strings.Split(BuildObserveUserMessage(instruction, domElements).content, '\n') ==
      ["instruction: " + instruction, "    DOM: " + domElements]
  {
    Strings.SplitJoin(["Instruction: " + instruction, "    DOM: " + domElements, "    Extracted content:"], '\n');
    Strings.SplitJoin(["instruction: " + instruction, "    DOM: " + domElements], '\n');
  }

  /** The act call offers exactly two function tools, `doAction` first and `skipSection` second. */
  lemma ActToolsShape()
    ensures |ActTools| == 2
    ensures forall i :: 0 <= i < 2 ==> ActTools[i].kind == LLMClient.FunctionToolType && ActTools[i].func.Some?
    ensures ActTools[0].func.value.name == "doAction" && ActTools[1].func.value.name == "skipSection"
    ensures ActTools[0].func.value.parameters.required == ["method", "element", "args", "step", "why", "completed"]
    ensures ActTools[1].func.value.parameters.required == ["reason"]
  {
  }
}
