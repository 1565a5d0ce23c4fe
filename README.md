# stagehand-py, modelled in Dafny

Stagehand drives a web browser from natural-language instructions. Its controller,
`Stagehand`, keeps a log and a queue of logs waiting for the browser console. Its `act`
operation runs a loop. Each invocation of the loop looks at one chunk of the page and asks
a language model what to do there. It then does one of these:

- looks at another chunk;
- switches to screenshots ("vision");
- retries;
- carries on with the next step;
- stops.

The inference layer builds the prompts, sends them to the backend that the provider selects
for the model name, and interprets the replies. The other parts modelled here:

- a file-backed cache of actions and observations;
- the screenshot service that draws numbered boxes around page elements;
- the DOM processor that assigns elements to viewport chunks.

The model has one module per source file:

| module | file |
|---|---|
| `Stagehand` | `stagehand.py` (log, log queue, `act`) |
| `ActLoop` | `stagehand.py` (`_act`, as intended) |
| `ActLoopAsWritten` | `stagehand.py` (`_act`, as written) |
| `Inference` | `lib/inference.py` |
| `Prompt` | `lib/prompt.py` |
| `Cache` | `lib/cache.py` |
| `LLMProvider` | `lib/llm/LLMProvider.py` |
| `LLMClient` | `lib/llm/LLMClient.py` |
| `Vision` | `lib/vision.py` |
| `DomProcessor` | `lib/dom/processor.py` |

`Wrappers`, `Strings` and `PyValue` are shared helpers:

- `Option` and `Result`;
- Python's `split`, `join` and `replace`;
- Python values with `str()`.

The browser and the language model are oracles, given as parameters:

- Each invocation of the action loop consumes one `Turn`. A turn holds the chunk the page
  processing looked at, its DOM text and selector map, and the model's decision. It also
  holds the error the browser raised, if any, and the verifier's response.
- The model's replies to `act` are a function of the retry counter.
- The screenshot service's element lookup is a function from selector to an optional
  rectangle.

Each inference operation returns the requests it sent along with its result, so the
properties can say what was asked as well as what came back.

Where the code holds state, the model keeps that state in classes:

- the `Stagehand` controller: its log lines, queue, console calls and recorded actions;
- the chunk list that all invocations of one `act` share;
- the cache's disk;
- the screenshot service's boxes and number positions;
- the DOM elements' chunk ids.

Methods on these classes are proved against recursive specification functions. For example,
`Stagehand.Stagehand.ActInvocation` is a recursive method that updates the shared chunk list
in place. Its outcome, final chunk list and recorded actions are proved equal to those of
the function `ActLoop.Run`. The lemmas about the whole loop are stated over `Run`.

## Model

| member | source | states |
|---|---|---|
| Stagehand.FormatParses | stagehand.py:62-63 | a log line `[stagehand:category] message` reads back to its message and to its category, which is dropped when it is empty |
| Stagehand.ConsoleCallOf | stagehand.py:98-104 | the console call carries the formatted line. It is `console.error` exactly when the lower-cased message contains "trace" or "error:", and `console.log` otherwise |
| Stagehand.RemoveIdMembership | stagehand.py:106-107 | filtering the queue by id keeps exactly the logs whose id differs |
| Stagehand.DrainMembership | stagehand.py:84-87 | after sending a copy of the queue in order, a log stays queued exactly when no sendable log with its id was sent |
| Stagehand.NoDriverKeepsQueue | stagehand.py:93-94 | with no driver attached, nothing is sent and the queue is unchanged |
| Stagehand.ResolveModel | stagehand.py:181 | the given model name is used unless it is missing or empty; otherwise the default is used |
| Stagehand.ActFrame | stagehand.py:163-171 | `act` starts with no chunk seen and no retry. "fallback" becomes no vision. The verifier uses vision exactly when the decider does |
| Stagehand.ChunkList.constructor | stagehand.py:168 | the shared chunk list starts empty |
| Stagehand.Stagehand.constructor | stagehand.py:26-56 | a new controller has no driver, default model "gpt-4", an empty queue and the processing guard off |
| Stagehand.Stagehand.SetDriver | stagehand.py:520-522 | a driver is attached afterwards |
| Stagehand.Stagehand.Log | stagehand.py:58-76 | level 1 (the default) appends the line to the info log and level 2 to the debug log. Only under "BROWSERBASE" is the log queued; the queue is then processed unless processing is already under way |
| Stagehand.Stagehand.RunLogProcessing | stagehand.py:78-89 | re-entry does nothing. Otherwise the new queue and console are `Drain` and `ConsoleCalls` over a copy of the old queue, and the guard ends as it began |
| Stagehand.Stagehand.LogToConsole | stagehand.py:91-111 | with a driver and verbosity at least the log's level, one console call is made and every log with that id leaves the queue. Otherwise nothing changes |
| Stagehand.Stagehand.Act | stagehand.py:158-171 | `act` returns the outcome of `Run` from `ActFrame` with the resolved model, and records what `Run` records |
| Stagehand.Stagehand.ActInvocation | stagehand.py:173-518 | one `_act` invocation, recursing on the shared chunk list. Its outcome, the list it leaves and the actions it records equal those of `Run` |
| Stagehand.ActNeverEscalates | stagehand.py:163 | because `act` maps "fallback" to no vision, no run started by `act` ever switches vision on |
| Stagehand.ActChunksBounded | stagehand.py:259-260 | in a run of `act`, the chunk list is empty or shorter than the chunk count, and it grows by at most one per invocation |
| ActLoop.VisionReset | stagehand.py:183-190 | a model without vision turns both vision flags off. A vision model keeps the frame |
| ActLoop.IdText | stagehand.py:307 | an element id's decimal text has no colon and no newline |
| ActLoop.FirstLineField | stagehand.py:306-307 | on a line starting `id:`, the element text is the field after the first colon, up to the next colon or the end |
| ActLoop.FirstFieldAt | stagehand.py:305-309 | the first line starting `id:` decides the element text; earlier lines are skipped |
| ActLoop.FirstFieldMissing | stagehand.py:308 | with no line for the id, the text is "Element not found" |
| ActLoop.NarrativeLines | stagehand.py:413-419 | the narrative splits into the step, element, action and reasoning lines, followed by an empty line |
| ActLoop.NextIsStep | stagehand.py:258-290 | a nested invocation is made exactly on one of four transitions. These are: another chunk (seen list grows, counter reset), vision switched on from fallback, a retry of a failed or invalid attempt below two retries (counter + 1), and an unverified step (counter reset) |
| ActLoop.FinalEnds | stagehand.py:291-296 | an invocation that makes no nested one ends as `Ends` says. No chunk left: "not completed". Unknown element: KeyError. Third failure: "Error performing action", recorded with an empty step. Third invalid method: "Internal error". Verified completion: success with the narrative, recording the step |
| ActLoop.Run | stagehand.py:173-181 | the run makes at most one invocation per turn |
| ActLoop.RunChain | stagehand.py:258-290 | the frames of a run form a chain of the four transitions between vision-normalised frames, starting from the reset entry frame, with one frame per turn consumed |
| ActLoop.RunEnds | stagehand.py:291-518 | unless the turns run out, the last invocation ends the run as `Ends` says; if they do run out, nothing was recorded |
| ActLoop.RunTrace | stagehand.py:173-518 | a run is a chain of transitions between vision-normalised frames, starting from the reset entry frame. Unless the turns run out, its last invocation ends it as `Ends` says; if they do run out, nothing was recorded |
| ActLoop.StepsRetriesBounded | stagehand.py:396-403 | along a chain starting with a counter in 0..2, the counter stays in 0..2 |
| ActLoop.NoThreeRetriesInARow | stagehand.py:502-511 | no three consecutive transitions are retries, so a failing attempt is made at most three times |
| ActLoop.StepsKeepVision | stagehand.py:268-275 | a vision mode other than fallback never changes along a chain |
| ActLoop.AtMostOneEscalation | stagehand.py:276-290 | vision is switched on at most once |
| ActLoop.StepsSeen | stagehand.py:259-260 | the chunk list only grows by appending, by at most one chunk per transition, and only while fewer than the chunk count are seen |
| ActLoop.RunBounds | stagehand.py:396-405 | over a whole run entered with a counter in 0..2: every frame's counter stays in 0..2, the chunk list extends the entry list, and vision is switched on at most once |
| ActLoop.NoVisionModelNeverEscalates | stagehand.py:183-190 | with a model that cannot take images, every frame has vision off and no transition switches it on |
| ActLoop.RunSucceeds | stagehand.py:483-494 | a run succeeds only on a turn whose element exists, whose step raised nothing, which the model marked complete and the verifier confirmed. It then records exactly that step |
| ActLoop.RunRaises | stagehand.py:299-300 | an exception escapes a run only for an unsupported model (ValueError) or for an element id missing from the selector map (KeyError), and nothing is recorded |
| ActLoop.DefaultModelRaises | stagehand.py:52 | with the default model name "gpt-4", the first invocation raises "Unsupported model: gpt-4" |
| ActLoopAsWritten.RunAsWritten | stagehand.py:319-518 | `_act` with its two nested calls inside the `try`. It never consumes more turns than it is given |
| ActLoopAsWritten.Handle | stagehand.py:496-518 | the handler retries with this level's counter and vision mode, and it never consumes more turns than it is given |
| ActLoopAsWritten.TwoEscalations | stagehand.py:475-482 | a concrete run as written switches vision on twice (5 invocations) and ends "not completed". The intended loop raises KeyError on the same turns |
| ActLoopAsWritten.FiveFailedAttempts | stagehand.py:397-405 | a concrete run as written makes five failed attempts in a row before giving up. The intended loop raises KeyError on the same turns |
| Inference.ActUnsupportedModel | lib/inference.py:79 | an unsupported model fails with "Unsupported model: …" before any call is made |
| Inference.ActRequests | lib/inference.py:79-115 | every call carries the same prompts and both tools. Only the first call carries the screenshot, and it does so exactly when the screenshot is non-empty. There are between 1 and `Attempts(retries)` calls (three from a fresh start) |
| Inference.ActAnswered | lib/inference.py:97-101 | the first reply with a tool call decides: `skipSection` gives nothing, any other tool gives its arguments unchanged. The calls made are those up to that reply |
| Inference.ActExhausted | lib/inference.py:102-105 | when no allowed reply has a tool call, `act` gives nothing after exactly `Attempts(retries)` calls |
| Inference.ActArgumentsOrigin | lib/inference.py:98-101 | returned arguments always come from a non-`skipSection` first tool call of some reply within the allowed attempts |
| Inference.ActUserMessageAsWrittenSwapsSections | lib/inference.py:82 | as written, the DOM text lands under the steps heading and the steps under the DOM heading |
| Inference.ActRequestSections | lib/inference.py:80-83 | as corrected: a system then a user message, with the goal, steps and DOM each under its own heading |
| Inference.VerifyVerdict | lib/inference.py:45-67 | one call is made, with an image exactly when a non-empty screenshot is given. The verdict is truthy exactly when the response is a dict whose `completed` is truthy. A dict with `completed` yields that value; a non-dict, and a dict without `completed` (`{}` included), yields False |
| Inference.ExtractCallOrder | lib/inference.py:128-180 | exactly three calls are made, in the order extract, refine, metadata. Each has its own prompts and the user's schema, except that metadata uses its own schema |
| Inference.ExtractMetadataSeesOnlyRefined | lib/inference.py:164-180 | the metadata call depends only on the refined reply, not on the DOM, the earlier content or the raw extraction |
| Inference.ExtractResult | lib/inference.py:182-183 | the result is the refined dict with "metadata" set to the metadata reply. Other keys keep their values and their order, "metadata" goes last when it is new, and a non-dict refined reply fails |
| Inference.ExtractIgnoresProgress | lib/inference.py:119 | the `progress` argument has no effect |
| Inference.Observe | lib/inference.py:185-209 | one call is made, with the observe system prompt followed by the observe user message. The model's text is returned verbatim, and no text or empty text is the "no response when finding a selector" error |
| Inference.Ask | lib/inference.py:211-229 | one call is made with the ask messages, and the model's text (possibly none) is returned as it is |
| Prompt.ActUserPromptLines | lib/prompt.py:96-115 | a user message whose lines are the goal, steps and DOM, each under its own heading and in that order |
| Prompt.VerifyPromptLines | lib/prompt.py:66-88 | read line by line, the verifier prompt holds the goal and the steps under their headings, followed by the DOM under its heading only when DOM text is given and non-empty |
| Prompt.VerifyPromptDomSection | lib/prompt.py:66-88 | the verifier prompt has the goal and steps sections. It has a DOM heading exactly when DOM text is given and non-empty |
| Prompt.VerifyPromptDefaultSteps | lib/prompt.py:66-70 | the steps default to "None" and the DOM to absent |
| Prompt.RefinePromptLines | lib/prompt.py:175-186 | the lines are the instruction, previous content, new content and "Refined content:", in that order |
| Prompt.MetadataPromptLines | lib/prompt.py:202-214 | the lines are the instruction, extracted content, chunks seen and chunks total, in that order |
| Prompt.ExtractAndObserveUserLines | lib/prompt.py:151-158 | the extract message is an instruction line, an indented DOM line and "Extracted content:". The observe message is an instruction line and an indented DOM line |
| Prompt.ActToolsShape | lib/prompt.py:118-135 | exactly two function tools are offered: `doAction` requiring method, element, args, step, why and completed, then `skipSection` requiring a reason |
| LLMClient.FunctionTool | lib/llm/LLMClient.py:58-63 | a function-typed tool carrying exactly the given name, description and parameters, with nothing at the tool level |
| LLMClient.CreateChatCompletion | lib/llm/LLMClient.py:85-86 | the abstract client always fails with "not implemented" |
| LLMClient.CreateExtraction | lib/llm/LLMClient.py:88-89 | the abstract client always fails with "not implemented" |
| LLMClient.DefaultChatCompletionOptions | lib/llm/LLMClient.py:69-79 | every optional field of the options defaults to unset |
| LLMClient.DefaultParametersType | lib/llm/LLMClient.py:42-45 | tool parameters are an "object" schema by default |
| LLMProvider.GetClientBackends | lib/llm/LLMProvider.py:18-28 | a backend exists exactly for the six listed models: OpenAI for the five OpenAI models, Anthropic for the Claude model. Any other name fails with "Unsupported model: name" |
| LLMProvider.DefaultModelUnsupported | lib/llm/LLMProvider.py:19-21 | "gpt-4" is not supported |
| LLMProvider.VisionModelsSupported | lib/llm/LLMClient.py:26-31 | the four vision models are distinct and each has a backend |
| Cache.ReadStore | lib/cache.py:30-35 | a missing or unparsable store reads as empty |
| Cache.WriteStore | lib/cache.py:65-69 | after a write, the store reads back as before with the key set, and no other file changes |
| Cache.InitFiles | lib/cache.py:86-94 | each missing store is created empty, and every existing file is kept |
| Cache.Cache.constructor | lib/cache.py:17-23 | an enabled cache creates its directory and missing stores. A disabled one leaves the disk alone |
| Cache.Cache.InitCache | lib/cache.py:75-94 | a disabled cache changes nothing. Otherwise the directory exists afterwards and the files are `InitFiles` of the old ones. The disk stays consistent: no store exists without the cache directory |
| Cache.Cache.ReadObservations | lib/cache.py:25-35 | a disabled cache reads empty. Otherwise the result is the observations store. On a consistent disk without the cache directory it is empty |
| Cache.Cache.ReadActions | lib/cache.py:37-47 | a disabled cache reads empty. Otherwise the result is the actions store. On a consistent disk without the cache directory it is empty |
| Cache.Cache.WriteAt | lib/cache.py:54-58 | read-modify-write of one store. Disabled: nothing changes. Directory missing: FileNotFoundError and nothing changes. Otherwise: `WriteStore`. The disk stays consistent |
| Cache.Cache.WriteObservations | lib/cache.py:49-58 | writing an observation gives `WriteStore` on the observations path, or nothing when the cache is disabled, or an error when the directory is missing |
| Cache.Cache.WriteActions | lib/cache.py:60-69 | writing an action gives `WriteStore` on the actions path, or nothing when the cache is disabled, or an error when the directory is missing |
| Cache.Cache.EvictCache | lib/cache.py:71-73 | always raises NotImplementedError("implement me") |
| Cache.LastWriteWins | lib/cache.py:66-69 | writing one key twice keeps the last value |
| Cache.WritesCommute | lib/cache.py:66-69 | writes to different keys commute |
| Cache.StoresIndependent | lib/cache.py:19-20 | the two stores have different paths, so writing one leaves the other's contents unchanged |
| Cache.InitIdempotent | lib/cache.py:86-94 | initialising twice is initialising once, and a freshly created store reads as empty |
| Cache.CorruptStoreIsReplaced | lib/cache.py:42-47 | writing into an unparsable store leaves that single entry alone |
| Cache.DisabledCacheIsInert | lib/cache.py:17-28 | a disabled cache never changes the disk, whether constructed, read or written |
| Cache.WriteThenRead | lib/cache.py:60-69 | with an enabled cache, a write followed by a read returns the value written |
| Vision.GetScreenshot | lib/vision.py:49-68 | a given, non-zero quality outside 0..100 is refused with the quality error. A quality in 1..100 gives the re-encoded image; no quality, or 0, gives the raw image |
| Vision.SquaredComparison | lib/vision.py:191 | comparing the squared distance with 24² is the same as comparing the distance with 24 |
| Vision.IsNumberOverlapping | lib/vision.py:188-193 | true exactly when some placed number is closer than two radii |
| Vision.Shifts | lib/vision.py:181-183 | the loop shifts at most ten times |
| Vision.ShiftsStop | lib/vision.py:181-183 | every position passed over overlaps, and the final one overlaps nothing unless all ten shifts were used |
| Vision.PlacementSpec | lib/vision.py:170-186 | the number starts a radius up and left of the box and moves only down, in steps of 5, at most ten times. Unless all ten moves were used, it ends at least 24 from every placed number |
| Vision.PlacementOnEmpty | lib/vision.py:172-175 | with nothing placed, the number stays at its start |
| Vision.Placements | lib/vision.py:185 | placing numbers for boxes in order gives one per box, each a radius left of its box |
| Vision.PlacementsPrefix | lib/vision.py:185 | placing more numbers never moves the ones already placed |
| Vision.Boxes | lib/vision.py:95-96 | one box per selector entry the browser finds, each the element's rectangle shifted by the scroll |
| Vision.BoxesSnoc | lib/vision.py:95-96 | one more selector entry adds its box when the browser finds it, and nothing otherwise |
| Vision.PlacementsSnoc | lib/vision.py:185 | one more box places one more number, given the numbers before it |
| Vision.BoxesCount | lib/vision.py:114-127 | when every entry is found, there is one box per entry |
| Vision.ScreenshotService.constructor | lib/vision.py:30-42 | a new service has the selector map and empty box and number lists |
| Vision.ScreenshotService.FindNonOverlappingNumberPosition | lib/vision.py:170-186 | the returned position is `Placement` of the old positions, and it is appended to them |
| Vision.ScreenshotService.CreateElementAnnotation | lib/vision.py:107-168 | a found element appends its box and its placed number. An element the lookup fails on changes nothing |
| Vision.ScreenshotService.GetAnnotatedScreenshot | lib/vision.py:82-96 | starting from empty lists, the boxes become `Boxes` of the selector map and the numbers become `Placements` of those boxes |
| DomProcessor.DOMElement.constructor | lib/dom/processor.py:7-15 | an element holds the given fields and starts in chunk 0 |
| DomProcessor.DOMProcessor.constructor | lib/dom/processor.py:18-20 | the chunk count is the one given, 3 by default |
| DomProcessor.DOMProcessor.ChunkElements | lib/dom/processor.py:53-62 | a zero chunk count is a division error that changes nothing. Otherwise it succeeds exactly when the list is empty, or every element has a "y" and the band height is non-zero (a zero viewport height is a float division error at the first element with a "y"); each element's chunk id then becomes its band. On error, the elements before the first failing one were updated and the rest are untouched |
| DomProcessor.ChunkOfBand | lib/dom/processor.py:59 | an element in band [k·h, (k+1)·h) is in chunk k |
| DomProcessor.ChunkMonotone | lib/dom/processor.py:59 | lower on the page never means an earlier chunk |
| DomProcessor.ChunkWithinViewport | lib/dom/processor.py:55-59 | an element inside the viewport is in one of the chunk-count chunks |
| DomProcessor.SlightlyAboveIsChunkZero | lib/dom/processor.py:59 | truncation toward zero puts an element less than one band above the viewport in chunk 0 too |

## Left out

**Browser, model and environment**
- Selenium driver work is not modelled: DOM settling, DOM debugging, the injected scripts, clicking and scrolling, tab handling, waits. Its effect on the loop is the turn's `fault`.
- `Stagehand.init`, `download_pdf` and the other browser helpers of the controller are not modelled; they are driver work.
- The vendor clients (`openai_client`, `anthropic_client`), `lib/browserbase.py`, `utils/` and `evals/` are not part of this model.
- The model's replies and the verifier's response are oracles. Their JSON decoding is taken as given.
- `DOMProcessor.process_dom` is not modelled, nor the script injection and element fetch it makes; the elements come from the browser.
- The DOM processor's viewport height is a parameter.
- The md5-of-time log id is a parameter of `Log`.
- Logging inside `_act`, `inference` and the screenshot service is not modelled. Those `log` calls only write text.
- The logger is modelled as two lists of lines.
- Stagehand.Stagehand.LogToConsole: exceptions from `execute_script` inside `_log_to_browserbase` are not modelled, and the model always removes the sent entry from the queue. In the source the exception is swallowed before the entry is removed, so a log whose script fails stays queued and is sent again on every later processing; this happens to any message containing `'` or a newline, such as the `Trace:` messages logged at stagehand.py:337 and stagehand.py:499.

**Vision and images**
- Drawing, PNG/JPEG encoding and `save_and_open_screenshot` are not modelled. The JPEG bytes are a parameter of `Vision.GetScreenshot`.
- Resizing the window for a full-page screenshot is not modelled.
- `get_screenshot_pixel_count` is not modelled.
- Vision.SquaredComparison: the square root in `_is_number_overlapping` is floating point. The model compares squared distances over the reals and proves the comparison agrees with comparing the root.
- Coordinates are reals, not floats.

**Data and encoding**
- Python's `str()` of values is modelled without the escaping of quotes and backslashes inside strings.
- `Strings.Lower` lower-cases ASCII letters only.
- The sampling settings (temperature 0.1, top_p 1, both penalties 0) are not carried in the modelled requests.
- Cache files are either a JSON object of entries or unparsable. A valid JSON file that is not an object is treated as unparsable, and the key order inside a file is not modelled.
- The extract and observe system prompts apply `str.replace` with the literal text `\s+`. The model applies the same literal replace. It does not prove that the replace leaves those texts unchanged.

**Loop modelling choices**
- Several parts of the loop are modelled as intended, because as written they make every `_act` invocation fail:
  - `models_with_vision.includes`;
  - the `steps=` keyword passed to `_act`;
  - `record_action`;
  - the dict passed to `inference.act`;
  - the model's `doAction` arguments, which arrive as a JSON string and are indexed as a dict;
  - selector-map keys, which are strings in the browser's JSON but are looked up with the element id.
- ActLoop.Run: the number of chunks is fixed for a run. The loop is driven by a finite list of turns, and a run that uses them up ends `OutOfTurns`, where nothing is recorded.
- ActLoop.Run: its own contract bounds only the number of invocations. What it computes is stated by `RunTrace`, `RunBounds`, `RunSucceeds` and `RunRaises`.
- The steps text that `_act` builds is not passed to the model's `act`, matching the hard-coded `""` in the call, so it is not carried.
- A level given explicitly as `None` in a log dict is not modelled: `Level` treats an absent level as 1.
- Inference.Act: the model's reply is indexed by the retry counter, so replies to different `act` calls with the same counter are the same oracle value.

## Findings

| source | as written | input that shows it | evidently intended | confidence | as-written member | corrected member |
|---|---|---|---|---|---|---|
| stagehand.py:397-405 | the nested `_act` calls after an invalid method and after an unverified step are inside the `try`. An exception escaping them is caught one level up and retried again, with that level's counter and vision mode | vision on fallback and one chunk. Turns: a step not completed, no decision, an unknown element id, no decision, no decision. Vision is switched on twice and the run takes five invocations; this half needs `_act` entered directly with `use_vision="fallback"`, which `act` never passes (stagehand.py:163). An invalid method followed by an unknown element, twice over, makes five failed attempts; this half is reachable through `act` | the exception of a nested invocation propagates. A run makes at most three attempts in a row, switches vision on at most once, and raises KeyError on these turns | not executed | ActLoopAsWritten.TwoEscalations, ActLoopAsWritten.FiveFailedAttempts | ActLoop.RunBounds, ActLoop.NoThreeRetriesInARow, ActLoop.AtMostOneEscalation |
| lib/inference.py:82 | `build_act_user_prompt(action, steps, dom_elements)` passes the steps and the DOM text in each other's positions | action "a", DOM "d", steps "s": the steps section reads "d" and the DOM section reads "s" | the steps sit under the steps heading and the DOM under the DOM heading | not executed | Inference.ActUserMessageAsWrittenSwapsSections | Inference.ActRequestSections |
