/** The control loop behind `act`: each invocation looks at one chunk of the page, asks the
    model what to do there, and then moves to another chunk, switches to vision, retries,
    continues with the next step, or stops. The browser and the model are oracles: each
    invocation consumes one `Turn`, which says what the page and the model answered. The
    loop is a function of its frame (the chunks seen so far, the two vision flags and the
    retry counter) and of the turns; `Run` gives the outcome together with the frames it
    passed through, so that properties of the whole run can be stated over them. */
module ActLoop {
  import opened Wrappers
  import Strings
  import PyValue
  import LLMClient
  import LLMProvider
  import Inference

  /** `use_vision`: `False`, `True` or `"fallback"`. */
  datatype VisionMode = Off | On | Fallback

  /** The arguments of the model's `doAction` call. */
  datatype Decision = Decision(
    element: int,
    methodName: string,
    args: seq<string>,
    step: string,
    why: Option<string>,
    completed: bool)

  /** What one invocation meets: the chunk the DOM processing looked at, its text and its
      selector map, the model's decision (none: nothing to do in this chunk), the error the
      browser raised when finding or clicking the element, if any, and the verifier
      model's response. */
  datatype Turn = Turn(
    chunk: int,
    outputString: string,
    selectorMap: map<int, string>,
    decision: Option<Decision>,
    fault: Option<string>,
    verdict: PyValue.Value)

  /** The arguments one invocation is entered with. */
  datatype Frame = Frame(seen: seq<int>, useVision: VisionMode, verifierUseVision: bool, retries: int)

  datatype ActResult = ActResult(success: bool, message: string, action: string)

  /** How an invocation ends: with a result, with an exception escaping it (its type and
      its text), or because the turns ran out. */
  datatype Outcome = Returned(result: ActResult) | Raised(kind: string, text: string) | OutOfTurns

  /** The outcome, the chunk list as it stands at the end, the actions recorded, and the
      frames of the invocations that ran, in order. */
  datatype Trace = Trace(outcome: Outcome, seen: seq<int>, recorded: seq<(string, string)>, visits: seq<Frame>)

  const NotCompletedMessage: string := "Action was not able to be completed."
  const ElementNotFound: string := "Element not found"
  const NoneConcatenation: string := "can only concatenate str (not \"NoneType\") to str"

  /** A model that cannot take images turns both vision flags off. */
  function VisionReset(model: string, f: Frame): (g: Frame)
    ensures g.seen == f.seen && g.retries == f.retries
    ensures LLMClient.SupportsVision(model) ==> g == f
    ensures !LLMClient.SupportsVision(model) ==> g.useVision == Off && !g.verifierUseVision
  {
    if !LLMClient.SupportsVision(model) && (f.useVision != Off || f.verifierUseVision) then
      f.(useVision := Off, verifierUseVision := false)
    else f
  }

  /** A frame the reset leaves alone. */
  predicate Normalized(model: string, f: Frame) {
    LLMClient.SupportsVision(model) || (f.useVision == Off && !f.verifierUseVision)
  }

  // ---------------------------------------------------------------- element text and narrative

  /** The text after `id:` on the first line that starts with it, up to the next colon. */
  function FirstField(lines: seq<string>, id: string): string
    requires ':' !in id
  {
    if lines == [] then ElementNotFound
    else if Strings.StartsWith(lines[0], id + ":") then
      var line := lines[0];
      assert line == id + [':'] + line[|id| + 1..] by {
        assert line[..|id| + 1] == id + ":";
        assert line == line[..|id| + 1] + line[|id| + 1..];
      }
      Strings.SplitAfterHead(id, line[|id| + 1..], ':');
      Strings.Split(line, ':')[1]
    else FirstField(lines[1..], id)
  }

  function IdText(id: int): (s: string)
    ensures ':' !in s && '\n' !in s
  {
    var s := Strings.IntToString(id);
    assert forall i :: 0 <= i < |s| ==> s[i] != ':' && s[i] != '\n';
    s
  }

  /** The element's text as listed in the DOM text: the field after its id. */
  function ElementText(outputString: string, id: int): string {
    FirstField(Strings.Split(outputString, '\n'), IdText(id))
  }

  /** `line` lists `field` for `id`: the id, a colon, the field, and then nothing or a
      further colon. */
  ghost predicate ListsField(line: string, id: string, field: string) {
    ':' !in field &&
    exists tail :: line == id + ":" + field + tail && (tail == [] || tail[0] == ':')
  }

  /** The field of a line for `id` is what `FirstField` gives for that line alone. */
  lemma FirstLineField(line: string, id: string)
    requires ':' !in id && Strings.StartsWith(line, id + ":")
    ensures ListsField(line, id, FirstField([line], id))
  {
    var rest := line[|id| + 1..];
    assert line == id + ":" + rest by {
      assert line[..|id| + 1] == id + ":";
      assert line == line[..|id| + 1] + rest;
    }
    assert line == id + [':'] + rest;
    Strings.SplitAfterHead(id, rest, ':');
    Strings.SplitHead(rest, ':');
    var tail :| rest == Strings.Split(rest, ':')[0] + tail && (tail == [] || tail[0] == ':');
    assert FirstField([line], id) == Strings.Split(rest, ':')[0];
    assert line == id + ":" + FirstField([line], id) + tail;
  }

  /** When line `k` is the first line for `id`, the text is the field it lists. */
  lemma {:induction false} FirstFieldAt(lines: seq<string>, id: string, k: nat)
    requires ':' !in id && k < |lines| && Strings.StartsWith(lines[k], id + ":")
    requires forall j :: 0 <= j < k ==> !Strings.StartsWith(lines[j], id + ":")
    ensures ListsField(lines[k], id, FirstField(lines, id))
    decreases k
  {
    if k == 0 {
      FirstLineField(lines[0], id);
    } else {
      assert lines[1..][k - 1] == lines[k];
      assert forall j :: 0 <= j < k - 1 ==> lines[1..][j] == lines[j + 1];
      FirstFieldAt(lines[1..], id, k - 1);
    }
  }

  /** Without a line for the id the text is "Element not found". */
  lemma {:induction false} FirstFieldMissing(lines: seq<string>, id: string)
    requires ':' !in id
    requires forall k :: 0 <= k < |lines| ==> !Strings.StartsWith(lines[k], id + ":")
    ensures FirstField(lines, id) == ElementNotFound
  {
    if lines != [] {
      assert forall k :: 0 <= k < |lines| - 1 ==> lines[1..][k] == lines[k + 1];
      FirstFieldMissing(lines[1..], id);
    }
  }

  /** The step narrative: step, element, action and reasoning, one per line. */
  function Narrative(d: Decision, elementText: string): string {
    Strings.Join(["## Step: " + d.step, "  Element: " + elementText, "  Action: " + d.methodName,
                  "  Reasoning: " + d.why.GetOr(""), ""], '\n')
  }

  /** Read back line by line, the narrative gives its four parts in order. */
  lemma NarrativeLines(d: Decision, elementText: string)
    requires '\n' !in d.step && '\n' !in elementText && '\n' !in d.methodName && '\n' !in d.why.GetOr("")
    ensures Strings.Split(Narrative(d, elementText), '\n') ==
      ["## Step: " + d.step, "  Element: " + elementText, "  Action: " + d.methodName,
       "  Reasoning: " + d.why.GetOr(""), ""]
  {
    Strings.SplitJoin(["## Step: " + d.step, "  Element: " + elementText, "  Action: " + d.methodName,
                       "  Reasoning: " + d.why.GetOr(""), ""], '\n');
  }

  // ---------------------------------------------------------------- one invocation

  /** What happens inside the `try` once an element is chosen: the browser raised, the
      method is not one the loop executes, the narrative cannot be built (no reasoning),
      the action is done and verified, or it is not (yet). */
  datatype Attempt = Faulted(error: string) | InvalidMethod | Completed | NotCompleted

  function AttemptOf(t: Turn, d: Decision): Attempt {
    if t.fault.Some? then Faulted(t.fault.value)
    else if d.methodName != "scrollIntoView" && d.methodName != "click" then InvalidMethod
    else if d.why.None? then Faulted(NoneConcatenation)
    else if d.completed && PyValue.Truthy(Inference.Verdict(t.verdict)) then Completed
    else NotCompleted
  }

  /** The frame of the nested invocation made on turn `t`, if one is made: another chunk,
      vision switched on, a retry, or the next step. */
  function Next(n: nat, f: Frame, t: Turn): Option<Frame> {
    match t.decision
    case None =>
      if |f.seen| + 1 < n then Some(f.(seen := f.seen + [t.chunk], retries := 0))
      else if f.useVision == Fallback then Some(f.(useVision := On, retries := 0))
      else None
    case Some(d) =>
      if d.element !in t.selectorMap then None
      else match AttemptOf(t, d)
        case Faulted(_) => if f.retries < 2 then Some(f.(retries := f.retries + 1)) else None
        case InvalidMethod => if f.retries < 2 then Some(f.(retries := f.retries + 1)) else None
        case Completed => None
        case NotCompleted => Some(f.(retries := 0))
  }

  /** How an invocation that makes no nested one ends. */
  function Final(action: string, n: nat, f: Frame, t: Turn): Trace
    requires Next(n, f, t).None?
  {
    match t.decision
    case None => Trace(Returned(ActResult(false, NotCompletedMessage, action)), f.seen, [], [f])
    case Some(d) =>
      if d.element !in t.selectorMap then Trace(Raised("KeyError", IdText(d.element)), f.seen, [], [f])
      else match AttemptOf(t, d)
        case Faulted(e) =>
          Trace(Returned(ActResult(false, "Error performing action: " + e, action)), f.seen, [(action, "")], [f])
        case InvalidMethod =>
          Trace(Returned(ActResult(false, "Internal error: Chosen method " + d.methodName + " is invalid", action)),
                f.seen, [], [f])
        case _ =>
          Trace(Returned(ActResult(true, "Action completed successfully: " +
                                         Narrative(d, ElementText(t.outputString, d.element)), action)),
                f.seen, [(action, d.step)], [f])
  }

  function Then(f: Frame, sub: Trace): Trace {
    sub.(visits := [f] + sub.visits)
  }

  /** `_act` as intended: reset the vision flags, resolve the model, and either end or make
      the nested invocation, whose outcome is this invocation's outcome. */
  function Run(action: string, model: string, n: nat, frame: Frame, turns: seq<Turn>): (r: Trace)
    ensures |r.visits| <= |turns|
    decreases |turns|
  {
    if turns == [] then Trace(OutOfTurns, frame.seen, [], [])
    else
      var f := VisionReset(model, frame);
      var client := LLMProvider.GetClient(model);
      if client.Failure? then Trace(Raised("ValueError", client.error), f.seen, [], [f])
      else match Next(n, f, turns[0])
        case Some(g) => Then(f, Run(action, model, n, g, turns[1..]))
        case None => Final(action, n, f, turns[0])
  }

  // ---------------------------------------------------------------- the transitions

  /** No decision and a chunk left: remember this chunk and look at another. */
  predicate Advance(n: nat, f: Frame, g: Frame, t: Turn) {
    t.decision.None? && |f.seen| + 1 < n && g == f.(seen := f.seen + [t.chunk], retries := 0)
  }

  /** No decision, no chunk left, vision on fallback: try again with vision on. */
  predicate Escalate(n: nat, f: Frame, g: Frame, t: Turn) {
    t.decision.None? && |f.seen| + 1 >= n && f.useVision == Fallback &&
    g == f.(useVision := On, retries := 0)
  }

  /** The chosen element exists but the attempt faulted or named an invalid method, and
      fewer than two retries were made: try again with the counter one higher. */
  predicate Retry(f: Frame, g: Frame, t: Turn) {
    t.decision.Some? && t.decision.value.element in t.selectorMap &&
    (AttemptOf(t, t.decision.value).Faulted? || AttemptOf(t, t.decision.value).InvalidMethod?) &&
    f.retries < 2 && g == f.(retries := f.retries + 1)
  }

  /** The step was executed but the action is not verified complete: carry on. */
  predicate Proceed(f: Frame, g: Frame, t: Turn) {
    t.decision.Some? && t.decision.value.element in t.selectorMap &&
    AttemptOf(t, t.decision.value) == NotCompleted && g == f.(retries := 0)
  }

  predicate Step(n: nat, f: Frame, g: Frame, t: Turn) {
    Advance(n, f, g, t) || Escalate(n, f, g, t) || Retry(f, g, t) || Proceed(f, g, t)
  }

  /** The nested invocation is made exactly on the four transitions. */
  lemma NextIsStep(n: nat, f: Frame, g: Frame, t: Turn)
    ensures Next(n, f, t) == Some(g) <==> Step(n, f, g, t)
  {
  }

  /** How the last invocation of a run that did not run out of turns ends. */
  predicate Ends(action: string, model: string, n: nat, f: Frame, t: Turn, outcome: Outcome,
                 recorded: seq<(string, string)>)
  {
    if LLMProvider.GetClient(model).Failure? then
      outcome == Raised("ValueError", "Unsupported model: " + model) && recorded == []
    else match t.decision
      case None =>
        |f.seen| + 1 >= n && f.useVision != Fallback &&
        outcome == Returned(ActResult(false, NotCompletedMessage, action)) && recorded == []
      case Some(d) =>
        if d.element !in t.selectorMap then outcome == Raised("KeyError", IdText(d.element)) && recorded == []
        else match AttemptOf(t, d)
          case Faulted(e) =>
            f.retries >= 2 && outcome == Returned(ActResult(false, "Error performing action: " + e, action)) &&
            recorded == [(action, "")]
          case InvalidMethod =>
            f.retries >= 2 &&
            outcome == Returned(ActResult(false, "Internal error: Chosen method " + d.methodName + " is invalid", action)) &&
            recorded == []
          case Completed =>
            t.fault.None? && d.why.Some? && d.completed && PyValue.Truthy(Inference.Verdict(t.verdict)) &&
            outcome == Returned(ActResult(true, "Action completed successfully: " +
                                                Narrative(d, ElementText(t.outputString, d.element)), action)) &&
            recorded == [(action, d.step)]
          case NotCompleted => false
  }

  /** An invocation that makes no nested one ends as `Ends` says. */
  lemma FinalEnds(action: string, model: string, n: nat, f: Frame, t: Turn)
    requires LLMProvider.GetClient(model).Success? && Next(n, f, t).None?
    ensures Ends(action, model, n, f, t, Final(action, n, f, t).outcome, Final(action, n, f, t).recorded)
  {
  }

  /** Consecutive frames of a run are related by a transition on the turn in between. */
  predicate Steps(n: nat, visits: seq<Frame>, turns: seq<Turn>) {
    |visits| <= |turns| &&
    forall i :: 0 <= i < |visits| - 1 ==> Step(n, visits[i], visits[i + 1], turns[i])
  }

  /** A transition into the first frame of a chain extends the chain by one frame in front. */
  lemma StepsCons(n: nat, f: Frame, visits: seq<Frame>, turns: seq<Turn>)
    requires turns != [] && Steps(n, visits, turns[1..])
    requires visits != [] ==> Step(n, f, visits[0], turns[0])
    ensures Steps(n, [f] + visits, turns)
  {
    var r := [f] + visits;
    forall i | 0 <= i < |r| - 1
      ensures Step(n, r[i], r[i + 1], turns[i])
    {
      if i > 0 {
        assert r[i] == visits[i - 1] && r[i + 1] == visits[i];
        assert turns[i] == turns[1..][i - 1];
      }
    }
  }

  /** The frames of a run form a chain of transitions between normalized frames, starting
      from the reset of the frame it was entered with. */
  lemma {:induction false} RunChain(action: string, model: string, n: nat, frame: Frame, turns: seq<Turn>)
    ensures var r := Run(action, model, n, frame, turns);
      (r.visits == [] <==> turns == []) &&
      (r.visits != [] ==> r.visits[0] == VisionReset(model, frame)) &&
      (forall i :: 0 <= i < |r.visits| ==> Normalized(model, r.visits[i])) &&
      Steps(n, r.visits, turns)
    decreases |turns|
  {
    if turns != [] && LLMProvider.GetClient(model).Success? {
      var f := VisionReset(model, frame);
      var r := Run(action, model, n, frame, turns);
      if Next(n, f, turns[0]).Some? {
        var g := Next(n, f, turns[0]).value;
        var sub := Run(action, model, n, g, turns[1..]);
        assert r == Then(f, sub);
        NextIsStep(n, f, g, turns[0]);
        assert VisionReset(model, g) == g;
        RunChain(action, model, n, g, turns[1..]);
        StepsCons(n, f, sub.visits, turns);
        forall i | 0 <= i < |r.visits|
          ensures Normalized(model, r.visits[i])
        {
          if i > 0 {
            assert r.visits[i] == sub.visits[i - 1];
          }
        }
      }
    }
  }

  /** Unless the turns ran out, the last invocation of a run ends it as `Ends` says; if they
      ran out, nothing was recorded. */
  lemma {:induction false} RunEnds(action: string, model: string, n: nat, frame: Frame, turns: seq<Turn>)
    ensures var r := Run(action, model, n, frame, turns);
      (r.outcome != OutOfTurns ==>
         r.visits != [] &&
         Ends(action, model, n, r.visits[|r.visits| - 1], turns[|r.visits| - 1], r.outcome, r.recorded)) &&
      (r.outcome == OutOfTurns ==> r.recorded == [])
    decreases |turns|
  {
    if turns != [] && LLMProvider.GetClient(model).Success? {
      var f := VisionReset(model, frame);
      var r := Run(action, model, n, frame, turns);
      match Next(n, f, turns[0]) {
        case Some(g) =>
          var sub := Run(action, model, n, g, turns[1..]);
          assert r == Then(f, sub);
          RunEnds(action, model, n, g, turns[1..]);
          if r.outcome != OutOfTurns {
            assert r.visits[|r.visits| - 1] == sub.visits[|sub.visits| - 1];
            assert turns[|r.visits| - 1] == turns[1..][|sub.visits| - 1];
          }
        case None =>
          FinalEnds(action, model, n, f, turns[0]);
      }
    }
  }

  /** A run is a chain of transitions between normalized frames, starting from the reset
      of the frame it was entered with; unless the turns ran out, its last invocation ends
      it as `Ends` says, and otherwise nothing was recorded. */
  lemma RunTrace(action: string, model: string, n: nat, frame: Frame, turns: seq<Turn>)
    ensures var r := Run(action, model, n, frame, turns);
      (r.visits == [] <==> turns == []) &&
      (r.visits != [] ==> r.visits[0] == VisionReset(model, frame)) &&
      (forall i :: 0 <= i < |r.visits| ==> Normalized(model, r.visits[i])) &&
      Steps(n, r.visits, turns) &&
      (r.outcome != OutOfTurns ==>
         r.visits != [] &&
         Ends(action, model, n, r.visits[|r.visits| - 1], turns[|r.visits| - 1], r.outcome, r.recorded)) &&
      (r.outcome == OutOfTurns ==> r.recorded == [])
  {
    RunChain(action, model, n, frame, turns);
    RunEnds(action, model, n, frame, turns);
  }

  // ---------------------------------------------------------------- properties of a run

  /** Along a chain of transitions that starts with a counter between 0 and 2, the counter
      stays there. */
  lemma {:induction false} StepsRetriesBounded(n: nat, visits: seq<Frame>, turns: seq<Turn>, i: nat)
    requires Steps(n, visits, turns) && i < |visits| && 0 <= visits[0].retries <= 2
    ensures 0 <= visits[i].retries <= 2
    decreases i
  {
    if i > 0 {
      StepsRetriesBounded(n, visits, turns, i - 1);
      assert Step(n, visits[i - 1], visits[i], turns[i - 1]);
    }
  }

  /** So there are never three retries in a row: a failing attempt is made at most three
      times before the loop gives up. */
  lemma NoThreeRetriesInARow(n: nat, visits: seq<Frame>, turns: seq<Turn>, i: nat)
    requires Steps(n, visits, turns) && i + 3 < |visits| && 0 <= visits[0].retries <= 2
    ensures !(Retry(visits[i], visits[i + 1], turns[i]) && Retry(visits[i + 1], visits[i + 2], turns[i + 1]) &&
              Retry(visits[i + 2], visits[i + 3], turns[i + 2]))
  {
    StepsRetriesBounded(n, visits, turns, i);
  }

  /** A vision mode other than fallback never changes along a chain. */
  lemma {:induction false} StepsKeepVision(n: nat, visits: seq<Frame>, turns: seq<Turn>, i: nat, j: nat)
    requires Steps(n, visits, turns) && i <= j < |visits| && visits[i].useVision != Fallback
    ensures visits[j].useVision == visits[i].useVision
    decreases j - i
  {
    if i < j {
      assert Step(n, visits[i], visits[i + 1], turns[i]);
      StepsKeepVision(n, visits, turns, i + 1, j);
    }
  }

  /** Vision is switched on at most once. */
  lemma AtMostOneEscalation(n: nat, visits: seq<Frame>, turns: seq<Turn>, i: nat, j: nat)
    requires Steps(n, visits, turns) && i < j < |visits| - 1
    requires Escalate(n, visits[i], visits[i + 1], turns[i])
    ensures !Escalate(n, visits[j], visits[j + 1], turns[j])
  {
    StepsKeepVision(n, visits, turns, i + 1, j);
  }

  /** The chunks seen only grow, by at most one chunk per transition, and a chunk is added
      only while fewer than `n` are seen. */
  lemma {:induction false} StepsSeen(n: nat, visits: seq<Frame>, turns: seq<Turn>, i: nat)
    requires Steps(n, visits, turns) && i < |visits|
    ensures visits[0].seen <= visits[i].seen
    ensures |visits[i].seen| <= |visits[0].seen| + i
    ensures |visits[i].seen| == |visits[0].seen| || |visits[i].seen| < n
    decreases i
  {
    if i > 0 {
      StepsSeen(n, visits, turns, i - 1);
      assert Step(n, visits[i - 1], visits[i], turns[i - 1]);
    }
  }

  /** Over a whole run entered with a counter between 0 and 2: the counter stays there,
      vision is switched on at most once, and the chunk list only grows, by appending. */
  lemma RunBounds(action: string, model: string, n: nat, frame: Frame, turns: seq<Turn>)
    requires 0 <= frame.retries <= 2
    ensures var r := Run(action, model, n, frame, turns);
      (forall i :: 0 <= i < |r.visits| ==> 0 <= r.visits[i].retries <= 2 && frame.seen <= r.visits[i].seen) &&
      (forall i, j :: 0 <= i < j < |r.visits| - 1 && Escalate(n, r.visits[i], r.visits[i + 1], turns[i]) ==>
         !Escalate(n, r.visits[j], r.visits[j + 1], turns[j]))
  {
    var r := Run(action, model, n, frame, turns);
    RunTrace(action, model, n, frame, turns);
    forall i | 0 <= i < |r.visits|
      ensures 0 <= r.visits[i].retries <= 2 && frame.seen <= r.visits[i].seen
    {
      StepsRetriesBounded(n, r.visits, turns, i);
      StepsSeen(n, r.visits, turns, i);
    }
    forall i, j | 0 <= i < j < |r.visits| - 1 && Escalate(n, r.visits[i], r.visits[i + 1], turns[i])
      ensures !Escalate(n, r.visits[j], r.visits[j + 1], turns[j])
    {
      AtMostOneEscalation(n, r.visits, turns, i, j);
    }
  }

  /** A model without vision never switches vision on. */
  lemma NoVisionModelNeverEscalates(action: string, model: string, n: nat, frame: Frame, turns: seq<Turn>, i: nat)
    requires !LLMClient.SupportsVision(model)
    requires i + 1 < |Run(action, model, n, frame, turns).visits|
    ensures var r := Run(action, model, n, frame, turns);
      r.visits[i].useVision == Off && !Escalate(n, r.visits[i], r.visits[i + 1], turns[i])
  {
    RunTrace(action, model, n, frame, turns);
  }

  /** A run succeeds only on a turn whose step was carried out without error, was marked
      complete by the model and was confirmed by the verifier; it then records that step. */
  lemma RunSucceeds(action: string, model: string, n: nat, frame: Frame, turns: seq<Turn>)
    ensures var r := Run(action, model, n, frame, turns);
      r.outcome.Returned? && r.outcome.result.success ==>
        0 < |r.visits| &&
        var t := turns[|r.visits| - 1];
        t.decision.Some? && t.decision.value.element in t.selectorMap && t.fault.None? &&
        t.decision.value.completed && PyValue.Truthy(Inference.Verdict(t.verdict)) &&
        r.recorded == [(action, t.decision.value.step)] && r.outcome.result.action == action
  {
    RunTrace(action, model, n, frame, turns);
  }

  /** An exception escapes a run only for an unsupported model or for an element id the
      selector map does not have. */
  lemma RunRaises(action: string, model: string, n: nat, frame: Frame, turns: seq<Turn>)
    ensures var r := Run(action, model, n, frame, turns);
      r.outcome.Raised? ==>
        0 < |r.visits| && r.recorded == [] &&
        ((r.outcome == Raised("ValueError", "Unsupported model: " + model) && model !in LLMProvider.SupportedModels) ||
         (var t := turns[|r.visits| - 1];
          t.decision.Some? && t.decision.value.element !in t.selectorMap &&
          r.outcome == Raised("KeyError", IdText(t.decision.value.element))))
  {
    RunTrace(action, model, n, frame, turns);
  }

  /** With the controller's default model name, the first invocation raises. */
  lemma DefaultModelRaises(action: string, n: nat, frame: Frame, turns: seq<Turn>)
    requires turns != []
    ensures Run(action, "gpt-4", n, frame, turns).outcome == Raised("ValueError", "Unsupported model: gpt-4")
  {
    LLMProvider.DefaultModelUnsupported();
  }
}
