/** `_act` as it is written. Two of its nested invocations, the retry after an invalid
    method and the continuation after an unverified step, are made inside the `try` whose
    handler retries a failed attempt. An exception escaping such a nested invocation is
    therefore caught again one level up, where the handler retries with that level's retry
    counter and vision mode and with the chunk list as the nested invocations left it. */
module ActLoopAsWritten {
  import opened Wrappers
  import LLMProvider
  import LLMClient
  import PyValue
  import opened ActLoop

  /** A run as written: the trace and the turns left over for the invocations that follow. */
  function RunAsWritten(action: string, model: string, n: nat, frame: Frame, turns: seq<Turn>)
    : (res: (Trace, seq<Turn>))
    ensures |res.1| <= |turns|
    decreases |turns|, 0
  {
    if turns == [] then (Trace(OutOfTurns, frame.seen, [], []), [])
    else
      var t := turns[0];
      var f := VisionReset(model, frame);
      var client := LLMProvider.GetClient(model);
      if client.Failure? then (Trace(Raised("ValueError", client.error), f.seen, [], [f]), turns[1..])
      else match t.decision
        case None =>
          if |f.seen| + 1 < n then
            Enter(f, RunAsWritten(action, model, n, f.(seen := f.seen + [t.chunk], retries := 0), turns[1..]))
          else if f.useVision == Fallback then
            Enter(f, RunAsWritten(action, model, n, f.(useVision := On, retries := 0), turns[1..]))
          else (Trace(Returned(ActResult(false, NotCompletedMessage, action)), f.seen, [], [f]), turns[1..])
        case Some(d) =>
          if d.element !in t.selectorMap then (Trace(Raised("KeyError", IdText(d.element)), f.seen, [], [f]), turns[1..])
          else match AttemptOf(t, d)
            case Faulted(e) => Handle(action, model, n, f, f.seen, e, [], [f], turns[1..])
            case InvalidMethod =>
              if f.retries < 2 then
                var sub := RunAsWritten(action, model, n, f.(retries := f.retries + 1), turns[1..]);
                if sub.0.outcome.Raised? then
                  Handle(action, model, n, f, sub.0.seen, sub.0.outcome.text, sub.0.recorded, [f] + sub.0.visits, sub.1)
                else Enter(f, sub)
              else (Trace(Returned(ActResult(false, "Internal error: Chosen method " + d.methodName + " is invalid", action)),
                          f.seen, [], [f]), turns[1..])
            case Completed =>
              (Trace(Returned(ActResult(true, "Action completed successfully: " +
                                              Narrative(d, ElementText(t.outputString, d.element)), action)),
                     f.seen, [(action, d.step)], [f]), turns[1..])
            case NotCompleted =>
              var sub := RunAsWritten(action, model, n, f.(retries := 0), turns[1..]);
              if sub.0.outcome.Raised? then
                Handle(action, model, n, f, sub.0.seen, sub.0.outcome.text, sub.0.recorded, [f] + sub.0.visits, sub.1)
              else Enter(f, sub)
  }

  /** The exception handler of the invocation entered with `f`, for an exception with text
      `error` caught when the chunk list is `seen`; `recorded` and `visits` are what the
      invocation and its nested ones did before. */
  function Handle(action: string, model: string, n: nat, f: Frame, seen: seq<int>, error: string,
                  recorded: seq<(string, string)>, visits: seq<Frame>, rest: seq<Turn>)
    : (res: (Trace, seq<Turn>))
    ensures |res.1| <= |rest|
    decreases |rest|, 1
  {
    if f.retries < 2 then
      var retry := RunAsWritten(action, model, n, f.(seen := seen, retries := f.retries + 1), rest);
      (retry.0.(recorded := recorded + retry.0.recorded, visits := visits + retry.0.visits), retry.1)
    else
      (Trace(Returned(ActResult(false, "Error performing action: " + error, action)), seen,
             recorded + [(action, "")], visits), rest)
  }

  function Enter(f: Frame, sub: (Trace, seq<Turn>)): (Trace, seq<Turn>) {
    (sub.0.(visits := [f] + sub.0.visits), sub.1)
  }

  const Model: string := "gpt-4o"

  function Pick(element: int, methodName: string, completed: bool): Decision {
    Decision(element, methodName, [], "step", Some("because"), completed)
  }

  function Page(decision: Option<Decision>): Turn {
    Turn(0, "1:Submit", map[1 := "/html/body/button"], decision, None, PyValue.Null)
  }

  /** The run that switches vision on twice: a step that is carried out but not complete,
      no decision with every chunk seen (vision switched on), a decision naming an element
      that is not on the page, and, after the handler of the first invocation retries with
      vision back on fallback, no decision again (vision switched on a second time). */
  const TwoEscalationTurns: seq<Turn> := [
    Page(Some(Pick(1, "click", false))),
    Page(None),
    Page(Some(Pick(7, "click", false))),
    Page(None),
    Page(None)
  ]

  lemma TwoEscalations(action: string)
    ensures var frame := Frame([], Fallback, true, 0);
      var r := RunAsWritten(action, Model, 1, frame, TwoEscalationTurns).0;
      |r.visits| == 5 &&
      Escalate(1, r.visits[1], r.visits[2], TwoEscalationTurns[1]) &&
      Escalate(1, r.visits[3], r.visits[4], TwoEscalationTurns[3]) &&
      r.outcome == Returned(ActResult(false, NotCompletedMessage, action)) &&
      Run(action, Model, 1, frame, TwoEscalationTurns).outcome == Raised("KeyError", "7")
  {
    var T := TwoEscalationTurns;
    var frame := Frame([], Fallback, true, 0);
    assert LLMProvider.GetClient(Model).Success?;
    assert LLMClient.SupportsVision(Model);
    var f4 := Frame([], On, true, 0);
    assert RunAsWritten(action, Model, 1, f4, T[4..]).0 ==
      Trace(Returned(ActResult(false, NotCompletedMessage, action)), [], [], [f4]);
    var f3 := Frame([], Fallback, true, 1);
    assert T[4..] == T[3..][1..];
    assert RunAsWritten(action, Model, 1, f3, T[3..]).0.visits == [f3, f4];
    var f2 := Frame([], On, true, 0);
    assert RunAsWritten(action, Model, 1, f2, T[2..]).0 == Trace(Raised("KeyError", "7"), [], [], [f2]);
    var f1 := Frame([], Fallback, true, 0);
    assert T[2..] == T[1..][1..];
    assert RunAsWritten(action, Model, 1, f1, T[1..]).0 == Trace(Raised("KeyError", "7"), [], [], [f1, f2]);
    assert RunAsWritten(action, Model, 1, f1, T[1..]).1 == T[3..];
  }

  /** The run that makes five failed attempts in a row: an invalid method, whose retry names
      an element that is not on the page; the handler retries, and the same happens once
      more; the last attempt gives up on the invalid method. */
  const FailedAttemptTurns: seq<Turn> := [
    Page(Some(Pick(1, "hover", false))),
    Page(Some(Pick(9, "click", false))),
    Page(Some(Pick(1, "hover", false))),
    Page(Some(Pick(9, "click", false))),
    Page(Some(Pick(1, "hover", false)))
  ]

  /** Each attempt picks an element that is not on the page or a method that is not
      executed. */
  predicate FailedAttempt(t: Turn) {
    t.decision.Some? &&
    (t.decision.value.element !in t.selectorMap || AttemptOf(t, t.decision.value) == InvalidMethod)
  }

  lemma FiveFailedAttempts(action: string)
    ensures var frame := Frame([], Off, false, 0);
      var r := RunAsWritten(action, Model, 1, frame, FailedAttemptTurns).0;
      (forall i :: 0 <= i < 5 ==> FailedAttempt(FailedAttemptTurns[i])) &&
      |r.visits| == 5 &&
      r.outcome == Returned(ActResult(false, "Internal error: Chosen method hover is invalid", action)) &&
      Run(action, Model, 1, frame, FailedAttemptTurns).outcome == Raised("KeyError", "9")
  {
    var T := FailedAttemptTurns;
    assert LLMProvider.GetClient(Model).Success?;
    assert LLMClient.SupportsVision(Model);
    assert AttemptOf(T[4], T[4].decision.value) == InvalidMethod by {
      assert "hover"[0] != "click"[0] && |"hover"| != |"scrollIntoView"|;
    }
    assert "Internal error: Chosen method " + "hover" + " is invalid" == "Internal error: Chosen method hover is invalid";
    var f4 := Frame([], Off, false, 2);
    assert RunAsWritten(action, Model, 1, f4, T[4..]).0 ==
      Trace(Returned(ActResult(false, "Internal error: Chosen method hover is invalid", action)), [], [], [f4]);
    var f3 := Frame([], Off, false, 2);
    assert RunAsWritten(action, Model, 1, f3, T[3..]).0 == Trace(Raised("KeyError", "9"), [], [], [f3]);
    var f2 := Frame([], Off, false, 1);
    assert T[3..] == T[2..][1..] && T[4..] == T[3..][1..];
    assert RunAsWritten(action, Model, 1, f2, T[2..]).0.visits == [f2, f3, f4];
    var f1 := Frame([], Off, false, 1);
    assert RunAsWritten(action, Model, 1, f1, T[1..]).0 == Trace(Raised("KeyError", "9"), [], [], [f1]);
    assert T[2..] == T[1..][1..];
  }
}
