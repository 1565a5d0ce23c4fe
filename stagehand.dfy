/** The `Stagehand` controller: its log and the queue of logs waiting to be sent to the
    browser console, and `act`, which runs the action loop over a fresh chunk list. The
    browser driver is reduced to whether one is attached; the logger is two lists of lines. */
module Stagehand {
  import opened Wrappers
  import Strings
  import LLMClient
  import LLMProvider
  import opened ActLoop

  // ---------------------------------------------------------------- log lines

  /** A queued log: its category, message, level and the id it was queued with. */
  datatype LogEntry = LogEntry(category: Option<string>, message: string, level: int, id: string)

  /** A call made on the browser console. */
  datatype ConsoleCall = ConsoleLog(text: string) | ConsoleError(text: string)

  /** A category counts only when it is a non-empty string. */
  function CategoryTag(category: Option<string>): string {
    if category.Some? && category.value != "" then ":" + category.value else ""
  }

  /** `[stagehand:category] message`, or `[stagehand] message` without a category. */
  function FormatLog(category: Option<string>, message: string): string {
    "[stagehand" + CategoryTag(category) + "] " + message
  }

  const Prefix: string := "[stagehand"

  /** Reads a log line back into its category and message. */
  function ParseLog(line: string): Option<(Option<string>, string)> {
    if !Strings.StartsWith(line, Prefix) then None
    else
      var parts := Strings.Split(line[|Prefix|..], ']');
      if |parts| < 2 then None
      else
        var head := parts[0];
        var tail := Strings.Join(parts[1..], ']');
        if tail == [] || tail[0] != ' ' then None
        else if head == [] then Some((None, tail[1..]))
        else if head[0] == ':' then Some((Some(head[1..]), tail[1..]))
        else None
  }

  /** A log line gives back its message, and its category when that is non-empty and has
      no closing bracket. */
  lemma FormatParses(category: Option<string>, message: string)
    requires category.Some? ==> ']' !in category.value
    ensures ParseLog(FormatLog(category, message)) ==
      Some((if category.Some? && category.value != "" then category else None, message))
  {
    var tag := CategoryTag(category);
    var line := FormatLog(category, message);
    assert ']' !in tag;
    assert line == Prefix + (tag + [']'] + (" " + message));
    assert line[|Prefix|..] == tag + [']'] + (" " + message);
    Strings.SplitAfterHead(tag, " " + message, ']');
    var parts := Strings.Split(line[|Prefix|..], ']');
    assert parts[1..] == Strings.Split(" " + message, ']');
    Strings.JoinSplit(" " + message, ']');
    assert (" " + message)[1..] == message;
    if tag != "" {
      assert tag[1..] == category.value;
    }
  }

  /** The effective level: 1 when none is given. */
  function Level(level: Option<int>): int {
    level.GetOr(1)
  }

  /** The console call for a log: an error when the lower-cased message mentions "trace" or
      "error:", a plain log otherwise. */
  function ConsoleCallOf(e: LogEntry): (c: ConsoleCall)
    ensures c.text == FormatLog(e.category, e.message)
    ensures c.ConsoleError? <==>
      Strings.Contains(Strings.Lower(e.message), "trace") || Strings.Contains(Strings.Lower(e.message), "error:")
  {
    var lower := Strings.Lower(e.message);
    if Strings.Contains(lower, "trace") || Strings.Contains(lower, "error:") then
      ConsoleError(FormatLog(e.category, e.message))
    else ConsoleLog(FormatLog(e.category, e.message))
  }

  // ---------------------------------------------------------------- the queue

  /** A log is sent, and leaves the queue, only with a driver attached and a verbosity of at
      least its level. */
  predicate Sendable(driverPresent: bool, verbose: int, e: LogEntry) {
    driverPresent && verbose >= e.level
  }

  /** The queue without the logs that carry `id`. */
  function RemoveId(logs: seq<LogEntry>, id: string): (r: seq<LogEntry>)
    ensures |r| <= |logs|
  {
    if logs == [] then []
    else
      var rest := RemoveId(logs[..|logs| - 1], id);
      if logs[|logs| - 1].id == id then rest else rest + [logs[|logs| - 1]]
  }

  lemma {:induction false} RemoveIdMembership(logs: seq<LogEntry>, id: string, x: LogEntry)
    ensures x in RemoveId(logs, id) <==> x in logs && x.id != id
  {
    if logs != [] {
      var init := logs[..|logs| - 1];
      RemoveIdMembership(init, id, x);
      assert logs == init + [logs[|logs| - 1]];
    }
  }

  /** The queue after sending each of `sent` in order. */
  function Drain(logs: seq<LogEntry>, sent: seq<LogEntry>, driverPresent: bool, verbose: int): seq<LogEntry> {
    if sent == [] then logs
    else
      var before := Drain(logs, sent[..|sent| - 1], driverPresent, verbose);
      var e := sent[|sent| - 1];
      if Sendable(driverPresent, verbose, e) then RemoveId(before, e.id) else before
  }

  /** The console calls made while sending each of `sent` in order. */
  function ConsoleCalls(sent: seq<LogEntry>, driverPresent: bool, verbose: int): (r: seq<ConsoleCall>)
    ensures |r| <= |sent|
  {
    if sent == [] then []
    else
      var before := ConsoleCalls(sent[..|sent| - 1], driverPresent, verbose);
      var e := sent[|sent| - 1];
      if Sendable(driverPresent, verbose, e) then before + [ConsoleCallOf(e)] else before
  }

  /** A log stays queued exactly when no sendable log with its id was sent. */
  lemma {:induction false} DrainMembership(logs: seq<LogEntry>, sent: seq<LogEntry>, driverPresent: bool,
                                           verbose: int, x: LogEntry)
    ensures x in Drain(logs, sent, driverPresent, verbose) <==>
      x in logs && forall k :: 0 <= k < |sent| && Sendable(driverPresent, verbose, sent[k]) ==> sent[k].id != x.id
  {
    if sent != [] {
      var init := sent[..|sent| - 1];
      var e := sent[|sent| - 1];
      DrainMembership(logs, init, driverPresent, verbose, x);
      RemoveIdMembership(Drain(logs, init, driverPresent, verbose), e.id, x);
      assert forall k :: 0 <= k < |init| ==> init[k] == sent[k];
    }
  }

  /** Without a driver nothing is sent and the queue is kept as it is. */
  lemma {:induction false} NoDriverKeepsQueue(logs: seq<LogEntry>, sent: seq<LogEntry>, verbose: int)
    ensures Drain(logs, sent, false, verbose) == logs
    ensures ConsoleCalls(sent, false, verbose) == []
  {
    if sent != [] {
      NoDriverKeepsQueue(logs, sent[..|sent| - 1], verbose);
    }
  }

  // ---------------------------------------------------------------- the controller

  /** The chunk list one `act` shares among all its invocations. */
  class ChunkList {
    var items: seq<int>

    constructor()
      ensures items == []
    {
      items := [];
    }
  }

  /** The model name an invocation uses: the one given, unless it is missing or empty. */
  function ResolveModel(modelName: Option<string>, defaultModelName: string): (m: string)
    ensures modelName.Some? && modelName.value != "" ==> m == modelName.value
    ensures modelName.None? || modelName.value == "" ==> m == defaultModelName
  {
    if modelName.Some? && modelName.value != "" then modelName.value else defaultModelName
  }

  /** The frame `act` enters the loop with: no chunk seen, no retry, "fallback" taken as
      no vision, and the verifier using vision exactly when the decider does. */
  function ActFrame(useVision: VisionMode): (f: Frame)
    ensures f.seen == [] && f.retries == 0 && f.useVision != Fallback
    ensures f.verifierUseVision <==> f.useVision != Off
    ensures useVision != Fallback ==> f.useVision == useVision
    ensures useVision == Fallback ==> f.useVision == Off
  {
    var mode := if useVision == Fallback then Off else useVision;
    Frame([], mode, mode != Off, 0)
  }

  class Stagehand {
    const env: string
    const verbose: int
    var driverPresent: bool
    var defaultModelName: string
    var pendingLogs: seq<LogEntry>
    var isProcessingLogs: bool
    var infoLines: seq<string>
    var debugLines: seq<string>
    var console: seq<ConsoleCall>
    var recorded: seq<(string, string)>

    /** A new controller has no driver, the default model "gpt-4" and an empty queue. */
    constructor(env: string := "LOCAL", verbose: int := 0)
      ensures this.env == env && this.verbose == verbose
      ensures !driverPresent && defaultModelName == "gpt-4"
      ensures pendingLogs == [] && !isProcessingLogs
      ensures infoLines == [] && debugLines == [] && console == [] && recorded == []
    {
      this.env := env;
      this.verbose := verbose;
      driverPresent := false;
      defaultModelName := "gpt-4";
      pendingLogs := [];
      isProcessingLogs := false;
      infoLines := [];
      debugLines := [];
      console := [];
      recorded := [];
    }

    method SetDriver()
      modifies this`driverPresent
      ensures driverPresent
    {
      driverPresent := true;
    }

    /** `log`: level 1 goes to the info lines and level 2 to the debug lines; with the
        Browserbase environment the log is also queued under `id` and the queue is sent. */
    method Log(category: Option<string>, message: string, level: Option<int>, id: string)
      modifies this`infoLines, this`debugLines, this`pendingLogs, this`isProcessingLogs, this`console
      ensures infoLines == old(infoLines) + (if Level(level) == 1 then [FormatLog(category, message)] else [])
      ensures debugLines == old(debugLines) + (if Level(level) == 2 then [FormatLog(category, message)] else [])
      ensures isProcessingLogs == old(isProcessingLogs)
      ensures env != "BROWSERBASE" ==> pendingLogs == old(pendingLogs) && console == old(console)
      ensures env == "BROWSERBASE" && old(isProcessingLogs) ==>
        pendingLogs == old(pendingLogs) + [LogEntry(category, message, Level(level), id)] && console == old(console)
      ensures env == "BROWSERBASE" && !old(isProcessingLogs) ==>
        var queued := old(pendingLogs) + [LogEntry(category, message, Level(level), id)];
        pendingLogs == Drain(queued, queued, driverPresent, verbose) &&
        console == old(console) + ConsoleCalls(queued, driverPresent, verbose)
    {
      var line := FormatLog(category, message);
      if Level(level) == 1 {
        infoLines := infoLines + [line];
      } else if Level(level) == 2 {
        debugLines := debugLines + [line];
      }
      if env == "BROWSERBASE" {
        pendingLogs := pendingLogs + [LogEntry(category, message, Level(level), id)];
        RunLogProcessing();
      }
    }

    /** `_run_browserbase_log_processing`: unless already processing, send every log of a
        copy of the queue in order, then clear the guard. */
    method RunLogProcessing()
      modifies this`pendingLogs, this`isProcessingLogs, this`console
      ensures isProcessingLogs == old(isProcessingLogs)
      ensures old(isProcessingLogs) ==> pendingLogs == old(pendingLogs) && console == old(console)
      ensures !old(isProcessingLogs) ==>
        pendingLogs == Drain(old(pendingLogs), old(pendingLogs), driverPresent, verbose) &&
        console == old(console) + ConsoleCalls(old(pendingLogs), driverPresent, verbose)
    {
      if isProcessingLogs {
        return;
      }
      isProcessingLogs := true;
      var pending := pendingLogs;
      var i := 0;
      while i < |pending|
        invariant 0 <= i <= |pending|
        invariant pendingLogs == Drain(pending, pending[..i], driverPresent, verbose)
        invariant console == old(console) + ConsoleCalls(pending[..i], driverPresent, verbose)
      {
        LogToConsole(pending[i]);
        assert pending[..i + 1][..i] == pending[..i];
        i := i + 1;
      }
      assert pending[..i] == pending;
      isProcessingLogs := false;
    }

    /** `_log_to_browserbase`: with a driver and enough verbosity, make the console call and
        drop every queued log with the same id. */
    method LogToConsole(e: LogEntry)
      modifies this`pendingLogs, this`console
      ensures Sendable(driverPresent, verbose, e) ==>
        pendingLogs == RemoveId(old(pendingLogs), e.id) && console == old(console) + [ConsoleCallOf(e)]
      ensures !Sendable(driverPresent, verbose, e) ==> pendingLogs == old(pendingLogs) && console == old(console)
    {
      if !driverPresent {
        return;
      }
      if verbose >= e.level {
        console := console + [ConsoleCallOf(e)];
        pendingLogs := RemoveId(pendingLogs, e.id);
      }
    }

    /** `act`: run the loop on a fresh chunk list, from the frame `ActFrame` gives. */
    method Act(action: string, modelName: Option<string>, useVision: VisionMode, n: nat, turns: seq<Turn>)
      returns (outcome: Outcome)
      modifies this`recorded
      ensures var r := Run(action, ResolveModel(modelName, defaultModelName), n, ActFrame(useVision), turns);
        outcome == r.outcome && recorded == old(recorded) + r.recorded
    {
      var chunks := new ChunkList();
      var frame := ActFrame(useVision);
      outcome := ActInvocation(action, ResolveModel(modelName, defaultModelName), n, chunks,
                               frame.useVision, frame.verifierUseVision, 0, turns);
    }

    /** `_act`: one invocation on the shared chunk list, making its nested invocation by
        recursion. Its outcome, the chunk list it leaves and the actions it records are those
        of `Run`. */
    method ActInvocation(action: string, model: string, n: nat, chunks: ChunkList,
                         useVision: VisionMode, verifierUseVision: bool, retries: int, turns: seq<Turn>)
      returns (outcome: Outcome)
      modifies this`recorded, chunks
      ensures var r := Run(action, model, n, Frame(old(chunks.items), useVision, verifierUseVision, retries), turns);
        outcome == r.outcome && chunks.items == r.seen && recorded == old(recorded) + r.recorded
      decreases |turns|
    {
      if turns == [] {
        return OutOfTurns;
      }
      var t := turns[0];
      var f := VisionReset(model, Frame(chunks.items, useVision, verifierUseVision, retries));
      var client := LLMProvider.GetClient(model);
      if client.Failure? {
        return Raised("ValueError", client.error);
      }
      match t.decision {
        case None =>
          if |chunks.items| + 1 < n {
            chunks.items := chunks.items + [t.chunk];
            outcome := ActInvocation(action, model, n, chunks, f.useVision, f.verifierUseVision, 0, turns[1..]);
          } else if f.useVision == Fallback {
            outcome := ActInvocation(action, model, n, chunks, On, f.verifierUseVision, 0, turns[1..]);
          } else {
            outcome := Returned(ActResult(false, NotCompletedMessage, action));
          }
        case Some(d) =>
          if d.element !in t.selectorMap {
            return Raised("KeyError", IdText(d.element));
          }
          match AttemptOf(t, d) {
            case Faulted(e) =>
              if retries < 2 {
                outcome := ActInvocation(action, model, n, chunks, f.useVision, f.verifierUseVision, retries + 1, turns[1..]);
              } else {
                recorded := recorded + [(action, "")];
                outcome := Returned(ActResult(false, "Error performing action: " + e, action));
              }
            case InvalidMethod =>
              if retries < 2 {
                outcome := ActInvocation(action, model, n, chunks, f.useVision, f.verifierUseVision, retries + 1, turns[1..]);
              } else {
                outcome := Returned(ActResult(false, "Internal error: Chosen method " + d.methodName + " is invalid", action));
              }
            case Completed =>
              var narrative := Narrative(d, ElementText(t.outputString, d.element));
              recorded := recorded + [(action, d.step)];
              outcome := Returned(ActResult(true, "Action completed successfully: " + narrative, action));
            case NotCompleted =>
              outcome := ActInvocation(action, model, n, chunks, f.useVision, f.verifierUseVision, 0, turns[1..]);
          }
      }
    }
  }

  // ---------------------------------------------------------------- properties of `act`

  /** By default neither the decider nor the verifier uses vision, and no call of `act`
      ever switches vision on. */
  lemma ActNeverEscalates(action: string, model: string, useVision: VisionMode, n: nat, turns: seq<Turn>, i: nat)
    requires i + 1 < |Run(action, model, n, ActFrame(useVision), turns).visits|
    ensures ActFrame(Fallback) == Frame([], Off, false, 0)
    ensures var r := Run(action, model, n, ActFrame(useVision), turns);
      !Escalate(n, r.visits[i], r.visits[i + 1], turns[i])
  {
    var r := Run(action, model, n, ActFrame(useVision), turns);
    RunTrace(action, model, n, ActFrame(useVision), turns);
    StepsKeepVision(n, r.visits, turns, 0, i);
  }

  /** In a run of `act` the chunk list is empty or shorter than the number of chunks, and
      it grows by one chunk at a time. */
  lemma ActChunksBounded(action: string, model: string, useVision: VisionMode, n: nat, turns: seq<Turn>, i: nat)
    requires i < |Run(action, model, n, ActFrame(useVision), turns).visits|
    ensures var r := Run(action, model, n, ActFrame(useVision), turns);
      (r.visits[i].seen == [] || |r.visits[i].seen| < n) && |r.visits[i].seen| <= i
  {
    var r := Run(action, model, n, ActFrame(useVision), turns);
    RunTrace(action, model, n, ActFrame(useVision), turns);
    StepsSeen(n, r.visits, turns, i);
  }
}
