/**
 * `run` and `finishPrint` of `server/lib/requests.py`: the per-printer
 * planning loop, the gather of the planned tasks, and the finish
 * short-circuit that clears the simulated "active" flags.
 *
 * The `printers` dict is a sequence of targets in iteration order, the state
 * snapshot is a map from printer name to state, and `canPerformCommand` is a
 * function parameter whose table is not part of this model.
 */
module Dispatch {
  import opened Actions
  import opened Json
  import opened Builders
  import PyStrings

  type PrinterId = string

  /** One entry of the `printers` dict: name and configuration. */
  datatype Target = Target(id: PrinterId, printer: Printer)

  /** The arguments of `run` besides the printers. */
  datatype Invocation = Invocation(command: Command, fileName: string, toolTemperature: int, bedTemperature: int)

  /** The permission inputs: the state snapshot and `canPerformCommand`. */
  datatype Gate = Gate(state: map<PrinterId, string>, canPerform: (Command, string) -> bool)

  /** What `run` returns: `['', 200]` for finish, otherwise the gathered replies. */
  datatype RunResult =
    | FinishAck(content: string, status: int)
    | Gathered(replies: seq<Reply>)

  /** Every target has a state in the snapshot (`printerState[printer]` raises otherwise). */
  predicate Known(gate: Gate, targets: seq<Target>)
  {
    forall i | 0 <= i < |targets| :: targets[i].id in gate.state
  }

  predicate Permitted(inv: Invocation, gate: Gate, target: Target)
    requires target.id in gate.state
  {
    gate.canPerform(inv.command, gate.state[target.id])
  }

  /** The tasks one loop iteration of `run` appends for one printer. */
  function TasksFor(inv: Invocation, permitted: bool, printer: Printer): seq<Task>
  {
    if !permitted then [Denied]
    else
      var url := Url(printer, ApiRoute(inv.command, inv.fileName));
      match inv.command
      case Load => [SendFile(url, printer.apiKey, inv.command, inv.fileName)]
      case Preheat =>
        [SendToolCommand(PyStrings.Format(url, "tool"), printer.apiKey, inv.toolTemperature),
         SendBedCommand(PyStrings.Format(url, "bed"), printer.apiKey, inv.bedTemperature)]
      case _ => [SendCommand(url, printer.apiKey, inv.command)]
  }

  /** The task list after the loop of `run` has visited `targets`. */
  function Plan(inv: Invocation, gate: Gate, targets: seq<Target>): seq<Task>
    requires Known(gate, targets)
    decreases |targets|
  {
    if targets == [] then []
    else
      var n := |targets| - 1;
      Plan(inv, gate, targets[..n]) + TasksFor(inv, Permitted(inv, gate, targets[n]), targets[n].printer)
  }

  /** How many targets may run the command. */
  function CountPermitted(inv: Invocation, gate: Gate, targets: seq<Target>): nat
    requires Known(gate, targets)
    decreases |targets|
  {
    if targets == [] then 0
    else
      var n := |targets| - 1;
      CountPermitted(inv, gate, targets[..n]) + (if Permitted(inv, gate, targets[n]) then 1 else 0)
  }

  /** Where the entries of `targets[i]` start in the task list. */
  function Offset(inv: Invocation, gate: Gate, targets: seq<Target>, i: nat): nat
    requires Known(gate, targets) && i <= |targets|
  {
    |Plan(inv, gate, targets[..i])|
  }

  /**
   * The loop of `run` (lines 109-137): picks the route once, then appends for
   * each printer, in order, its denial, its tool and bed requests, or its
   * single exchange.
   */
  method PlanRequests(inv: Invocation, gate: Gate, targets: seq<Target>) returns (tasks: seq<Task>)
    requires Known(gate, targets)
    ensures tasks == Plan(inv, gate, targets)
    ensures |tasks| == |targets| + (if inv.command == Preheat then CountPermitted(inv, gate, targets) else 0)
  {
    tasks := [];
    var apiRoute := ApiRoute(inv.command, inv.fileName);
    for i := 0 to |targets|
      invariant tasks == Plan(inv, gate, targets[..i])
    {
      var target := targets[i];
      if gate.canPerform(inv.command, gate.state[target.id]) {
        var url := Url(target.printer, apiRoute);
        var apiKey := target.printer.apiKey;
        if inv.command == Load {
          tasks := tasks + [SendFile(url, apiKey, inv.command, inv.fileName)];
        } else if inv.command == Preheat {
          tasks := tasks + [SendToolCommand(PyStrings.Format(url, "tool"), apiKey, inv.toolTemperature)];
          tasks := tasks + [SendBedCommand(PyStrings.Format(url, "bed"), apiKey, inv.bedTemperature)];
        } else {
          tasks := tasks + [SendCommand(url, apiKey, inv.command)];
        }
      } else {
        tasks := tasks + [Denied];
      }
      assert targets[..i + 1][..i] == targets[..i];
    }
    assert targets[..|targets|] == targets;
    PlanLength(inv, gate, targets);
  }

  /** `finishPrint`: every flag of a target becomes false; no key is added or removed. */
  method FinishPrint(flags: map<PrinterId, bool>, targets: set<PrinterId>) returns (updated: map<PrinterId, bool>)
    ensures updated.Keys == flags.Keys
    ensures forall id | id in flags && id in targets :: !updated[id]
    ensures forall id | id in flags && id !in targets :: updated[id] == flags[id]
  {
    updated := flags;
    var pending := flags.Keys;
    while pending != {}
      invariant pending <= flags.Keys
      invariant updated.Keys == flags.Keys
      invariant forall id | id in flags && id !in pending :: updated[id] == (flags[id] && id !in targets)
      invariant forall id | id in pending :: updated[id] == flags[id]
      decreases pending
    {
      var id :| id in pending;
      if id in targets {
        updated := updated[id := false];
      }
      pending := pending - {id};
    }
  }

  function TargetIds(targets: seq<Target>): set<PrinterId>
  {
    set t | t in targets :: t.id
  }

  /**
   * `run`: finish clears the targets' flags and answers `['', 200]` without a
   * request; any other command plans the tasks and gathers their outcomes in
   * task order, leaving the flags alone.
   */
  method Run(inv: Invocation, gate: Gate, targets: seq<Target>, flags: map<PrinterId, bool>, respond: Responder)
    returns (result: RunResult, flagsOut: map<PrinterId, bool>)
    requires inv.command != Finish ==> Known(gate, targets)
    ensures inv.command == Finish ==> result == FinishAck("", 200)
    ensures inv.command == Finish ==>
      && flagsOut.Keys == flags.Keys
      && (forall id | id in flags :: flagsOut[id] == (flags[id] && id !in TargetIds(targets)))
    ensures inv.command != Finish ==>
      && flagsOut == flags
      && result.Gathered?
      && var plan := Plan(inv, gate, targets);
      && |result.replies| == |plan|
      && (forall k | 0 <= k < |plan| :: result.replies[k] == Outcome(plan[k], respond))
  {
    if inv.command == Finish {
      flagsOut := FinishPrint(flags, TargetIds(targets));
      result := FinishAck("", 200);
      return;
    }
    flagsOut := flags;
    var tasks := PlanRequests(inv, gate, targets);
    var replies := seq(|tasks|, k requires 0 <= k < |tasks| => Outcome(tasks[k], respond));
    result := Gathered(replies);
  }

  /**
   * One entry per target, plus one more for every permitted target under
   * preheat; so an empty target set plans nothing.
   */
  lemma {:induction false} PlanLength(inv: Invocation, gate: Gate, targets: seq<Target>)
    requires Known(gate, targets)
    ensures |Plan(inv, gate, targets)| ==
      |targets| + (if inv.command == Preheat then CountPermitted(inv, gate, targets) else 0)
  {
    if targets != [] {
      var n := |targets| - 1;
      PlanLength(inv, gate, targets[..n]);
    }
  }

  /** With every target permitted, a single-step command plans N entries and preheat 2N. */
  lemma AllPermittedLength(inv: Invocation, gate: Gate, targets: seq<Target>)
    requires Known(gate, targets)
    requires forall i | 0 <= i < |targets| :: Permitted(inv, gate, targets[i])
    ensures |Plan(inv, gate, targets)| == (if inv.command == Preheat then 2 * |targets| else |targets|)
  {
    AllPermittedCount(inv, gate, targets);
    PlanLength(inv, gate, targets);
  }

  lemma {:induction false} AllPermittedCount(inv: Invocation, gate: Gate, targets: seq<Target>)
    requires Known(gate, targets)
    requires forall i | 0 <= i < |targets| :: Permitted(inv, gate, targets[i])
    ensures CountPermitted(inv, gate, targets) == |targets|
  {
    if targets != [] {
      var n := |targets| - 1;
      AllPermittedCount(inv, gate, targets[..n]);
    }
  }

  /** The plan of a concatenation is the concatenation of the plans: each target is planned on its own. */
  lemma {:induction false} PlanConcat(inv: Invocation, gate: Gate, front: seq<Target>, back: seq<Target>)
    requires Known(gate, front) && Known(gate, back)
    ensures Known(gate, front + back)
    ensures Plan(inv, gate, front + back) == Plan(inv, gate, front) + Plan(inv, gate, back)
  {
    var all := front + back;
    assert Known(gate, all) by {
      forall i | 0 <= i < |all| ensures all[i].id in gate.state {
        if i >= |front| { assert all[i] == back[i - |front|]; }
      }
    }
    if back == [] {
      assert all == front;
    } else {
      var n := |back| - 1;
      assert all[..|all| - 1] == front + back[..n];
      PlanConcat(inv, gate, front, back[..n]);
    }
  }

  /**
   * Order: the entries of `targets[i]` sit, contiguously, right after those of
   * the targets before it, and are exactly what that printer's iteration
   * appends.
   */
  lemma PlanSegment(inv: Invocation, gate: Gate, targets: seq<Target>, i: nat)
    requires Known(gate, targets) && i < |targets|
    ensures var off := Offset(inv, gate, targets, i);
      var mine := TasksFor(inv, Permitted(inv, gate, targets[i]), targets[i].printer);
      && off == i + (if inv.command == Preheat then CountPermitted(inv, gate, targets[..i]) else 0)
      && off + |mine| <= |Plan(inv, gate, targets)|
      && Plan(inv, gate, targets)[off .. off + |mine|] == mine
  {
    var front := targets[..i + 1];
    var back := targets[i + 1..];
    assert targets == front + back;
    assert Known(gate, front) && Known(gate, back) by {
      assert forall j | 0 <= j < |front| :: front[j] == targets[j];
      assert forall j | 0 <= j < |back| :: back[j] == targets[i + 1 + j];
    }
    PlanConcat(inv, gate, front, back);
    assert front[..i] == targets[..i];
    PlanLength(inv, gate, targets[..i]);
  }

  /**
   * A printer that may not run the command gets exactly one entry, which
   * posts nothing and resolves to ('cant perform action', 400).
   */
  lemma DeniedPrinter(inv: Invocation, gate: Gate, targets: seq<Target>, i: nat, respond: Responder)
    requires Known(gate, targets) && i < |targets|
    requires !Permitted(inv, gate, targets[i])
    ensures var plan := Plan(inv, gate, targets);
      var off := Offset(inv, gate, targets, i);
      && off < |plan|
      && (i + 1 < |targets| ==> Offset(inv, gate, targets, i + 1) == off + 1)
      && Issued(plan[off]) == []
      && Outcome(plan[off], respond) == Reply("cant perform action", 400)
  {
    PlanSegment(inv, gate, targets, i);
    OffsetStep(inv, gate, targets, i);
  }

  /** The next printer's entries start right after this printer's. */
  lemma OffsetStep(inv: Invocation, gate: Gate, targets: seq<Target>, i: nat)
    requires Known(gate, targets) && i < |targets|
    ensures Offset(inv, gate, targets, i + 1) ==
      Offset(inv, gate, targets, i) + |TasksFor(inv, Permitted(inv, gate, targets[i]), targets[i].printer)|
  {
    assert targets[..i + 1][..i] == targets[..i];
  }

  /**
   * A permitted printer under preheat gets two entries, tool first: the tool
   * request to `.../api/printer/tool` with `{command: target, targets: {tool0: t}}`,
   * then the bed request to `.../api/printer/bed` with `{command: target, target: b}`.
   */
  lemma PreheatPrinter(inv: Invocation, gate: Gate, targets: seq<Target>, i: nat)
    requires Known(gate, targets) && i < |targets|
    requires inv.command == Preheat && Permitted(inv, gate, targets[i])
    requires '{' !in targets[i].printer.address && '{' !in targets[i].printer.port
    requires '}' !in targets[i].printer.address && '}' !in targets[i].printer.port
    ensures var plan := Plan(inv, gate, targets);
      var off := Offset(inv, gate, targets, i);
      var p := targets[i].printer;
      var auth := map["X-Api-Key" := p.apiKey];
      && off + 1 < |plan|
      && plan[off] == Exchange(Request("http://" + p.address + ":" + p.port + "/api/printer/tool", auth,
           JsonBody(JObject([("command", JString("target")),
                             ("targets", JObject([("tool0", JInt(inv.toolTemperature))]))]))))
      && plan[off + 1] == Exchange(Request("http://" + p.address + ":" + p.port + "/api/printer/bed", auth,
           JsonBody(JObject([("command", JString("target")), ("target", JInt(inv.bedTemperature))]))))
      && (i + 1 < |targets| ==> Offset(inv, gate, targets, i + 1) == off + 2)
  {
    PlanSegment(inv, gate, targets, i);
    OffsetStep(inv, gate, targets, i);
    var plan := Plan(inv, gate, targets);
    var off := Offset(inv, gate, targets, i);
    var mine := TasksFor(inv, true, targets[i].printer);
    assert plan[off] == mine[0] && plan[off + 1] == mine[1] by {
      assert plan[off .. off + 2][0] == plan[off];
      assert plan[off .. off + 2][1] == plan[off + 1];
    }
    PreheatChannelUrl(targets[i].printer, "tool");
    PreheatChannelUrl(targets[i].printer, "bed");
  }

  /**
   * A permitted printer under any command but load, preheat and finish gets
   * one exchange: the command's body posted to `http://address:port` followed
   * by the command's route.
   */
  lemma SingleExchangePrinter(inv: Invocation, gate: Gate, targets: seq<Target>, i: nat)
    requires Known(gate, targets) && i < |targets|
    requires inv.command !in {Load, Preheat, Finish} && Permitted(inv, gate, targets[i])
    ensures var plan := Plan(inv, gate, targets);
      var off := Offset(inv, gate, targets, i);
      var p := targets[i].printer;
      && off < |plan|
      && plan[off] == Exchange(Request("http://" + p.address + ":" + p.port + ApiRoute(inv.command, inv.fileName),
           map["X-Api-Key" := p.apiKey], JsonBody(GetRequestBody(inv.command))))
      && (i + 1 < |targets| ==> Offset(inv, gate, targets, i + 1) == off + 1)
  {
    PlanSegment(inv, gate, targets, i);
    OffsetStep(inv, gate, targets, i);
    var plan := Plan(inv, gate, targets);
    var off := Offset(inv, gate, targets, i);
    assert plan[off .. off + 1][0] == plan[off];
  }

  /**
   * A permitted printer under load gets one two-step entry: the upload to
   * `.../api/files/local`, then the select to `.../api/files/local/<fileName>`.
   */
  lemma LoadPrinter(inv: Invocation, gate: Gate, targets: seq<Target>, i: nat)
    requires Known(gate, targets) && i < |targets|
    requires inv.command == Load && Permitted(inv, gate, targets[i])
    ensures var plan := Plan(inv, gate, targets);
      var off := Offset(inv, gate, targets, i);
      var p := targets[i].printer;
      var files := "http://" + p.address + ":" + p.port + "/api/files/local";
      && off < |plan|
      && plan[off].UploadThenSelect?
      && plan[off].upload.url == files
      && plan[off].upload.payload == FileUpload("file", inv.fileName, "application/octet-stream")
      && plan[off].select.url == files + "/" + inv.fileName
      && plan[off].select.payload == JsonBody(JObject([("command", JString("select"))]))
      && (i + 1 < |targets| ==> Offset(inv, gate, targets, i + 1) == off + 1)
  {
    PlanSegment(inv, gate, targets, i);
    OffsetStep(inv, gate, targets, i);
    var plan := Plan(inv, gate, targets);
    var off := Offset(inv, gate, targets, i);
    assert plan[off .. off + 1][0] == plan[off];
  }

  /** Every request planned for `targets[i]` carries that printer's API key. */
  lemma ApiKeyOnEveryRequest(inv: Invocation, gate: Gate, targets: seq<Target>, i: nat)
    requires Known(gate, targets) && i < |targets|
    ensures var plan := Plan(inv, gate, targets);
      var off := Offset(inv, gate, targets, i);
      var width := |TasksFor(inv, Permitted(inv, gate, targets[i]), targets[i].printer)|;
      && off + width <= |plan|
      && forall k, r | off <= k < off + width && r in Issued(plan[k]) ::
           r.headers == map["X-Api-Key" := targets[i].printer.apiKey]
  {
    PlanSegment(inv, gate, targets, i);
    var plan := Plan(inv, gate, targets);
    var off := Offset(inv, gate, targets, i);
    var mine := TasksFor(inv, Permitted(inv, gate, targets[i]), targets[i].printer);
    forall k | off <= k < off + |mine|
      ensures plan[k] == mine[k - off]
    {
      assert plan[off .. off + |mine|][k - off] == plan[k];
    }
  }
}
