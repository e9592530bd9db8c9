# Farm-server command fan-out planner

A model of the command dispatcher of the printer-farm server
(`server/lib/requests.py`). One farm command (print, pause, resume, load,
load-file, cancel, preheat, shutdown, finish) and an ordered set of target
printers become an ordered list of per-printer tasks. A printer that may not run
the command in its last known state gets a denial. A permitted printer gets one
exchange with its HTTP API, or two for preheat (tool, then bed).
Load is a two-step exchange: upload the file, then select it. `asyncio.gather`
then resolves the tasks to replies in task order. Finish is different: it clears
the targets' simulated "active" flags and answers `['', 200]` without any request.

Modules:

- `Actions`: the nine commands of the `actions` constants, as one datatype.
- `Json`: JSON values whose objects keep member order, the way Python dicts
  serialise.
- `PyStrings`: `str.split`, `str.join` and `str.format` with one positional field.
- `Builders`: `getRequestBody`, `addUniqueIdToFile`, the route table and URL,
  and `sendCommand`, `sendFile`, `sendToolCommand`, `sendBedCommand` and
  `invalidAction` as tasks.
- `Dispatch`: the planning loop of `run` (a method with a loop invariant against
  the function `Plan`), `finishPrint` (a method looping over the flag map), `run`
  itself, and lemmas about the plan.

The network is replaced by data. A `Task` lists the requests it would post, in
order. The printer's API is a `Responder` parameter that maps (requests this task
already posted, next request) to a reply. So the reply to the select step of a
load is computed after the upload. `canPerformCommand` is a function parameter of
type `(Command, string) -> bool`. Its table lives in `lib/actionPermission`,
which is not part of this model. The printer-state snapshot and the fake-state
flag map are maps passed in, and the flag map is passed back out.

Three facts about the code that the model keeps as they are:

- `printerState[printer]['state']` (requests.py:121) has no default, so a target
  missing from the state snapshot raises `KeyError`; it is not denied. The model
  requires every target to have a state (`Dispatch.Known`), except for finish:
  `run` loads the snapshot's `printers` entry (line 102) before the finish
  branch, but finish never looks up a target's own entry.
- The select step of a load posts `{command: select}` with no print flag
  (requests.py:60); only load-file sends `print: true`.
- Shutdown is posted with the empty object `{}` from `getRequestBody`.

`addUniqueIdToFile` adds no id: it returns its argument. The model proves this.

## Model

| member | source | states |
|---|---|---|
| Builders.AddUniqueIdToFile | server/lib/requests.py:12-15 | splitting the name on '.', putting piece 0 back unchanged and joining with '.' returns exactly the argument: no unique id is added |
| PyStrings.Split | server/lib/requests.py:13 | `split('.')` never returns an empty list and no piece contains the separator |
| PyStrings.JoinSplit | server/lib/requests.py:13-15 | joining the pieces of a split with the same separator gives back the original string |
| PyStrings.SplitJoin | server/lib/requests.py:13-15 | splitting a join of separator-free pieces gives back the pieces; with JoinSplit, split and join are inverses |
| Builders.RequestBodyNamesCommand | server/lib/requests.py:17-34 | the body table is total and always yields an object; the body is `{}` exactly for load, preheat, shutdown and finish; every other command's body names that command (start, pause+pause, pause+resume, cancel, select+print) |
| Builders.RequestBodyInjective | server/lib/requests.py:17-34 | two commands get the same body if and only if they are the same command or both post `{}` |
| Builders.JobRouteCommands | server/lib/requests.py:109-119 | the route is `/api/job` exactly for print, pause, resume, cancel (and finish, which returns earlier); every route starts with `/api/` |
| Builders.PreheatChannelUrl | server/lib/requests.py:115-132 | formatting the preheat URL with a channel name gives `http://address:port/api/printer/<channel>` when address and port hold neither `{` nor `}` |
| PyStrings.FormatTrailingField | server/lib/requests.py:129-132 | `str.format` on a prefix free of `{` and `}` followed by `{0}` yields the prefix followed by the argument |
| Builders.OutcomeIsLastReply | server/lib/requests.py:36-89 | a task posts nothing if and only if it is a denial; a denial resolves to ('cant perform action', 400); any other task resolves to the reply to its last request, given its earlier ones |
| Builders.LoadSequence | server/lib/requests.py:46-62 | load posts the upload of the file (same name) to the files URL first, then `{command: select}` with no print flag to `url/<name>`; the outcome is the second reply; both requests carry `X-Api-Key` |
| Dispatch.PlanRequests | server/lib/requests.py:109-137 | the loop builds exactly `Plan` of the targets; its length is the number of targets plus, under preheat, the number permitted |
| Dispatch.FinishPrint | server/lib/requests.py:91-96 | every key of the flag map that is a target becomes false, every other key keeps its value, and the key set is unchanged |
| Dispatch.Run | server/lib/requests.py:99-140 | finish returns `['', 200]` and clears the targets' flags as FinishPrint does; any other command leaves the flags alone and returns one reply per planned task, reply k being task k's outcome |
| Dispatch.PlanLength | server/lib/requests.py:120-137 | the plan has one entry per target plus one per permitted target under preheat; an empty target set gives an empty plan |
| Dispatch.AllPermittedLength | server/lib/requests.py:120-137 | with every target permitted, preheat plans 2N entries and every other command N |
| Dispatch.AllPermittedCount | server/lib/requests.py:121 | with every target permitted, the permitted count is the number of targets |
| Dispatch.PlanConcat | server/lib/requests.py:120-137 | the plan of two target lists in sequence is the first plan followed by the second: each printer is planned independently, in iteration order |
| Dispatch.PlanSegment | server/lib/requests.py:120-139 | the entries of target i are contiguous, start right after those of targets 0..i-1 (at i plus, under preheat, the number permitted before it) and are exactly that printer's iteration |
| Dispatch.OffsetStep | server/lib/requests.py:120-137 | the next target's entries start right after this target's entries |
| Dispatch.DeniedPrinter | server/lib/requests.py:136-137 | a denied target has one entry that posts no request and resolves to ('cant perform action', 400) |
| Dispatch.PreheatPrinter | server/lib/requests.py:127-132 | a permitted target under preheat gets the tool request to `.../api/printer/tool` with `{command: target, targets: {tool0: t}}`, then the bed request to `.../api/printer/bed` with `{command: target, target: b}`, and the next target's entries start two places later (address and port free of `{` and `}`) |
| Dispatch.SingleExchangePrinter | server/lib/requests.py:133-135 | a permitted target under a command other than load, preheat and finish gets one exchange posting the command's body to `http://address:port` + route |
| Dispatch.LoadPrinter | server/lib/requests.py:124-126 | a permitted target under load gets one two-step entry: upload to `.../api/files/local`, select at `.../api/files/local/<fileName>`; the next target's entries start right after it |
| Dispatch.ApiKeyOnEveryRequest | server/lib/requests.py:120-137 | every request planned for a target carries that target's key in the `X-Api-Key` header |

## Left out

- The aiohttp session, `asyncio.ensure_future`, `gather` and the event loop of
  `makeRequest`. The model is the ordered task list and the replies in task
  order. Interleaving between tasks is not modelled, nor is one task's failure
  aborting the gather.
- Transport errors (refused connections, timeouts): the `Responder` always
  answers.
- Reading `data/printer-state.json` and reading and writing
  `data/fake-state.json`: these are maps passed in and out. Values of the flag
  file are taken to be booleans.
- The content of `data/file.gco`: the upload carries only its field name,
  remote file name and content type.
- Text versus bytes of replies (`response.text()` against `response.read()` for
  the select step): a reply's content is one string.
- `canPerformCommand` and the values of the `actions` constants: not part of
  this model. Permission is an uninterpreted parameter; commands are constructors.
- `int(toolTemperature)` and `int(bedTemperature)`: the model takes integers.
  Python's string-to-int parsing is not modelled.
- Ports are taken as strings already rendered for the URL. The configuration
  file that holds them is not part of this model.
- `PyStrings.Format` replaces only `{0}` fields. An address or port containing
  braces would be reinterpreted or rejected by Python's `str.format`, so
  Dispatch.PreheatPrinter and Builders.PreheatChannelUrl assume an address
  and port with neither `{` nor `}`.
- `server/api.py` (Flask routing, form parsing, running the shutdown script)
  and `server/websocket.py` (state broadcast throttled on wall-clock time):
  wiring, shell execution and concurrency outside the dispatcher.
- Debug `print` calls.
