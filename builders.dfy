/**
 * The request builders of `server/lib/requests.py`: the body table, the
 * upload-name helper, the route table, the URL, and the per-printer exchanges
 * (`sendCommand`, `sendFile`, `sendToolCommand`, `sendBedCommand`,
 * `invalidAction`).
 *
 * Nothing is sent. An exchange is a `Task` that lists the requests it would
 * post, and the printer's HTTP API is a `Responder`: given the requests this
 * task has already posted and the next one, it gives that request's reply.
 */
module Builders {
  import opened Wrappers
  import opened Actions
  import opened Json
  import PyStrings

  /** One entry of the printers configuration. */
  datatype Printer = Printer(address: string, port: string, apiKey: string)

  /** What a POST carries: a JSON body, a multipart form with one file, or an empty form. */
  datatype Payload =
    | JsonBody(body: Json)
    | FileUpload(field: string, fileName: string, contentType: string)
    | EmptyForm

  datatype Request = Request(url: string, headers: map<string, string>, payload: Payload)

  /** A response as the server keeps it: content and HTTP status. */
  datatype Reply = Reply(content: string, status: int)

  /** One entry of the task list that `run` hands to `asyncio.gather`. */
  datatype Task =
    | Exchange(request: Request)                       // one POST, its reply is the outcome
    | UploadThenSelect(upload: Request, select: Request) // two POSTs in sequence, the second reply is the outcome
    | Denied                                           // no POST at all

  /** The printer's HTTP API: (requests this task already posted, next request) -> reply. */
  type Responder = (seq<Request>, Request) -> Reply

  const ApiKeyHeader := "X-Api-Key"
  const UploadField := "file"
  const UploadContentType := "application/octet-stream"
  const DeniedContent := "cant perform action"
  const DeniedStatus := 400

  function AuthHeaders(apiKey: string): map<string, string>
  {
    map[ApiKeyHeader := apiKey]
  }

  /**
   * `addUniqueIdToFile`: splits the name on '.', puts the first piece back
   * formatted into itself, and joins again. No id is added: the result is the
   * argument.
   */
  function AddUniqueIdToFile(filename: string): (r: string)
    ensures r == filename
  {
    var pieces := PyStrings.Split(filename, '.');
    var first := pieces[0];  // '{filename}'.format(filename=pieces[0])
    PyStrings.JoinSplit(filename, '.');
    assert pieces[0 := first] == pieces;
    PyStrings.Join(pieces[0 := first], '.')
  }

  /** `getRequestBody`: the JSON body posted for each command by `sendCommand`. */
  function GetRequestBody(action: Command): Json
  {
    match action
    case Print => JObject([("command", JString("start"))])
    case Pause => JObject([("command", JString("pause")), ("action", JString("pause"))])
    case Resume => JObject([("command", JString("pause")), ("action", JString("resume"))])
    case Load => Empty
    case Cancel => JObject([("command", JString("cancel"))])
    case LoadFile => JObject([("command", JString("select")), ("print", JBool(true))])
    case Preheat => Empty
    case Shutdown => Empty
    case Finish => Empty
  }

  /** Commands whose body is `{}`. */
  predicate HasEmptyBody(action: Command)
  {
    action == Load || action == Preheat || action == Shutdown || action == Finish
  }

  /**
   * How a job-API body names its command: the `command` member, told apart by
   * `action` for pause/resume and by `print` for select. This is the reading
   * against which the body table is checked.
   */
  function CommandOfBody(body: Json): Option<Command>
  {
    match Get(body, "command")
    case Some(JString(c)) =>
      if c == "start" then Some(Print)
      else if c == "cancel" then Some(Cancel)
      else if c == "pause" then
        (if Get(body, "action") == Some(JString("pause")) then Some(Pause)
         else if Get(body, "action") == Some(JString("resume")) then Some(Resume)
         else None)
      else if c == "select" && Get(body, "print") == Some(JBool(true)) then Some(LoadFile)
      else None
    case _ => None
  }

  /**
   * The body table is total and every command with a non-empty body is named
   * by it; the others post `{}` (so shutdown is posted with an empty object).
   */
  lemma RequestBodyNamesCommand(action: Command)
    ensures GetRequestBody(action).JObject?
    ensures GetRequestBody(action) == Empty <==> HasEmptyBody(action)
    ensures !HasEmptyBody(action) ==> CommandOfBody(GetRequestBody(action)) == Some(action)
    ensures HasEmptyBody(action) ==> CommandOfBody(GetRequestBody(action)) == None
  {
  }

  /** Two commands get the same body exactly when they are equal or both post `{}`. */
  lemma RequestBodyInjective(a: Command, b: Command)
    ensures GetRequestBody(a) == GetRequestBody(b) <==> a == b || (HasEmptyBody(a) && HasEmptyBody(b))
  {
    RequestBodyNamesCommand(a);
    RequestBodyNamesCommand(b);
  }

  /** The route template `run` picks for a command. */
  function ApiRoute(command: Command, fileName: string): string
  {
    match command
    case Load => "/api/files/local"
    case LoadFile => "/api/files/local/" + fileName  // '/api/files/local/{0}'.format(fileName)
    case Preheat => "/api/printer/{0}"               // filled in later per channel
    case Shutdown => "/api/system/commands/core/shutdown"
    case _ => "/api/job"
  }

  /** The route selection is exhaustive; the job route serves exactly the job commands. */
  lemma JobRouteCommands(command: Command, fileName: string)
    ensures ApiRoute(command, fileName) == "/api/job" <==>
      command in {Print, Pause, Resume, Cancel, Finish}
    ensures ApiRoute(command, fileName)[..5] == "/api/"
  {
  }

  /** 'http://{address}:{port}{apiRoute}'.format(...) */
  function Url(printer: Printer, route: string): string
  {
    "http://" + printer.address + ":" + printer.port + route
  }

  /** For preheat, formatting the URL with a channel name puts the channel at the end of the route. */
  lemma PreheatChannelUrl(printer: Printer, channel: string)
    requires '{' !in printer.address && '{' !in printer.port
    requires '}' !in printer.address && '}' !in printer.port
    ensures PyStrings.Format(Url(printer, ApiRoute(Preheat, "")), channel)
      == Url(printer, "/api/printer/" + channel)
  {
    var prefix := "http://" + printer.address + ":" + printer.port + "/api/printer/";
    assert Url(printer, ApiRoute(Preheat, "")) == prefix + "{0}";
    assert '{' !in "http://" && '{' !in ":" && '{' !in "/api/printer/";
    assert '}' !in "http://" && '}' !in ":" && '}' !in "/api/printer/";
    PyStrings.FormatTrailingField(prefix, channel);
  }

  /** `sendCommand`: one POST of the command's body. */
  function SendCommand(url: string, apiKey: string, action: Command): Task
  {
    Exchange(Request(url, AuthHeaders(apiKey), JsonBody(GetRequestBody(action))))
  }

  /**
   * `sendFile`: posts the upload form to `url` (an empty form for any command
   * but load), then posts `{command: select}` to `url/<name>`.
   */
  function SendFile(url: string, apiKey: string, action: Command, fileName: string): Task
  {
    var name := AddUniqueIdToFile(fileName);
    var form := if action == Load then FileUpload(UploadField, name, UploadContentType) else EmptyForm;
    UploadThenSelect(
      Request(url, AuthHeaders(apiKey), form),
      Request(url + "/" + name, AuthHeaders(apiKey), JsonBody(JObject([("command", JString("select"))]))))
  }

  /** `sendToolCommand`: the target temperature of extruder 0. */
  function SendToolCommand(url: string, apiKey: string, toolTemperature: int): Task
  {
    Exchange(Request(url, AuthHeaders(apiKey),
      JsonBody(JObject([("command", JString("target")),
                        ("targets", JObject([("tool0", JInt(toolTemperature))]))]))))
  }

  /** `sendBedCommand`: the target temperature of the bed. */
  function SendBedCommand(url: string, apiKey: string, bedTemperature: int): Task
  {
    Exchange(Request(url, AuthHeaders(apiKey),
      JsonBody(JObject([("command", JString("target")), ("target", JInt(bedTemperature))]))))
  }

  /** `invalidAction`: the outcome recorded for a printer that may not run the command. */
  function InvalidAction(): Reply
  {
    Reply(DeniedContent, DeniedStatus)
  }

  /** The requests a task posts, in the order it posts them. */
  function Issued(task: Task): seq<Request>
  {
    match task
    case Exchange(r) => [r]
    case UploadThenSelect(u, s) => [u, s]
    case Denied => []
  }

  /** The value the task resolves to inside `asyncio.gather`. */
  function Outcome(task: Task, respond: Responder): Reply
  {
    match task
    case Exchange(r) => respond([], r)
    case UploadThenSelect(u, s) => respond([u], s)  // the upload's reply is read and dropped
    case Denied => InvalidAction()
  }

  /**
   * A task that posts anything resolves to the reply to its LAST request, given
   * all its earlier ones; a denied task posts nothing and resolves to
   * ('cant perform action', 400).
   */
  lemma OutcomeIsLastReply(task: Task, respond: Responder)
    ensures task.Denied? <==> Issued(task) == []
    ensures task.Denied? ==> Outcome(task, respond) == Reply("cant perform action", 400)
    ensures !task.Denied? ==>
      var rs := Issued(task);
      Outcome(task, respond) == respond(rs[..|rs| - 1], rs[|rs| - 1])
  {
    match task
    case Exchange(r) =>
    case UploadThenSelect(u, s) =>
      assert Issued(task)[..1] == [u];
    case Denied =>
  }

  /**
   * The load exchange: the upload of `fileName` (unchanged by
   * `addUniqueIdToFile`) goes to `url` first; then `{command: select}`, without
   * the print flag that load-file sends, goes to `url + "/" + fileName`; the
   * printer's outcome is the reply to the select, posted after the upload.
   * Both requests carry the API key.
   */
  lemma LoadSequence(url: string, apiKey: string, fileName: string, respond: Responder)
    ensures var task := SendFile(url, apiKey, Load, fileName);
      && Issued(task) == [
           Request(url, map["X-Api-Key" := apiKey], FileUpload("file", fileName, "application/octet-stream")),
           Request(url + "/" + fileName, map["X-Api-Key" := apiKey],
                   JsonBody(JObject([("command", JString("select"))])))]
      && Get(task.select.payload.body, "command") == Some(JString("select"))
      && Get(task.select.payload.body, "print") == None
      && Get(GetRequestBody(LoadFile), "print") == Some(JBool(true))
      && Outcome(task, respond) == respond([Issued(task)[0]], Issued(task)[1])
  {
  }
}
