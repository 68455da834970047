/** `ServerRequests` (src/main/java/simpleserver/server/ServerRequests.java): the canned
    responses of the server commands that need no login, computed once into a table
    keyed by command name, and looked up with an "unknown server command" default.
    The same responses are written out again by the older server's action table
    (src/main/java/simpleserver/server/SimpleServer.java), which uses these
    definitions too. The clock and the class-path resource are parameters. */
module ServerRequestTable {
  import opened JavaLang
  import opened JsonResponse

  /** The command list of the help response, in order. */
  const HelpCommands: seq<string> := [
    "help",
    "info",
    "ping",
    "uptime",
    "message (username) (message of any length)",
    "open",
    "login (username) (password)",
    "stop"]

  /** `pingBack()`. */
  function PingBack(): JsonObject {
    ServerResponse(Success, "PONG")
  }

  /** `uptime()`, for the whole seconds elapsed since startup. */
  function Uptime(seconds: int): JsonObject {
    AddProperty(ServerResponse(Success, "Server uptime command"), "seconds", JNumber(seconds))
  }

  /** `unknownCommand()`. */
  function UnknownCommand(): JsonObject {
    ServerResponse(Error, "unknown server command")
  }

  /** `help()`. */
  function Help(): JsonObject {
    AddProperty(ServerResponse(Success, "available commands"), "commands", JStringArray(HelpCommands))
  }

  /** The `application.properties` resource: not found on the class path (the
      `NullPointerException` or `IOException` of `properties.load`), or loaded. */
  datatype Properties = NotFound | Loaded(entries: map<string, string>)

  /** `info()`: an error when the resource cannot be loaded; otherwise the
      "version" property and the startup date, where a missing "version" makes
      `properties.get("version").toString()` throw `NullPointerException`. */
  function Info(properties: Properties, creationDate: string): Outcome<JsonObject> {
    match properties
    case NotFound => Returned(ServerResponse(Error, "Server is unable to find the version"))
    case Loaded(entries) =>
      if "version" !in entries then Threw(NullPointer)
      else Returned(AddProperty(AddProperty(ServerResponse(Success, "info request"),
        "serverVersion", JString(entries["version"])), "creationDate", JString(creationDate)))
  }

  /** The table the constructor fills, given the uptime and info responses it
      computed. */
  function RequestTable(uptime: JsonObject, info: JsonObject): map<string, JsonObject> {
    map["ping" := PingBack(), "uptime" := uptime, "info" := info, "help" := Help(), "unknown" := UnknownCommand()]
  }

  /** `getResponse(request)`: `getOrDefault(request, unknownCommand())`. */
  function TableResponse(table: map<string, JsonObject>, request: string): JsonObject {
    if request in table then table[request] else UnknownCommand()
  }

  /** Each of the five keys gives its precomputed entry, and any other key gives the
      same response as "unknown": error "unknown server command". */
  lemma {:induction false} LookupOfTable(uptime: JsonObject, info: JsonObject, request: string)
    ensures var t := RequestTable(uptime, info);
      TableResponse(t, "ping") == PingBack() && TableResponse(t, "uptime") == uptime &&
      TableResponse(t, "info") == info && TableResponse(t, "help") == Help() &&
      TableResponse(t, "unknown") == UnknownCommand()
    ensures request !in {"ping", "uptime", "info", "help", "unknown"} ==>
      TableResponse(RequestTable(uptime, info), request) == TableResponse(RequestTable(uptime, info), "unknown") &&
      Status(TableResponse(RequestTable(uptime, info), request)) == Some(Error) &&
      MessageText(TableResponse(RequestTable(uptime, info), request)) == Some("unknown server command")
  {
  }

  /** "ping" answers success with "PONG"; "help" answers success with "available
      commands" and the eight commands in their fixed order. */
  lemma {:induction false} PingAndHelpTexts()
    ensures Status(PingBack()) == Some(Success) && MessageText(PingBack()) == Some("PONG")
    ensures Status(Help()) == Some(Success) && MessageText(Help()) == Some("available commands")
    ensures Help()["commands"] == JStringArray(HelpCommands) && |HelpCommands| == 8
    ensures HelpCommands[0] == "help" && HelpCommands[7] == "stop"
    ensures Help().Keys == {"status", "message", "commands"}
  {
  }

  /** The uptime response carries the seconds it was built with, next to its status
      and message. */
  lemma {:induction false} UptimeCarriesSeconds(seconds: int)
    ensures Uptime(seconds)["seconds"] == JNumber(seconds)
    ensures Status(Uptime(seconds)) == Some(Success) && MessageText(Uptime(seconds)) == Some("Server uptime command")
  {
  }

  /** `info` fails softly only when the resource is missing: the response is then an
      error; with a "version" entry it reports that version and the startup date. */
  lemma {:induction false} InfoCases(properties: Properties, creationDate: string)
    ensures properties.NotFound? ==>
      Info(properties, creationDate) == Returned(ServerResponse(Error, "Server is unable to find the version"))
    ensures properties.Loaded? && "version" in properties.entries ==>
      Info(properties, creationDate).Returned? &&
      Info(properties, creationDate).value["serverVersion"] == JString(properties.entries["version"]) &&
      Info(properties, creationDate).value["creationDate"] == JString(creationDate) &&
      Status(Info(properties, creationDate).value) == Some(Success)
    ensures properties.Loaded? && "version" !in properties.entries ==> Info(properties, creationDate) == Threw(NullPointer)
  {
  }

  class ServerRequests {
    /** `serverRequests`: filled by the constructor and never written again. */
    const serverRequests: map<string, JsonObject>

    /** `new ServerRequests(startupTime)`, with the seconds between the startup time
        and the construction, and the resource as found then. A resource without a
        "version" entry makes the Java constructor throw, so no table exists. */
    constructor (uptimeSeconds: int, properties: Properties, creationDate: string)
      requires Info(properties, creationDate).Returned?
      ensures serverRequests == RequestTable(Uptime(uptimeSeconds), Info(properties, creationDate).value)
    {
      serverRequests := RequestTable(Uptime(uptimeSeconds), Info(properties, creationDate).value);
    }

    /** `getResponse(request)`. The table is a constant, so every lookup of
        "uptime" gives the seconds computed at construction. */
    method GetResponse(request: string) returns (response: JsonObject)
      ensures request in serverRequests ==> response == serverRequests[request]
      ensures request !in serverRequests ==> response == UnknownCommand()
    {
      response := TableResponse(serverRequests, request);
    }
  }
}
