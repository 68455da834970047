/** The older socket server (src/main/java/simpleserver/server/SimpleServer.java): its
    `ClientHandler` loop, which refreshes the client record from each request while
    needed, runs the login-free commands of its action table, handles login against
    the registered credentials, and passes verified direct messages to the
    `Mailbox` of the same package. Socket reads and writes are abstracted: the lines
    read are the input sequence and every response written is a reply in the output
    sequence. */
module SimpleServers {
  import opened JavaLang
  import opened Messages
  import opened JsonResponse
  import opened Envelope
  import opened MailboxQueues
  import opened UserRepositories
  import opened ServerMailboxes
  import ServerRequestTable
  import RequestHandling

  /** `connectedClients`: every accepted channel, with the username it is known by,
      null until its first request refreshes it. */
  type Connections = map<Channel, Option<string>>

  /** The state the handlers share: the channels, the mailbox's queues and save
      buffer, and the (static) list of registered credentials. */
  datatype World = World(connected: Connections, queues: Table, toSave: seq<Message>, users: seq<Credentials>)

  /** What the clock and the class path give a command: the whole seconds since
      startup when the connection's k-th line is handled, the
      `application.properties` resource, and the startup date. */
  datatype Environment = Environment(uptime: nat -> int, properties: ServerRequestTable.Properties, creationDate: string)

  /** `loadRegisteredUsers()`: an `IOException` (including a missing file) leaves the
      list empty; text Gson decodes to null (blank text, or `null`) makes `addAll`
      throw `NullPointerException`; malformed text throws `JsonSyntaxException`,
      which the `catch (IOException)` does not handle; otherwise the decoded list. */
  function LoadRegisteredUsers(file: StoredFile): Outcome<seq<Credentials>> {
    match file
    case Missing => Returned([])
    case ReadError => Returned([])
    case Stored(_, decoded) =>
      match decoded
      case DecodedList(list) => Returned(list)
      case DecodedNull => Threw(NullPointer)
      case Malformed => Threw(JsonSyntax)
  }

  /** `verifyUser(client)` passes (does not throw `UserVerificationException`) when
      neither the username nor the password is blank. */
  predicate VerifyUser(session: Session) {
    !IsBlank(session.username) && !IsBlank(session.password)
  }

  /** `loginUser(client, username, password)`: a registered credential matching both
      fields gives the client (keyed by its username) a fresh empty queue. There is
      no check that the user is already logged in. */
  function Login(users: seq<Credentials>, queues: Table, key: string, username: string, password: string): (Table, bool) {
    if HasCredential(users, username, password) then (AddRecipient(queues, key), true) else (queues, false)
  }

  /** The entries of the action table. */
  datatype ServerAction = PingBack | ReportUptime | ReportInfo | ShowHelp | OpenMessage | StopServer | UnknownCommand

  /** `serverActions`, filled by the constructor. */
  const ServerActions: map<string, ServerAction> := map[
    "ping" := PingBack, "uptime" := ReportUptime, "info" := ReportInfo,
    "help" := ShowHelp, "open" := OpenMessage, "stop" := StopServer]

  /** `serverActions.getOrDefault(key, SimpleServer::unknownCommand)`. */
  function LookupAction(key: string): ServerAction {
    if key in ServerActions then ServerActions[key] else UnknownCommand
  }

  /** The session and the world after one branch of the handler, and what it
      produced or threw. A branch that throws part-way keeps the changes made before
      the throw. */
  datatype Effect = Effect(session: Session, world: World, outcome: Outcome<Reply>)

  /** The result of handling one line: the new session and world, the reply (if
      any), and whether the loop ends. */
  datatype StepResult = StepResult(session: Session, world: World, reply: Option<Reply>, stop: bool)

  /** A written response with nothing else changed. */
  function Responded(session: Session, world: World, response: JsonObject): Effect {
    Effect(session, world, Returned(Respond(response)))
  }

  /** Running an entry of the action table on the client. "open" pops the client's
      oldest message; a client without a queue makes `pop` on null throw
      `NullPointerException`. */
  function Execute(env: Environment, k: nat, action: ServerAction, session: Session, world: World): Effect {
    match action
    case PingBack => Responded(session, world, ServerRequestTable.PingBack())
    case ReportUptime => Responded(session, world, ServerRequestTable.Uptime(env.uptime(k)))
    case ReportInfo =>
      (match ServerRequestTable.Info(env.properties, env.creationDate)
       case Threw(e) => Effect(session, world, Threw(e))
       case Returned(r) => Responded(session, world, r))
    case ShowHelp => Responded(session, world, ServerRequestTable.Help())
    case OpenMessage =>
      var o := Open(world.queues, session.username);
      (match o.response
       case Threw(e) => Effect(session, world.(queues := o.queues), Threw(e))
       case Returned(r) => Responded(session, world.(queues := o.queues), r))
    case StopServer => Effect(session, world, Returned(ExitServer))
    case UnknownCommand => Responded(session, world, ServerRequestTable.UnknownCommand())
  }

  /** The "login" branch: with both fields, the client takes the login username
      before the credentials are checked; a successful login appends the client's
      username and (session) password to the registered credentials and echoes the
      request's credentials. */
  function ProcessLogin(session: Session, world: World, req: Request): Effect {
    if !(Has(req.loginUsername) && Has(req.loginPassword)) then
      Responded(session, world, ServerResponse(Error, "Cannot login right now"))
    else
      match Read(req.loginUsername)
      case Threw(e) => Effect(session, world, Threw(e))
      case Returned(u) =>
        var s1 := session.(username := u);
        match Read(req.loginPassword)
        case Threw(e) => Effect(s1, world, Threw(e))
        case Returned(p) =>
          var (queues, ok) := Login(world.users, world.queues, u, u, p);
          if ok then
            Responded(s1, world.(queues := queues, users := world.users + [Credentials(u, s1.password)]),
              RequestHandling.LoggedInResponse(u, p))
          else Responded(s1, world, ServerResponse(Error, "Could not login"))
  }

  /** The branch for verified clients: a request with a `messageObject` goes to the
      mailbox, any other gets "unknown command". */
  function ProcessMessage(session: Session, world: World, req: Request): Effect {
    match req.messageObject
    case Absent => Responded(session, world, ServerResponse(Error, "unknown command"))
    case Unreadable(e) => Effect(session, world, Threw(e))
    case Present(m) =>
      var s := Send(world.queues, world.toSave, m);
      var after := world.(queues := s.queues, toSave := s.toSave);
      match s.response
      case Threw(e) => Effect(session, after, Threw(e))
      case Returned(r) => Responded(session, after, r)
  }

  /** The body of the inner `try`. A "request" that is a key of the action table runs
      that action (after `trim` and `toLowerCase`) without verification; "login"
      logs in; anything else needs a verified client. An absent "request" makes the
      login test throw `NullPointerException`, and a JSON null or non-string one
      throws when read, so both are `Read`'s outcome. */
  function Dispatch(env: Environment, k: nat, session: Session, world: World, req: Request): Effect {
    match Read(req.request)
    case Threw(e) => Effect(session, world, Threw(e))
    case Returned(key) =>
      if key in ServerActions then Execute(env, k, LookupAction(Trim(ToLowerCase(key))), session, world)
      else if key == "login" then ProcessLogin(session, world, req)
      else if !VerifyUser(session) then
        Responded(session, world, ServerResponse(Error, "User didnt pass verification. Register/Login to query the server"))
      else ProcessMessage(session, world, req)
  }

  /** One iteration of the read loop. A line Gson cannot parse and a refresh whose
      descriptor cannot be read end the loop, like every exception the inner
      `catch` clauses do not handle; "stop" ends the process. */
  function Step(env: Environment, k: nat, ch: Channel, session: Session, world: World, line: Line): StepResult {
    match line
    case Unparsable => StepResult(session, world, None, true)
    case Parsed(req) =>
      if NeedsRefresh(session) && !req.user.Present? then StepResult(session, world, None, true)
      else
        var s0 := if NeedsRefresh(session) then FromDescriptor(req.user.value) else session;
        var w0 := if NeedsRefresh(session) then world.(connected := world.connected[ch := Some(req.user.value.username)]) else world;
        var e := Dispatch(env, k, s0, w0, req);
        match e.outcome
        case Returned(reply) => StepResult(e.session, e.world, Some(reply), reply.ExitServer?)
        case Threw(x) =>
          match RequestHandling.Caught(x)
          case Some(response) => StepResult(e.session, e.world, Some(Respond(response)), false)
          case None => StepResult(e.session, e.world, None, true)
  }

  /** The `IOException` handler: the channel and the client's queue are removed. A
      client that has not been refreshed yet (the only one not logged in) still has
      a null username, whose queue does not exist. */
  function Cleanup(ch: Channel, session: Session, world: World): World {
    world.(connected := world.connected - {ch},
      queues := if session.loggedIn then RemoveRecipient(world.queues, session.username) else world.queues)
  }

  /** `run()` over the inputs read from the channel: the final world and every reply
      written. Only a failed read cleans up; the end of the stream and the other
      ways out of the loop leave the channel and the queue in place. */
  function Serve(env: Environment, k: nat, ch: Channel, session: Session, world: World, inputs: seq<Input>): (World, seq<Reply>)
    decreases |inputs|
  {
    if inputs == [] then (world, [])
    else
      match inputs[0]
      case ReadFailed(reason) => (Cleanup(ch, session, world), [Respond(ServerResponse(Error, reason))])
      case Received(line) =>
        var r := Step(env, k, ch, session, world, line);
        var sent := if r.reply.Some? then [r.reply.value] else [];
        if r.stop then (r.world, sent)
        else Prefixed(sent, Serve(env, k + 1, ch, r.session, r.world, inputs[1..]))
  }

  /** One input taken off the front of a run. */
  lemma ServeReceived(env: Environment, k: nat, ch: Channel, session: Session, world: World, inputs: seq<Input>, line: Line)
    requires inputs != [] && inputs[0] == Received(line)
    ensures var r := Step(env, k, ch, session, world, line);
      var sent := if r.reply.Some? then [r.reply.value] else [];
      Serve(env, k, ch, session, world, inputs) ==
        if r.stop then (r.world, sent)
        else Prefixed(sent, Serve(env, k + 1, ch, r.session, r.world, inputs[1..]))
  {
  }

  // ----- Loading, verification and login -----

  /** Loading falls back to an empty list on a read failure, and fails exactly when
      Gson does not give a list: with `NullPointerException` for a null result and
      `JsonSyntaxException` for malformed text. */
  lemma {:induction false} LoadRegisteredUsersCases(file: StoredFile)
    ensures file.Missing? || file.ReadError? ==> LoadRegisteredUsers(file) == Returned([])
    ensures LoadRegisteredUsers(file).Threw? <==> file.Stored? && !file.decoded.DecodedList?
    ensures file.Stored? && file.decoded.DecodedNull? ==> LoadRegisteredUsers(file) == Threw(NullPointer)
    ensures file.Stored? && file.decoded.Malformed? ==> LoadRegisteredUsers(file) == Threw(JsonSyntax)
    ensures file.Stored? && file.decoded.DecodedList? ==> LoadRegisteredUsers(file) == Returned(file.decoded.list)
  {
  }

  /** Blank text (the empty file included, which this loader does not test for) and
      the text `null` decode to null, so loading throws `NullPointerException`. */
  lemma {:induction false} NullTextThrows(data: string, decoded: Decoded)
    requires GsonDecoding(data, decoded)
    requires (forall i :: 0 <= i < |data| ==> IsJsonWhitespace(data[i])) || data == "null"
    ensures LoadRegisteredUsers(Stored(data, decoded)) == Threw(NullPointer)
  {
    assert decoded == DecodedNull;
  }

  lemma {:induction false} UnverifiedClientRefused(env: Environment, k: nat, session: Session, world: World, req: Request, key: string)
    requires req.request == Present(key) && key !in ServerActions && key != "login"
    requires IsBlank(session.username) || IsBlank(session.password)
    ensures Dispatch(env, k, session, world, req) ==
      Responded(session, world, ServerResponse(Error, "User didnt pass verification. Register/Login to query the server"))
  {
  }

  /** A login succeeds exactly when a registered credential matches both fields; it
      then gives the key a fresh empty queue and leaves the other queues alone, and
      a failed login changes nothing. */
  lemma {:induction false} LoginCases(users: seq<Credentials>, queues: Table, key: string, u: string, p: string)
    ensures Login(users, queues, key, u, p).1 <==> HasCredential(users, u, p)
    ensures Login(users, queues, key, u, p).1 ==>
      key in Login(users, queues, key, u, p).0 && Login(users, queues, key, u, p).0[key] == [] &&
      forall v :: v in queues && v != key ==> v in Login(users, queues, key, u, p).0 && Login(users, queues, key, u, p).0[v] == queues[v]
    ensures !Login(users, queues, key, u, p).1 ==> Login(users, queues, key, u, p).0 == queues
  {
  }

  /** Without an already-logged-in check, logging in again as a user with unread
      messages succeeds and throws those messages away. */
  lemma {:induction false} SecondLoginDiscardsQueue(session: Session, world: World, req: Request, u: string, p: string)
    requires req.loginUsername == Present(u) && req.loginPassword == Present(p)
    requires HasCredential(world.users, u, p) && u in world.queues && world.queues[u] != []
    ensures var e := ProcessLogin(session, world, req);
      e.outcome == Returned(Respond(RequestHandling.LoggedInResponse(u, p))) &&
      e.world.queues[u] == [] && e.world.queues != world.queues
  {
    var e := ProcessLogin(session, world, req);
    assert e.world.queues[u] != world.queues[u];
  }

  /** The login branch: missing fields give "Cannot login right now"; otherwise the
      client takes the login username in any case, a success appends one credential
      (the login username with the client's password) to the registered list, and a
      failure answers "Could not login" with nothing else changed. */
  lemma {:induction false} LoginResponses(session: Session, world: World, req: Request)
    ensures !Has(req.loginUsername) || !Has(req.loginPassword) ==>
      ProcessLogin(session, world, req) == Responded(session, world, ServerResponse(Error, "Cannot login right now"))
    ensures req.loginUsername.Present? && req.loginPassword.Present? ==>
      var u, p := req.loginUsername.value, req.loginPassword.value;
      var e := ProcessLogin(session, world, req);
      e.session == session.(username := u) &&
      (HasCredential(world.users, u, p) ==>
        e.world.users == world.users + [Credentials(u, session.password)] &&
        |e.world.users| == |world.users| + 1 &&
        e.outcome == Returned(Respond(RequestHandling.LoggedInResponse(u, p)))) &&
      (!HasCredential(world.users, u, p) ==>
        e.world == world && e.outcome == Returned(Respond(ServerResponse(Error, "Could not login"))))
  {
  }

  // ----- The action table -----

  /** Every key of the action table is already trimmed and in lower case, so the
      lookup after `trim().toLowerCase()` finds the key's own action and the
      unknown-command default is never used. */
  lemma {:induction false} ActionKeysAreCanonical(key: string)
    requires key in ServerActions
    ensures Trim(ToLowerCase(key)) == key
    ensures LookupAction(Trim(ToLowerCase(key))) == ServerActions[key] != UnknownCommand
  {
    assert forall i :: 0 <= i < |key| ==> 'a' <= key[i] <= 'z';
    assert ToLowerCase(key) == key;
    TrimmedIsFixed(key);
  }

  /** A request naming a key of the action table runs that action whether or not
      the client would pass verification. */
  lemma {:induction false} ActionsNeedNoVerification(env: Environment, k: nat, session: Session, world: World, req: Request, key: string)
    requires req.request == Present(key) && key in ServerActions
    ensures Dispatch(env, k, session, world, req) == Execute(env, k, ServerActions[key], session, world)
    ensures ServerActions[key] != UnknownCommand
  {
    ActionKeysAreCanonical(key);
  }

  /** "open" on an empty queue throws `NoSuchElementException`, which the handler
      answers with "mailbox is empty" before reading on; on a non-empty queue it
      answers with the oldest message alone, which leaves the queue and nothing
      else. */
  lemma {:induction false} OpenCommand(env: Environment, k: nat, ch: Channel, session: Session, world: World, req: Request)
    requires !NeedsRefresh(session) && req.request == Present("open") && session.username in world.queues
    ensures world.queues[session.username] == [] ==>
      Step(env, k, ch, session, world, Parsed(req)) ==
        StepResult(session, world, Some(Respond(ServerResponse(Error, "mailbox is empty"))), false)
    ensures world.queues[session.username] != [] ==>
      var u := session.username;
      Step(env, k, ch, session, world, Parsed(req)) ==
        StepResult(session, world.(queues := world.queues[u := world.queues[u][1..]]),
          Some(Respond(map["messageObject" := JMessage(world.queues[u][0])])), false)
  {
    ActionsNeedNoVerification(env, k, session, world, req, "open");
    OpenPopsOldest(world.queues, session.username);
  }

  // ----- Direct messages -----

  /** A verified request outside the action table and login with a `messageObject`
      reaches the mailbox, whose queues and save buffer then change as its send
      says; without one the answer is "unknown command". */
  lemma {:induction false} VerifiedMessageGoesToMailbox(env: Environment, k: nat, session: Session, world: World, req: Request, key: string)
    requires req.request == Present(key) && key !in ServerActions && key != "login" && VerifyUser(session)
    ensures req.messageObject.Absent? ==>
      Dispatch(env, k, session, world, req) == Responded(session, world, ServerResponse(Error, "unknown command"))
    ensures req.messageObject.Present? ==>
      var s := Send(world.queues, world.toSave, req.messageObject.value);
      Dispatch(env, k, session, world, req).world == world.(queues := s.queues, toSave := s.toSave) &&
      (s.response.Returned? ==> Dispatch(env, k, session, world, req).outcome == Returned(Respond(s.response.value)))
  {
  }

  /** A full save buffer makes the mailbox throw `IllegalStateException` after the
      message was queued; the handler answers "The server could not parse this
      message" and reads on, the message staying in the receiver's queue. */
  lemma {:induction false} FullSaveBufferReportedAsParseError(env: Environment, k: nat, ch: Channel, session: Session, world: World, req: Request, key: string, m: Message)
    requires !NeedsRefresh(session) && VerifyUser(session)
    requires req.request == Present(key) && key !in ServerActions && key != "login" && req.messageObject == Present(m)
    requires Registered(world.queues, m.receiverId) && HasRoom(world.queues, m.receiverId.value)
    requires |world.toSave| >= SaveBufferCapacity
    ensures var r := Step(env, k, ch, session, world, Parsed(req));
      r.reply == Some(Respond(ServerResponse(Error, "The server could not parse this message"))) && !r.stop &&
      r.world.queues[m.receiverId.value] == world.queues[m.receiverId.value] + [m] && r.world.toSave == world.toSave
  {
  }

  // ----- The connection's lifetime -----

  /** No branch of the dispatch changes the channels. */
  lemma {:induction false} DispatchKeepsChannels(env: Environment, k: nat, session: Session, world: World, req: Request)
    ensures Dispatch(env, k, session, world, req).world.connected == world.connected
  {
    if req.request.Present? {
      var key := req.request.value;
      if key in ServerActions {
        ExecuteKeepsChannels(env, k, LookupAction(Trim(ToLowerCase(key))), session, world);
      } else if key == "login" {
        LoginKeepsChannels(session, world, req);
      } else if VerifyUser(session) {
        MessageKeepsChannels(session, world, req);
      }
    }
  }

  /** An action leaves the channel table alone. */
  lemma ExecuteKeepsChannels(env: Environment, k: nat, action: ServerAction, session: Session, world: World)
    ensures Execute(env, k, action, session, world).world.connected == world.connected
  {
  }

  /** The login branch leaves the channel table alone. */
  lemma LoginKeepsChannels(session: Session, world: World, req: Request)
    ensures ProcessLogin(session, world, req).world.connected == world.connected
  {
  }

  /** The message branch leaves the channel table alone. */
  lemma MessageKeepsChannels(session: Session, world: World, req: Request)
    ensures ProcessMessage(session, world, req).world.connected == world.connected
  {
  }

  /** Nothing but the refresh touches the channels: a step changes at most its own
      channel's entry and never removes it. */
  lemma {:induction false} StepKeepsChannels(env: Environment, k: nat, ch: Channel, session: Session, world: World, line: Line)
    ensures var c := Step(env, k, ch, session, world, line).world.connected;
      (ch in world.connected ==> ch in c) &&
      forall d :: d != ch ==> (d in c <==> d in world.connected) && (d in c ==> c[d] == world.connected[d])
  {
    if line.Parsed? {
      var req := line.request;
      if !(NeedsRefresh(session) && !req.user.Present?) {
        var s0 := if NeedsRefresh(session) then FromDescriptor(req.user.value) else session;
        var w0 := if NeedsRefresh(session) then world.(connected := world.connected[ch := Some(req.user.value.username)]) else world;
        DispatchKeepsChannels(env, k, s0, w0, req);
        assert Step(env, k, ch, session, world, line).world.connected == w0.connected;
      }
    }
  }

  /** A connection that ends without a failed read (end of stream, an unhandled
      exception, "stop") keeps its channel in `connectedClients`. */
  lemma {:induction false} NoCleanupWithoutReadFailure(env: Environment, k: nat, ch: Channel, session: Session, world: World, inputs: seq<Input>)
    requires ch in world.connected
    requires forall i :: 0 <= i < |inputs| ==> inputs[i].Received?
    ensures ch in Serve(env, k, ch, session, world, inputs).0.connected
    decreases |inputs|
  {
    if inputs != [] {
      var r := Step(env, k, ch, session, world, inputs[0].line);
      StepKeepsChannels(env, k, ch, session, world, inputs[0].line);
      if !r.stop {
        NoCleanupWithoutReadFailure(env, k + 1, ch, r.session, r.world, inputs[1..]);
      }
    }
  }

  /** A failed read ends the connection: its message is written back, the channel
      leaves `connectedClients`, and a refreshed client's queue and unread messages
      are gone. */
  lemma {:induction false} ReadFailureCleansUp(env: Environment, k: nat, ch: Channel, session: Session, world: World, reason: string, rest: seq<Input>)
    ensures var (w, sent) := Serve(env, k, ch, session, world, [ReadFailed(reason)] + rest);
      sent == [Respond(ServerResponse(Error, reason))] &&
      ch !in w.connected && (session.loggedIn ==> session.username !in w.queues) &&
      w.users == world.users && w.toSave == world.toSave
  {
    assert ([ReadFailed(reason)] + rest)[0] == ReadFailed(reason);
  }

  /** The server: its channels, its registered credentials (a static list in the
      source), its mailbox and what the clock and the class path give. */
  class SimpleServer {
    var connectedClients: Connections
    var registeredUsers: seq<Credentials>
    const mailbox: ServerMailbox
    const environment: Environment

    /** `new SimpleServer()`, which loads the registered credentials; a credentials
        file whose loading throws leaves no server. */
    constructor (environment: Environment, file: StoredFile)
      requires LoadRegisteredUsers(file).Returned?
      ensures fresh(mailbox) && mailbox.Valid() && mailbox.unreadMessages == map[] && mailbox.messagesToSave == []
      ensures connectedClients == map[] && registeredUsers == LoadRegisteredUsers(file).value
      ensures this.environment == environment
    {
      connectedClients := map[];
      registeredUsers := LoadRegisteredUsers(file).value;
      mailbox := new ServerMailbox();
      this.environment := environment;
    }

    /** `connectedClients.put(clientSocket, null)` in `go()` for an accepted
        channel. */
    method Accept(ch: Channel)
      modifies this
      ensures connectedClients == old(connectedClients)[ch := None]
      ensures registeredUsers == old(registeredUsers)
    {
      connectedClients := connectedClients[ch := None];
    }

    /** `loginUser(client, username, password)`. */
    method LoginUser(key: string, username: string, password: string) returns (ok: bool)
      requires mailbox.Valid()
      modifies mailbox
      ensures mailbox.Valid() && mailbox.messagesToSave == old(mailbox.messagesToSave)
      ensures (mailbox.unreadMessages, ok) == Login(registeredUsers, old(mailbox.unreadMessages), key, username, password)
    {
      ok := HasCredential(registeredUsers, username, password);
      if ok {
        mailbox.AddClient(key);
      }
    }
  }

  /** `ClientHandler`: the loop serving one channel. */
  class ClientHandler {
    var client: Session
    const channel: Channel
    const server: SimpleServer

    predicate Wired()
      reads server, server.mailbox
    {
      server.mailbox.Valid()
    }

    /** The shared state as one value. */
    function State(): World
      reads server, server.mailbox
    {
      World(server.connectedClients, server.mailbox.unreadMessages, server.mailbox.messagesToSave, server.registeredUsers)
    }

    /** `new ClientHandler(clientSocket)`: a client that is not logged in. */
    constructor (server: SimpleServer, channel: Channel)
      ensures client == FreshSession && this.server == server && this.channel == channel
    {
      this.server := server;
      this.channel := channel;
      client := FreshSession;
    }

    /** `action.execute(this.client)`. */
    method ExecuteAction(action: ServerAction, k: nat) returns (r: Outcome<Reply>)
      requires Wired()
      modifies server.mailbox
      ensures Wired()
      ensures Effect(client, State(), r) == Execute(server.environment, k, action, old(client), old(State()))
    {
      match action {
        case PingBack => r := Returned(Respond(ServerRequestTable.PingBack()));
        case ReportUptime => r := Returned(Respond(ServerRequestTable.Uptime(server.environment.uptime(k))));
        case ReportInfo =>
          var info := ServerRequestTable.Info(server.environment.properties, server.environment.creationDate);
          if info.Threw? {
            r := Threw(info.error);
          } else {
            r := Returned(Respond(info.value));
          }
        case ShowHelp => r := Returned(Respond(ServerRequestTable.Help()));
        case OpenMessage =>
          var response := server.mailbox.OpenMessage(client.username);
          if response.Threw? {
            r := Threw(response.error);
          } else {
            r := Returned(Respond(response.value));
          }
        case StopServer => r := Returned(ExitServer);
        case UnknownCommand => r := Returned(Respond(ServerRequestTable.UnknownCommand()));
      }
    }

    /** The "login" branch of the loop. */
    method LoginRequest(request: Request) returns (r: Outcome<Reply>)
      requires Wired()
      modifies this, server, server.mailbox
      ensures Wired()
      ensures Effect(client, State(), r) == ProcessLogin(old(client), old(State()), request)
    {
      if !(Has(request.loginUsername) && Has(request.loginPassword)) {
        return Returned(Respond(ServerResponse(Error, "Cannot login right now")));
      }
      var username := Read(request.loginUsername);
      if username.Threw? {
        return Threw(username.error);
      }
      client := client.(username := username.value);
      var password := Read(request.loginPassword);
      if password.Threw? {
        return Threw(password.error);
      }
      var ok := server.LoginUser(client.username, username.value, password.value);
      if ok {
        server.registeredUsers := server.registeredUsers + [Credentials(client.username, client.password)];
        r := Returned(Respond(RequestHandling.LoggedInResponse(username.value, password.value)));
      } else {
        r := Returned(Respond(ServerResponse(Error, "Could not login")));
      }
    }

    /** The branch for verified clients. */
    method MessageRequest(request: Request) returns (r: Outcome<Reply>)
      requires Wired()
      modifies server.mailbox
      ensures Wired()
      ensures Effect(client, State(), r) == ProcessMessage(old(client), old(State()), request)
    {
      match request.messageObject {
        case Absent => r := Returned(Respond(ServerResponse(Error, "unknown command")));
        case Unreadable(e) => r := Threw(e);
        case Present(m) =>
          var response := server.mailbox.SendMessage(m);
          if response.Threw? {
            r := Threw(response.error);
          } else {
            r := Returned(Respond(response.value));
          }
      }
    }

    /** One iteration of the loop in `run()`, for the connection's k-th line. */
    method HandleLine(line: Line, k: nat) returns (reply: Option<Reply>, stop: bool)
      requires Wired()
      modifies this, server, server.mailbox
      ensures Wired()
      ensures StepResult(client, State(), reply, stop) == Step(server.environment, k, channel, old(client), old(State()), line)
    {
      if line.Unparsable? {
        return None, true;
      }
      var request := line.request;
      if NeedsRefresh(client) {
        var user := Read(request.user);
        if user.Threw? {
          return None, true;
        }
        var d := user.value;
        client := Session(d.username, d.password, d.authority, d.isLoggedIn);
        server.connectedClients := server.connectedClients[channel := Some(client.username)];
        client := client.(loggedIn := true);
      }
      var requestType := Read(request.request);
      var r: Outcome<Reply>;
      if requestType.Threw? {
        r := Threw(requestType.error);
      } else if requestType.value in ServerActions {
        var clientRequest := Trim(ToLowerCase(requestType.value));
        r := ExecuteAction(LookupAction(clientRequest), k);
      } else if requestType.value == "login" {
        r := LoginRequest(request);
      } else if !VerifyUser(client) {
        r := Returned(Respond(ServerResponse(Error, "User didnt pass verification. Register/Login to query the server")));
      } else {
        r := MessageRequest(request);
      }
      if r.Returned? {
        reply, stop := Some(r.value), r.value.ExitServer?;
      } else {
        var response := RequestHandling.Caught(r.error);
        if response.Some? {
          reply, stop := Some(Respond(response.value)), false;
        } else {
          reply, stop := None, true;
        }
      }
    }

    /** `run()`: lines are handled until the input ends, a read fails, an unhandled
        exception ends the loop or "stop" ends the process; only a failed read
        removes the channel and the client's queue. */
    method Run(inputs: seq<Input>) returns (sent: seq<Reply>)
      requires Wired()
      modifies this, server, server.mailbox
      ensures Wired()
      ensures (State(), sent) == Serve(server.environment, 0, channel, old(client), old(State()), inputs)
    {
      var i := 0;
      var stopped := false;
      sent := [];
      ghost var whole := Serve(server.environment, 0, channel, old(client), old(State()), inputs);
      assert inputs[i..] == inputs;
      assert sent + whole.1 == whole.1;
      while i < |inputs| && !stopped
        invariant 0 <= i <= |inputs| && Wired()
        invariant whole ==
          if stopped then (State(), sent)
          else Prefixed(sent, Serve(server.environment, i, channel, client, State(), inputs[i..]))
        decreases |inputs| - i, !stopped
      {
        ghost var before := State();
        ghost var session := client;
        ghost var rest := inputs[i..];
        ghost var prior := sent;
        assert rest != [] && rest[0] == inputs[i] && rest[1..] == inputs[i + 1..];
        match inputs[i]
        case ReadFailed(reason) =>
          var failed := [Respond(ServerResponse(Error, reason))];
          assert Serve(server.environment, i, channel, session, before, rest) == (Cleanup(channel, session, before), failed);
          sent := sent + failed;
          server.connectedClients := server.connectedClients - {channel};
          if client.loggedIn {
            server.mailbox.RemoveClient(client.username);
          }
          stopped := true;
          assert State() == Cleanup(channel, session, before);
        case Received(line) =>
          var reply, stop := HandleLine(line, i);
          var replies := if reply.Some? then [reply.value] else [];
          ServeReceived(server.environment, i, channel, session, before, rest, line);
          sent := sent + replies;
          if stop {
            stopped := true;
          } else {
            PrefixedTwice(prior, replies, Serve(server.environment, i + 1, channel, client, State(), inputs[i + 1..]));
            i := i + 1;
          }
      }
      if !stopped {
        assert inputs[i..] == [];
        assert sent + [] == sent;
      }
    }
  }
}
