/** `ClientRequestHandler` (src/main/java/simpleserver/server/ClientRequestHandler.java):
    the per-connection loop of the current server. Each line is one request; the
    handler refreshes its record of the client from the request's user descriptor
    when needed, then dispatches on the request type to login, registration,
    direct messaging or the server's action table. Socket reads and writes are
    abstracted: the lines read are the input sequence and every response written is
    a reply in the output sequence. */
module RequestHandling {
  import opened JavaLang
  import opened Messages
  import opened JsonResponse
  import opened Envelope
  import opened LoginResults
  import opened MailboxQueues
  import opened UserRepositories
  import opened MessageRepositories
  import opened MessageServices
  import opened UserServices

  /** The state the handler reaches through its services: the directory, the
      message queues, the repository's save buffer and the stored credentials. */
  datatype Services = Services(connected: Directory, queues: Table, saved: seq<Message>, users: seq<Credentials>)

  /** An entry of the server's action table (`ServerRequest`), which runs on the
      client and writes its own response; `UnknownCommand` is the table's default. */
  datatype ServerAction = Action(name: string) | UnknownCommand

  /** What running an entry of the action table on the client does when the
      connection's k-th line asks for it: write a response, end the process, or
      throw. The actions work on the server's own state (its clock, its mailbox, its
      resources), which the handler's services do not hold and other connections
      change as well, so their outcome is a parameter of the model. */
  type ActionRunner = (nat, ServerAction, Session) -> Outcome<Reply>

  /** The session and services after one of the handler's private methods, and what
      it produced or threw. A method that throws part-way keeps the changes made
      before the throw. */
  datatype Effect<+T> = Effect(session: Session, services: Services, outcome: Outcome<T>)

  /** The result of handling one line: the new session and services, the reply
      written (if any), and whether the loop ends. */
  datatype StepResult = StepResult(session: Session, services: Services, reply: Option<Reply>, stop: bool)

  /** `getOrDefault(requestType, server::unknownCommand)` on the action table. */
  function Lookup(actions: map<string, ServerAction>, requestType: string): ServerAction {
    if requestType in actions then actions[requestType] else UnknownCommand
  }

  /** The inner `catch` clauses around the dispatch: the response they write, or
      `None` for an exception that escapes to the outer handler and ends the
      loop. */
  function Caught(e: Exception): Option<JsonObject> {
    if e == JsonSyntax || e == IllegalState then Some(ServerResponse(Error, "The server could not parse this message"))
    else if e == NoSuchElement then Some(ServerResponse(Error, "mailbox is empty"))
    else None
  }

  /** `updateClientInfoFromRequest(jsonMessage)`: the session is rebuilt from the
      request's user descriptor, the directory entry of this channel (if any) takes
      the descriptor's username, and the session is marked logged in. */
  function Refresh(ch: Channel, session: Session, svc: Services, req: Request): Effect<Unit> {
    match Read(req.user)
    case Threw(e) => Effect(session, svc, Threw(e))
    case Returned(d) => Effect(FromDescriptor(d), svc.(connected := Update(svc.connected, ch, d.username)), Returned(Unit))
  }

  /** An error response. */
  function Rejected(session: Session, svc: Services, message: string): Effect<Reply> {
    Effect(session, svc, Returned(Respond(ServerResponse(Error, message))))
  }

  /** `processMessageRequest(jsonMessage)`: the sender must be connected, must be the
      session's own username, and the receiver must be connected; only then is the
      message handed to the message service. */
  function ProcessMessage(session: Session, svc: Services, req: Request): Effect<Reply> {
    match Read(req.messageObject)
    case Threw(e) => Effect(session, svc, Threw(e))
    case Returned(m) =>
      if !UserIsConnected(svc.connected, m.senderId) then
        Rejected(session, svc, "Client error - client is not logged in")
      else if m.senderId != Some(session.username) then
        Rejected(session, svc, "Client error - username doesnt equal sender ID")
      else if !UserIsConnected(svc.connected, m.receiverId) then
        Rejected(session, svc, "Recipient is not logged in or registered")
      else
        var s := Send(svc.queues, svc.saved, m);
        var after := svc.(queues := s.queues, saved := s.saved);
        match s.response
        case Threw(e) => Effect(session, after, Threw(e))
        case Returned(r) => Effect(session, after, Returned(Respond(r)))
  }

  /** The response to a successful registration, echoing the new credentials. */
  function RegisteredResponse(username: string, password: string): JsonObject {
    AddProperty(AddProperty(ServerResponse(Success, "Sucessfully Registered and logged as new user"),
      "registerUsername", JString(username)), "registerPassword", JString(password))
  }

  /** The response to a successful login, echoing the credentials. */
  function LoggedInResponse(username: string, password: string): JsonObject {
    AddProperty(AddProperty(ServerResponse(Success, "Successfully Logged In"),
      "loginUsername", JString(username)), "loginPassword", JString(password))
  }

  /** `processClientRegistrationFromRequest(jsonMessage)`: with both fields, the
      credential is registered if the username is free; the session then takes the
      new credentials and logs in with them. */
  function ProcessRegistration(ch: Channel, session: Session, svc: Services, req: Request): Effect<Reply> {
    if !(Has(req.registerUsername) && Has(req.registerPassword)) then
      Rejected(session, svc, "Error during registration, check API docs")
    else
      match Read(req.registerUsername)
      case Threw(e) => Effect(session, svc, Threw(e))
      case Returned(u) =>
        match Read(req.registerPassword)
        case Threw(e) => Effect(session, svc, Threw(e))
        case Returned(p) =>
          var (users, registered) := Register(svc.users, u, p);
          if !registered then
            Rejected(session, svc, "User already registered with this username")
          else
            var s1 := session.(username := u, password := p);
            var o := Login(users, svc.connected, svc.queues, ch, u, p);
            var after := Services(o.connected, o.queues, svc.saved, users);
            if o.result == LoginSuccess then Effect(s1, after, Returned(Respond(RegisteredResponse(u, p))))
            else Rejected(s1, after, "user registered but unable to login")
  }

  /** `processClientLoginRequest(jsonMessage)`: with both fields, the session takes
      the login username before the credentials are checked; the response echoes the
      credentials on success and names the `LoginResult` otherwise. */
  function ProcessLogin(ch: Channel, session: Session, svc: Services, req: Request): Effect<Reply> {
    if !(Has(req.loginUsername) && Has(req.loginPassword)) then
      Rejected(session, svc, "Message not formatted properly. check API docs")
    else
      match Read(req.loginUsername)
      case Threw(e) => Effect(session, svc, Threw(e))
      case Returned(u) =>
        var s1 := session.(username := u);
        match Read(req.loginPassword)
        case Threw(e) => Effect(s1, svc, Threw(e))
        case Returned(p) =>
          var o := Login(svc.users, svc.connected, svc.queues, ch, u, p);
          var after := svc.(connected := o.connected, queues := o.queues);
          if o.result == LoginSuccess then Effect(s1, after, Returned(Respond(LoggedInResponse(u, p))))
          else Rejected(s1, after, ToString(o.result))
  }

  /** The `switch` on the request type. */
  function Dispatch(ch: Channel, actions: map<string, ServerAction>, run: ActionRunner, k: nat, session: Session, svc: Services, req: Request): Effect<Reply> {
    match Read(req.request)
    case Threw(e) => Effect(session, svc, Threw(e))
    case Returned(requestType) =>
      if requestType == "login" then ProcessLogin(ch, session, svc, req)
      else if requestType == "register" then ProcessRegistration(ch, session, svc, req)
      else if requestType == "message" then ProcessMessage(session, svc, req)
      else Effect(session, svc, run(k, Lookup(actions, requestType), session))
  }

  /** One iteration of the read loop for the connection's k-th line. A line Gson
      cannot parse, a failed refresh, an exception the inner `catch` does not handle
      and an action that ends the process all end the loop. */
  function Step(ch: Channel, actions: map<string, ServerAction>, run: ActionRunner, k: nat, session: Session, svc: Services, line: Line): StepResult {
    match line
    case Unparsable => StepResult(session, svc, None, true)
    case Parsed(req) =>
      var refreshed := if NeedsRefresh(session) then Refresh(ch, session, svc, req) else Effect(session, svc, Returned(Unit));
      if refreshed.outcome.Threw? then StepResult(session, svc, None, true)
      else
        var e := Dispatch(ch, actions, run, k, refreshed.session, refreshed.services, req);
        match e.outcome
        case Returned(reply) => StepResult(e.session, e.services, Some(reply), reply.ExitServer?)
        case Threw(x) =>
          match Caught(x)
          case Some(response) => StepResult(e.session, e.services, Some(Respond(response)), false)
          case None => StepResult(e.session, e.services, None, true)
  }

  /** The `finally` block: "Ending connection" is written and the channel is
      disconnected. */
  function Finish(ch: Channel, svc: Services, sent: seq<Reply>): (Services, seq<Reply>) {
    (svc.(connected := Disconnect(svc.connected, ch)), sent + [Respond(ServerResponse(Error, "Ending connection"))])
  }

  /** How the loop ends: an action that calls `System.exit` ends the process on the
      spot, with nothing written after it; every other way out runs the `finally`
      block. */
  function Ended(ch: Channel, svc: Services, sent: seq<Reply>, exited: bool): (Services, seq<Reply>) {
    if exited then (svc, sent) else Finish(ch, svc, sent)
  }

  /** `run()` over the inputs read from the channel, the first of them being the
      connection's k-th line: the final services and every reply written. A failed
      read writes its message and disconnects before the `finally` block runs. */
  function Serve(ch: Channel, actions: map<string, ServerAction>, run: ActionRunner, k: nat, session: Session, svc: Services, inputs: seq<Input>): (Services, seq<Reply>)
    decreases |inputs|
  {
    if inputs == [] then Finish(ch, svc, [])
    else
      match inputs[0]
      case ReadFailed(reason) =>
        Finish(ch, svc.(connected := Disconnect(svc.connected, ch)), [Respond(ServerResponse(Error, reason))])
      case Received(line) =>
        var r := Step(ch, actions, run, k, session, svc, line);
        var sent := if r.reply.Some? then [r.reply.value] else [];
        if r.stop then Ended(ch, r.services, sent, r.reply == Some(ExitServer))
        else Prefixed(sent, Serve(ch, actions, run, k + 1, r.session, r.services, inputs[1..]))
  }

  /** Replies written before a run's last reply come first in its ending. */
  lemma PrefixedEnded(prior: seq<Reply>, ch: Channel, svc: Services, sent: seq<Reply>, exited: bool)
    ensures Prefixed(prior, Ended(ch, svc, sent, exited)) == Ended(ch, svc, prior + sent, exited)
  {
    assert prior + (sent + [Respond(ServerResponse(Error, "Ending connection"))]) ==
      (prior + sent) + [Respond(ServerResponse(Error, "Ending connection"))];
  }

  /** One input taken off the front of a run. */
  lemma ServeReceived(ch: Channel, actions: map<string, ServerAction>, run: ActionRunner, k: nat, session: Session, svc: Services, inputs: seq<Input>, line: Line)
    requires inputs != [] && inputs[0] == Received(line)
    ensures var r := Step(ch, actions, run, k, session, svc, line);
      var sent := if r.reply.Some? then [r.reply.value] else [];
      Serve(ch, actions, run, k, session, svc, inputs) ==
        if r.stop then Ended(ch, r.services, sent, r.reply == Some(ExitServer))
        else Prefixed(sent, Serve(ch, actions, run, k + 1, r.session, r.services, inputs[1..]))
  {
  }

  /** Directories that agree on every channel but `ch`. */
  ghost predicate SameOtherChannels(a: Directory, b: Directory, ch: Channel) {
    forall c :: c != ch ==> (c in a <==> c in b) && (c in a ==> a[c] == b[c])
  }

  /** Agreeing on the other channels carries through two changes. */
  lemma SameOtherChannelsChain(a: Directory, b: Directory, c: Directory, ch: Channel)
    requires SameOtherChannels(a, b, ch) && SameOtherChannels(b, c, ch)
    ensures SameOtherChannels(a, c, ch)
  {
  }

  // ----- Messages -----

  /** A message whose sender is not connected is refused first, whatever else is
      wrong with it; nothing changes. */
  lemma {:induction false} MessageFromOfflineSender(session: Session, svc: Services, req: Request, m: Message)
    requires req.messageObject == Present(m) && !UserIsConnected(svc.connected, m.senderId)
    ensures ProcessMessage(session, svc, req) == Rejected(session, svc, "Client error - client is not logged in")
  {
  }

  /** A message from a connected sender other than the session's own user is
      refused as forged, before the receiver is looked at; nothing is enqueued. */
  lemma {:induction false} ForgedSenderRejected(session: Session, svc: Services, req: Request, m: Message)
    requires req.messageObject == Present(m) && UserIsConnected(svc.connected, m.senderId)
    requires m.senderId != Some(session.username)
    ensures ProcessMessage(session, svc, req) == Rejected(session, svc, "Client error - username doesnt equal sender ID")
    ensures ProcessMessage(session, svc, req).services.queues == svc.queues
  {
  }

  /** A message from the session's own connected user to a receiver that is not
      connected is refused; nothing changes. */
  lemma {:induction false} MessageToOfflineReceiver(session: Session, svc: Services, req: Request, m: Message)
    requires req.messageObject == Present(m) && m.senderId == Some(session.username)
    requires UserIsConnected(svc.connected, m.senderId) && !UserIsConnected(svc.connected, m.receiverId)
    ensures ProcessMessage(session, svc, req) == Rejected(session, svc, "Recipient is not logged in or registered")
  {
  }

  /** The message service is reached exactly when all three checks pass, and its
      answer is then passed on unchanged: the services change only through a send. */
  lemma {:induction false} MessageSentOnlyAfterChecks(session: Session, svc: Services, req: Request, m: Message)
    requires req.messageObject == Present(m)
    ensures var e := ProcessMessage(session, svc, req);
      var s := Send(svc.queues, svc.saved, m);
      (UserIsConnected(svc.connected, m.senderId) && m.senderId == Some(session.username) && UserIsConnected(svc.connected, m.receiverId))
      <==> (e.services == svc.(queues := s.queues, saved := s.saved) &&
            (s.response.Returned? ==> e.outcome == Returned(Respond(s.response.value))) &&
            (s.response.Threw? ==> e.outcome == Threw(s.response.error)))
    ensures ProcessMessage(session, svc, req).session == session
    ensures ProcessMessage(session, svc, req).services.connected == svc.connected
    ensures ProcessMessage(session, svc, req).services.users == svc.users
  {
    var e := ProcessMessage(session, svc, req);
    var s := Send(svc.queues, svc.saved, m);
    var checks := UserIsConnected(svc.connected, m.senderId) && m.senderId == Some(session.username) && UserIsConnected(svc.connected, m.receiverId);
    if !checks {
      assert e.outcome.Returned? && e.outcome.value.Respond?;
      var text := MessageText(e.outcome.value.response);
      assert text != Some("Message sent successfully") && text != Some("Client Mailbox is full");
      if s.response.Returned? {
        assert s.response.value == ServerResponse(Success, "Message sent successfully") ||
          s.response.value == ServerResponse(Error, "Client Mailbox is full");
        ServerResponseDeterminedByFields(Success, "Message sent successfully", Error, "Client Mailbox is full");
      }
    }
  }

  // ----- Login -----

  /** A login request missing either field is refused before any service call. */
  lemma {:induction false} LoginNeedsBothFields(ch: Channel, session: Session, svc: Services, req: Request)
    requires !Has(req.loginUsername) || !Has(req.loginPassword)
    ensures ProcessLogin(ch, session, svc, req) == Rejected(session, svc, "Message not formatted properly. check API docs")
  {
  }

  /** With both fields readable, the session takes the login username whatever the
      outcome; a success echoes the credentials, any other result is reported by its
      text, and the services change as the user service's login says. */
  lemma {:induction false} LoginReportsResult(ch: Channel, session: Session, svc: Services, req: Request, u: string, p: string)
    requires req.loginUsername == Present(u) && req.loginPassword == Present(p)
    ensures var e := ProcessLogin(ch, session, svc, req);
      var o := Login(svc.users, svc.connected, svc.queues, ch, u, p);
      e.session == session.(username := u) &&
      e.services == svc.(connected := o.connected, queues := o.queues) &&
      (o.result == LoginSuccess ==> e.outcome == Returned(Respond(LoggedInResponse(u, p)))) &&
      (o.result != LoginSuccess ==> e.outcome == Returned(Respond(ServerResponse(Error, ToString(o.result)))))
  {
  }

  /** The echoed credentials of a successful login are the request's own, and the
      response says so with status "success". */
  lemma {:induction false} LoggedInResponseEchoes(u: string, p: string)
    ensures var r := LoggedInResponse(u, p);
      Status(r) == Some(Success) && MessageText(r) == Some("Successfully Logged In") &&
      r["loginUsername"] == JString(u) && r["loginPassword"] == JString(p) &&
      r.Keys == {"status", "message", "loginUsername", "loginPassword"}
  {
  }

  // ----- Registration -----

  /** A registration request missing either field is refused with nothing changed. */
  lemma {:induction false} RegistrationNeedsBothFields(ch: Channel, session: Session, svc: Services, req: Request)
    requires !Has(req.registerUsername) || !Has(req.registerPassword)
    ensures ProcessRegistration(ch, session, svc, req) == Rejected(session, svc, "Error during registration, check API docs")
  {
  }

  /** A taken username is refused; the session keeps its username and password and
      nothing is stored. */
  lemma {:induction false} RegistrationOfTakenUsername(ch: Channel, session: Session, svc: Services, req: Request, u: string, p: string)
    requires req.registerUsername == Present(u) && req.registerPassword == Present(p)
    requires UsernameTaken(svc.users, u)
    ensures ProcessRegistration(ch, session, svc, req) == Rejected(session, svc, "User already registered with this username")
  {
  }

  /** A free username is stored with its password, the session takes both, and the
      handler logs in with them: the response echoes them on success and reports
      "user registered but unable to login" otherwise. */
  lemma {:induction false} RegistrationOfNewUsername(ch: Channel, session: Session, svc: Services, req: Request, u: string, p: string)
    requires req.registerUsername == Present(u) && req.registerPassword == Present(p)
    requires !UsernameTaken(svc.users, u)
    ensures var e := ProcessRegistration(ch, session, svc, req);
      var users := svc.users + [Credentials(u, p)];
      var o := Login(users, svc.connected, svc.queues, ch, u, p);
      e.session == session.(username := u, password := p) &&
      e.services == Services(o.connected, o.queues, svc.saved, users) &&
      (o.result == LoginSuccess ==> e.outcome == Returned(Respond(RegisteredResponse(u, p)))) &&
      (o.result != LoginSuccess ==> e.outcome == Returned(Respond(ServerResponse(Error, "user registered but unable to login"))))
  {
  }

  /** After a registration the login with the new credentials fails only when the
      username is already in the directory (which `updateClient` can bring about),
      and it then fails as "user already logged in". */
  lemma {:induction false} NewUserLogsIn(ch: Channel, session: Session, svc: Services, req: Request, u: string, p: string)
    requires req.registerUsername == Present(u) && req.registerPassword == Present(p)
    requires !UsernameTaken(svc.users, u)
    ensures var e := ProcessRegistration(ch, session, svc, req);
      (e.outcome == Returned(Respond(RegisteredResponse(u, p))) <==> u !in svc.connected.Values) &&
      (u !in svc.connected.Values ==> e.services.connected == svc.connected[ch := u] && e.services.queues[u] == [])
  {
    var users := svc.users + [Credentials(u, p)];
    RegisterAddIfAbsent(svc.users, u, p);
    assert HasCredential(users, u, p);
    LoginSucceeds(users, svc.connected, svc.queues, ch, u, p);
    var r := RegisteredResponse(u, p);
    assert r["status"] == JString(Success);
    assert ServerResponse(Error, "user registered but unable to login")["status"] == JString(Error);
  }

  // ----- Dispatch -----

  /** A request type other than "login", "register" and "message" runs the entry of
      the server's action table for it, whose default is the unknown command; the
      action's outcome is the dispatch's, and neither the session nor the services
      change. */
  lemma {:induction false} OtherRequestsGoToActionTable(ch: Channel, actions: map<string, ServerAction>, run: ActionRunner, k: nat, session: Session, svc: Services, req: Request, t: string)
    requires req.request == Present(t) && t != "login" && t != "register" && t != "message"
    ensures Dispatch(ch, actions, run, k, session, svc, req) == Effect(session, svc, run(k, Lookup(actions, t), session))
    ensures t !in actions ==> Lookup(actions, t) == UnknownCommand
    ensures t in actions ==> Lookup(actions, t) == actions[t]
  {
  }

  /** What an action's outcome does to the loop, for a session that needs no
      refresh: a response is written and the loop goes on; an empty mailbox's
      `NoSuchElementException` is answered "mailbox is empty" and the loop goes on;
      any exception the inner `catch` does not handle ends the loop without a reply;
      and `System.exit` ends the run with nothing written after it, the `finally`
      block included. */
  lemma {:induction false} ActionOutcomes(ch: Channel, actions: map<string, ServerAction>, run: ActionRunner, k: nat, session: Session, svc: Services, req: Request, t: string, rest: seq<Input>)
    requires !NeedsRefresh(session)
    requires req.request == Present(t) && t != "login" && t != "register" && t != "message"
    ensures var o := run(k, Lookup(actions, t), session);
      var r := Step(ch, actions, run, k, session, svc, Parsed(req));
      r.session == session && r.services == svc &&
      (o.Returned? && o.value.Respond? ==> r.reply == Some(o.value) && !r.stop) &&
      (o == Threw(NoSuchElement) ==> r.reply == Some(Respond(ServerResponse(Error, "mailbox is empty"))) && !r.stop) &&
      (o.Threw? && Caught(o.error).None? ==> r.reply == None && r.stop) &&
      (o == Returned(ExitServer) ==> Serve(ch, actions, run, k, session, svc, [Received(Parsed(req))] + rest) == (svc, [ExitServer]))
  {
    var inputs := [Received(Parsed(req))] + rest;
    ServeReceived(ch, actions, run, k, session, svc, inputs, Parsed(req));
  }

  /** Only a line that parses is answered; a session that needs it is refreshed
      before the request is looked at, and a refresh that throws ends the loop with
      nothing changed. */
  lemma {:induction false} RefreshComesFirst(ch: Channel, actions: map<string, ServerAction>, run: ActionRunner, k: nat, session: Session, svc: Services, req: Request)
    requires NeedsRefresh(session)
    ensures !req.user.Present? ==> Step(ch, actions, run, k, session, svc, Parsed(req)) == StepResult(session, svc, None, true)
    ensures req.user.Present? ==>
      var d := req.user.value;
      var s1 := FromDescriptor(d);
      var svc1 := svc.(connected := Update(svc.connected, ch, d.username));
      var e := Dispatch(ch, actions, run, k, s1, svc1, req);
      Step(ch, actions, run, k, session, svc, Parsed(req)).services == e.services &&
      Step(ch, actions, run, k, session, svc, Parsed(req)).session == e.session
    ensures Step(ch, actions, run, k, session, svc, Unparsable) == StepResult(session, svc, None, true)
  {
  }

  /** Exceptions the inner `catch` handles become error responses and the loop goes
      on; every other exception ends the loop without a response. */
  lemma {:induction false} CaughtExceptions(e: Exception)
    ensures Caught(e).Some? <==> e in {JsonSyntax, IllegalState, NoSuchElement}
    ensures e == NoSuchElement ==> MessageText(Caught(e).value) == Some("mailbox is empty")
    ensures e == JsonSyntax || e == IllegalState ==> MessageText(Caught(e).value) == Some("The server could not parse this message")
  {
  }

  // ----- Channel bookkeeping -----

  /** A refresh changes the directory entry of its own channel at most. */
  lemma {:induction false} RefreshTouchesOnlyOwnChannel(ch: Channel, session: Session, svc: Services, req: Request)
    ensures SameOtherChannels(svc.connected, Refresh(ch, session, svc, req).services.connected, ch)
  {
  }

  /** A login changes the directory entry of its own channel at most. */
  lemma {:induction false} LoginTouchesOnlyOwnChannel(ch: Channel, session: Session, svc: Services, req: Request)
    ensures SameOtherChannels(svc.connected, ProcessLogin(ch, session, svc, req).services.connected, ch)
  {
  }

  /** A login by the user service changes the directory entry of its own channel at
      most. */
  lemma {:induction false} LoginDirectoryTouchesOnlyOwnChannel(users: seq<Credentials>, connected: Directory, queues: Table, ch: Channel, u: string, p: string)
    ensures SameOtherChannels(connected, Login(users, connected, queues, ch, u, p).connected, ch)
  {
  }

  /** A registration changes the directory entry of its own channel at most. */
  lemma {:induction false} RegistrationTouchesOnlyOwnChannel(ch: Channel, session: Session, svc: Services, req: Request)
    ensures SameOtherChannels(svc.connected, ProcessRegistration(ch, session, svc, req).services.connected, ch)
  {
    if req.registerUsername.Present? && req.registerPassword.Present? {
      var u, p := req.registerUsername.value, req.registerPassword.value;
      var users := Register(svc.users, u, p).0;
      LoginDirectoryTouchesOnlyOwnChannel(users, svc.connected, svc.queues, ch, u, p);
    }
  }

  /** The dispatch changes the directory entry of its own channel at most, whatever
      the server's actions do. */
  lemma {:induction false} DispatchTouchesOnlyOwnChannel(ch: Channel, actions: map<string, ServerAction>, run: ActionRunner, k: nat, session: Session, svc: Services, req: Request)
    ensures SameOtherChannels(svc.connected, Dispatch(ch, actions, run, k, session, svc, req).services.connected, ch)
  {
    if req.request.Present? {
      var t := req.request.value;
      if t == "login" {
        LoginTouchesOnlyOwnChannel(ch, session, svc, req);
      } else if t == "register" {
        RegistrationTouchesOnlyOwnChannel(ch, session, svc, req);
      } else if t == "message" && req.messageObject.Present? {
        MessageSentOnlyAfterChecks(session, svc, req, req.messageObject.value);
      }
    }
  }

  /** One step changes the directory entry of its own channel at most. */
  lemma {:induction false} StepTouchesOnlyOwnChannel(ch: Channel, actions: map<string, ServerAction>, run: ActionRunner, k: nat, session: Session, svc: Services, line: Line)
    ensures SameOtherChannels(svc.connected, Step(ch, actions, run, k, session, svc, line).services.connected, ch)
  {
    if line.Parsed? {
      var req := line.request;
      var refreshed := if NeedsRefresh(session) then Refresh(ch, session, svc, req) else Effect(session, svc, Returned(Unit));
      RefreshTouchesOnlyOwnChannel(ch, session, svc, req);
      if refreshed.outcome.Returned? {
        var e := Dispatch(ch, actions, run, k, refreshed.session, refreshed.services, req);
        DispatchTouchesOnlyOwnChannel(ch, actions, run, k, refreshed.session, refreshed.services, req);
        assert Step(ch, actions, run, k, session, svc, line).services == e.services;
        assert forall c :: c != ch ==>
          ((c in svc.connected <==> c in e.services.connected) &&
           (c in svc.connected ==> svc.connected[c] == refreshed.services.connected[c] == e.services.connected[c]));
      }
    }
  }

  /** A run that ends by the `finally` block leaves the channel out of the directory
      and says "Ending connection" last; one ended by an action's `System.exit` has
      that exit as its only reply. */
  lemma EndedDisconnects(ch: Channel, svc: Services, sent: seq<Reply>, exited: bool)
    requires exited ==> sent == [ExitServer]
    ensures SameOtherChannels(svc.connected, Ended(ch, svc, sent, exited).0.connected, ch)
    ensures var (final, out) := Ended(ch, svc, sent, exited);
      |out| > 0 &&
      (out[|out| - 1] != ExitServer ==>
        ch !in final.connected && out[|out| - 1] == Respond(ServerResponse(Error, "Ending connection")))
  {
  }

  /** A finished run that, unless an action ended the process, has left the
      directory and said "Ending connection" last. */
  predicate ClosedUnlessExited(ch: Channel, run: (Services, seq<Reply>)) {
    var (final, sent) := run;
    |sent| > 0 &&
    (sent[|sent| - 1] != ExitServer ==>
      ch !in final.connected && sent[|sent| - 1] == Respond(ServerResponse(Error, "Ending connection")))
  }

  /** One step of a run keeps both facts: whatever the step's result, the run it
      starts keeps the other channels and closes unless it exited. */
  lemma ClosedAfterStep(ch: Channel, svc: Services, r: StepResult, tail: (Services, seq<Reply>), whole: (Services, seq<Reply>))
    requires SameOtherChannels(svc.connected, r.services.connected, ch)
    requires var sent := if r.reply.Some? then [r.reply.value] else [];
      whole == if r.stop then Ended(ch, r.services, sent, r.reply == Some(ExitServer)) else Prefixed(sent, tail)
    requires !r.stop ==> SameOtherChannels(r.services.connected, tail.0.connected, ch) && ClosedUnlessExited(ch, tail)
    ensures SameOtherChannels(svc.connected, whole.0.connected, ch) && ClosedUnlessExited(ch, whole)
  {
    var sent := if r.reply.Some? then [r.reply.value] else [];
    if r.stop {
      var exited := r.reply == Some(ExitServer);
      EndedDisconnects(ch, r.services, sent, exited);
      SameOtherChannelsChain(svc.connected, r.services.connected, whole.0.connected, ch);
    } else {
      SameOtherChannelsChain(svc.connected, r.services.connected, tail.0.connected, ch);
      assert (sent + tail.1)[|sent + tail.1| - 1] == tail.1[|tail.1| - 1];
    }
  }

  /** Whatever the server's actions do, every other channel's directory entry is as
      it was when the loop ends; unless an action ended the process, the channel has
      no directory entry afterwards and the last reply is "Ending connection". */
  lemma {:induction false} ServeDisconnects(ch: Channel, actions: map<string, ServerAction>, run: ActionRunner, k: nat, session: Session, svc: Services, inputs: seq<Input>)
    ensures SameOtherChannels(svc.connected, Serve(ch, actions, run, k, session, svc, inputs).0.connected, ch)
    ensures ClosedUnlessExited(ch, Serve(ch, actions, run, k, session, svc, inputs))
    decreases |inputs|
  {
    if inputs == [] {
      EndedDisconnects(ch, svc, [], false);
    } else if inputs[0].ReadFailed? {
      var failed := svc.(connected := Disconnect(svc.connected, ch));
      EndedDisconnects(ch, failed, [Respond(ServerResponse(Error, inputs[0].reason))], false);
      SameOtherChannelsChain(svc.connected, failed.connected, Disconnect(failed.connected, ch), ch);
    } else {
      var line := inputs[0].line;
      var r := Step(ch, actions, run, k, session, svc, line);
      var tail := Serve(ch, actions, run, k + 1, r.session, r.services, inputs[1..]);
      ServeReceived(ch, actions, run, k, session, svc, inputs, line);
      StepTouchesOnlyOwnChannel(ch, actions, run, k, session, svc, line);
      if !r.stop {
        ServeDisconnects(ch, actions, run, k + 1, r.session, r.services, inputs[1..]);
      }
      ClosedAfterStep(ch, svc, r, tail, Serve(ch, actions, run, k, session, svc, inputs));
    }
  }

  /** No reply but the last ends the process. */
  predicate ExitOnlyLast(sent: seq<Reply>) {
    forall i :: 0 <= i < |sent| - 1 ==> sent[i] != ExitServer
  }

  /** Replies that do not end the process, written before a run whose only exit is
      last, keep it last. */
  lemma ExitOnlyLastPrefixed(sent: seq<Reply>, tail: seq<Reply>)
    requires ExitServer !in sent && ExitOnlyLast(tail)
    ensures ExitOnlyLast(sent + tail)
  {
    forall i | 0 <= i < |sent + tail| - 1
      ensures (sent + tail)[i] != ExitServer
    {
      if i >= |sent| {
        assert (sent + tail)[i] == tail[i - |sent|];
      }
    }
  }

  /** An action that ends the process ends the run: no reply follows it. */
  lemma {:induction false} NothingAfterExit(ch: Channel, actions: map<string, ServerAction>, run: ActionRunner, k: nat, session: Session, svc: Services, inputs: seq<Input>)
    ensures ExitOnlyLast(Serve(ch, actions, run, k, session, svc, inputs).1)
    decreases |inputs|
  {
    if inputs != [] && inputs[0].Received? {
      var line := inputs[0].line;
      var r := Step(ch, actions, run, k, session, svc, line);
      var sent := if r.reply.Some? then [r.reply.value] else [];
      ServeReceived(ch, actions, run, k, session, svc, inputs, line);
      if !r.stop {
        NothingAfterExit(ch, actions, run, k + 1, r.session, r.services, inputs[1..]);
        ExitOnlyLastPrefixed(sent, Serve(ch, actions, run, k + 1, r.session, r.services, inputs[1..]).1);
      } else if r.reply != Some(ExitServer) {
        assert ExitServer !in sent;
      }
    }
  }

  /** The handler of one client connection. */
  class ClientRequestHandler {
    var client: Session
    const channel: Channel
    const serverActions: map<string, ServerAction>
    const runAction: ActionRunner
    const userService: UserService
    const messageService: MessageService

    /** The user service logs users into this handler's message service, and the
        save buffer respects its capacity. */
    predicate Wired()
      reads userService, messageService.messageRepository
    {
      userService.messageService == messageService && messageService.messageRepository.Valid()
    }

    /** The services' state as one value. */
    function State(): Services
      reads userService, messageService, messageService.messageRepository, userService.userRepository
    {
      Services(userService.connectedClients, messageService.unreadMessages,
        messageService.messageRepository.messagesToSave, userService.userRepository.registeredUsers)
    }

    constructor (serverActions: map<string, ServerAction>, runAction: ActionRunner, channel: Channel, userService: UserService, messageService: MessageService)
      ensures client == FreshSession && this.channel == channel && this.serverActions == serverActions
      ensures this.runAction == runAction
      ensures this.userService == userService && this.messageService == messageService
    {
      this.serverActions := serverActions;
      this.runAction := runAction;
      this.channel := channel;
      this.userService := userService;
      this.messageService := messageService;
      client := FreshSession;
    }

    /** `updateClientInfoFromRequest(jsonMessage)`. */
    method UpdateClientInfoFromRequest(request: Request) returns (r: Outcome<Unit>)
      requires Wired()
      modifies this, userService
      ensures Wired()
      ensures Effect(client, State(), r) == Refresh(channel, old(client), old(State()), request)
    {
      var user := Read(request.user);
      if user.Threw? {
        return Threw(user.error);
      }
      var d := user.value;
      client := Session(d.username, d.password, d.authority, d.isLoggedIn);
      userService.UpdateClient(channel, client.username);
      client := client.(loggedIn := true);
      r := Returned(Unit);
    }

    /** `processMessageRequest(jsonMessage)`. */
    method ProcessMessageRequest(request: Request) returns (r: Outcome<Reply>)
      requires Wired()
      modifies messageService, messageService.messageRepository
      ensures Wired()
      ensures Effect(client, State(), r) == ProcessMessage(old(client), old(State()), request)
    {
      var decoded := Read(request.messageObject);
      if decoded.Threw? {
        return Threw(decoded.error);
      }
      var message := decoded.value;
      if !UserIsConnected(userService.connectedClients, message.senderId) {
        r := Returned(Respond(ServerResponse(Error, "Client error - client is not logged in")));
      } else if message.senderId != Some(client.username) {
        r := Returned(Respond(ServerResponse(Error, "Client error - username doesnt equal sender ID")));
      } else if !UserIsConnected(userService.connectedClients, message.receiverId) {
        r := Returned(Respond(ServerResponse(Error, "Recipient is not logged in or registered")));
      } else {
        var response := messageService.SendMessage(message);
        if response.Threw? {
          r := Threw(response.error);
        } else {
          r := Returned(Respond(response.value));
        }
      }
    }

    /** `processClientRegistrationFromRequest(jsonMessage)`. */
    method ProcessClientRegistrationFromRequest(request: Request) returns (r: Outcome<Reply>)
      requires Wired()
      modifies this, userService, messageService, userService.userRepository
      ensures Wired()
      ensures Effect(client, State(), r) == ProcessRegistration(channel, old(client), old(State()), request)
    {
      if !(Has(request.registerUsername) && Has(request.registerPassword)) {
        return Returned(Respond(ServerResponse(Error, "Error during registration, check API docs")));
      }
      var username := Read(request.registerUsername);
      if username.Threw? {
        return Threw(username.error);
      }
      var password := Read(request.registerPassword);
      if password.Threw? {
        return Threw(password.error);
      }
      var registered := userService.RegisterNewUser(username.value, password.value);
      if registered {
        client := client.(username := username.value, password := password.value);
        var loginResult := userService.LoginUser(channel, username.value, password.value);
        if loginResult == LoginSuccess {
          r := Returned(Respond(RegisteredResponse(username.value, password.value)));
        } else {
          r := Returned(Respond(ServerResponse(Error, "user registered but unable to login")));
        }
      } else {
        r := Returned(Respond(ServerResponse(Error, "User already registered with this username")));
      }
    }

    /** `processClientLoginRequest(jsonMessage)`. */
    method ProcessClientLoginRequest(request: Request) returns (r: Outcome<Reply>)
      requires Wired()
      modifies this, userService, messageService
      ensures Wired()
      ensures Effect(client, State(), r) == ProcessLogin(channel, old(client), old(State()), request)
    {
      if !(Has(request.loginUsername) && Has(request.loginPassword)) {
        return Returned(Respond(ServerResponse(Error, "Message not formatted properly. check API docs")));
      }
      var username := Read(request.loginUsername);
      if username.Threw? {
        return Threw(username.error);
      }
      client := client.(username := username.value);
      var password := Read(request.loginPassword);
      if password.Threw? {
        return Threw(password.error);
      }
      var loginResult := userService.LoginUser(channel, username.value, password.value);
      if loginResult == LoginSuccess {
        r := Returned(Respond(LoggedInResponse(username.value, password.value)));
      } else {
        r := Returned(Respond(ServerResponse(Error, ToString(loginResult))));
      }
    }

    /** One iteration of the loop in `run()`, for the connection's k-th line. */
    method HandleLine(line: Line, k: nat) returns (reply: Option<Reply>, stop: bool)
      requires Wired()
      modifies this, userService, messageService, messageService.messageRepository, userService.userRepository
      ensures Wired()
      ensures StepResult(client, State(), reply, stop) == Step(channel, serverActions, runAction, k, old(client), old(State()), line)
    {
      if line.Unparsable? {
        return None, true;
      }
      var request := line.request;
      if NeedsRefresh(client) {
        var refreshed := UpdateClientInfoFromRequest(request);
        if refreshed.Threw? {
          return None, true;
        }
      }
      var requestType := Read(request.request);
      var r: Outcome<Reply>;
      if requestType.Threw? {
        r := Threw(requestType.error);
      } else if requestType.value == "login" {
        r := ProcessClientLoginRequest(request);
      } else if requestType.value == "register" {
        r := ProcessClientRegistrationFromRequest(request);
      } else if requestType.value == "message" {
        r := ProcessMessageRequest(request);
      } else {
        r := runAction(k, Lookup(serverActions, requestType.value), client);
      }
      if r.Returned? {
        reply, stop := Some(r.value), r.value.ExitServer?;
      } else {
        var response := Caught(r.error);
        if response.Some? {
          reply, stop := Some(Respond(response.value)), false;
        } else {
          reply, stop := None, true;
        }
      }
    }

    /** `run()`: lines are handled until the input ends, a read fails, an exception
        stops the loop or an action ends the process; unless the process ended, the
        `finally` block then says goodbye and disconnects the channel. */
    method Run(inputs: seq<Input>) returns (sent: seq<Reply>)
      requires Wired()
      modifies this, userService, messageService, messageService.messageRepository, userService.userRepository
      ensures Wired()
      ensures (State(), sent) == Serve(channel, serverActions, runAction, 0, old(client), old(State()), inputs)
      ensures |sent| > 0 && (sent[|sent| - 1] != ExitServer ==> channel !in userService.connectedClients)
    {
      var i := 0;
      var stopped, exited := false, false;
      sent := [];
      ghost var whole := Serve(channel, serverActions, runAction, 0, old(client), old(State()), inputs);
      assert inputs[i..] == inputs;
      assert sent + whole.1 == whole.1;
      while i < |inputs| && !stopped
        invariant 0 <= i <= |inputs| && Wired() && (!stopped ==> !exited)
        invariant whole ==
          if stopped then Ended(channel, State(), sent, exited)
          else Prefixed(sent, Serve(channel, serverActions, runAction, i, client, State(), inputs[i..]))
        decreases |inputs| - i, !stopped
      {
        ghost var before := State();
        ghost var session := client;
        ghost var rest := inputs[i..];
        ghost var prior := sent;
        assert rest != [] && rest[0] == inputs[i] && rest[1..] == inputs[i + 1..];
        match inputs[i]
        case ReadFailed(reason) =>
          var failed := [Respond(ServerResponse(Error, reason))];
          sent := sent + failed;
          userService.DisconnectClient(channel);
          stopped := true;
          PrefixedEnded(prior, channel, State(), failed, false);
        case Received(line) =>
          var reply, stop := HandleLine(line, i);
          var replies := if reply.Some? then [reply.value] else [];
          ServeReceived(channel, serverActions, runAction, i, session, before, rest, line);
          sent := sent + replies;
          if stop {
            stopped, exited := true, reply == Some(ExitServer);
            PrefixedEnded(prior, channel, State(), replies, exited);
          } else {
            PrefixedTwice(prior, replies, Serve(channel, serverActions, runAction, i + 1, client, State(), inputs[i + 1..]));
            i := i + 1;
          }
      }
      if !stopped {
        assert inputs[i..] == [];
        PrefixedEnded(sent, channel, State(), [], false);
        assert sent + [] == sent;
      }
      if !exited {
        sent := sent + [Respond(ServerResponse(Error, "Ending connection"))];
        userService.DisconnectClient(channel);
      }
      ServeDisconnects(channel, serverActions, runAction, 0, old(client), old(State()), inputs);
    }
  }
}
