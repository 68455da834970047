/** The console client of the socket server (src/main/java/simpleserver/client/SimpleClient.java):
    each typed line becomes one request object that carries the client's current
    credentials, and a reader of the server's responses takes over the credentials
    the server echoes after a login or a registration. Sockets, threads and the JSON
    text are not modelled; a request is the `Envelope.Request` record the server
    reads and a response the `JsonResponse.JsonObject` the server writes. */
module Clients {
  import opened JavaLang
  import opened Messages
  import opened JsonResponse
  import opened Envelope
  import RequestHandling

  /** The fields of a `SimpleClient` that the model follows; the builder leaves the
      username and password null. */
  datatype Client = Client(username: Option<string>, password: Option<string>, authority: string, isLoggedIn: bool)

  /** The fields as `connectToServer` sets them before connecting. */
  const Connected: Client := Client(Some(""), Some(""), "USER", false)

  /** The client has non-null credentials, as it has from `connectToServer` on. */
  predicate HasCredentials(c: Client) {
    c.username.Some? && c.password.Some?
  }

  /** `equals(Object o)`: false for null and other classes, otherwise the usernames
      compared with `Objects.equals`. */
  predicate Equals(c: Client, o: Ref<Client>) {
    match o
    case NullRef => false
    case OtherClass => false
    case Instance(d) => ObjectsEquals(c.username, d.username)
  }

  /** `hashCode()`: `Objects.hash(username)`. */
  function HashCode(c: Client): int {
    WrapInt(31 + FieldHash(c.username))
  }

  /** Two clients are equal exactly when their usernames are, whatever their other
      fields; equal clients hash alike; null and other classes are never equal. */
  lemma {:induction false} EqualityIsByUsername(c: Client, d: Client)
    ensures Equals(c, Instance(d)) <==> c.username == d.username
    ensures Equals(c, Instance(d)) ==> HashCode(c) == HashCode(d)
    ensures Equals(c, Instance(c))
    ensures !Equals(c, NullRef) && !Equals(c, OtherClass)
  {
    ObjectsEqualsIsEquality(c.username, d.username);
    ObjectsEqualsIsEquality(c.username, c.username);
  }

  /** `JsonResponse.userResponse(username, password, authority, isLoggedIn)`, the
      "user" property of every request. */
  function Descriptor(c: Client): UserDescriptor
    requires HasCredentials(c)
  {
    UserDescriptor(c.username.value, c.password.value, c.authority, c.isLoggedIn)
  }

  /** What one typed line leads to: a request sent, nothing sent (the `continue` of
      an incomplete login or registration), or an exception that ends the loop. */
  datatype Typed = Sent(request: Request) | NothingSent | Crashed(error: Exception)

  /** One pass of the `while (true)` loop in `connectToServer`. The first token is the
      request name; "message" needs a receiver token, and a line of spaces has no
      first token (`messageArray[0]` throws). */
  function TranslateLine(c: Client, line: string): Typed
    requires HasCredentials(c)
  {
    var tokens := Split(line);
    if |tokens| == 0 then Crashed(ArrayIndexOutOfBounds)
    else
      var base := Request(Present(Descriptor(c)), Present(tokens[0]), Absent, Absent, Absent, Absent, Absent);
      if tokens[0] == "message" then
        if |tokens| < 2 then Crashed(ArrayIndexOutOfBounds)
        else Sent(base.(messageObject := Present(Message(Some(tokens[1]), c.username, Some(Join(tokens[2..]))))))
      else if tokens[0] == "login" || tokens[0] == "register" then
        if |tokens| < 3 then NothingSent
        else if tokens[0] == "login" then Sent(base.(loginUsername := Present(tokens[1]), loginPassword := Present(tokens[2])))
        else Sent(base.(registerUsername := Present(tokens[1]), registerPassword := Present(tokens[2])))
      else Sent(base)
  }

  /** The requests sent for a sequence of typed lines, and the exception that ends
      the loop: the first crash, or the `NullPointerException` of `split` on the
      null that `readLine` returns at the end of the console input. */
  function Typing(c: Client, lines: seq<string>): (seq<Request>, Exception)
    requires HasCredentials(c)
  {
    if lines == [] then ([], NullPointer)
    else
      match TranslateLine(c, lines[0])
      case Crashed(e) => ([], e)
      case NothingSent => Typing(c, lines[1..])
      case Sent(r) => var rest := Typing(c, lines[1..]); ([r] + rest.0, rest.1)
  }

  /** Every line either crashes on its missing tokens, sends nothing because a
      login or registration lacks its two arguments, or sends a request whose name
      is the first token and whose user descriptor is the client's current state. */
  lemma {:induction false} TranslateCases(c: Client, line: string)
    requires HasCredentials(c)
    ensures TranslateLine(c, line).Crashed? <==>
      |Split(line)| == 0 || (Split(line)[0] == "message" && |Split(line)| < 2)
    ensures TranslateLine(c, line).Crashed? ==> TranslateLine(c, line).error == ArrayIndexOutOfBounds
    ensures TranslateLine(c, line).NothingSent? <==>
      |Split(line)| > 0 && Split(line)[0] in {"login", "register"} && |Split(line)| < 3
    ensures TranslateLine(c, line).Sent? ==>
      TranslateLine(c, line).request.user == Present(Descriptor(c)) &&
      TranslateLine(c, line).request.request == Present(Split(line)[0])
  {
  }

  /** A line of one or more spaces crashes the loop. */
  lemma {:induction false} SpacesCrash(c: Client, line: string)
    requires HasCredentials(c)
    requires |line| > 0 && forall i :: 0 <= i < |line| ==> line[i] == ' '
    ensures TranslateLine(c, line) == Crashed(ArrayIndexOutOfBounds)
  {
    SplitOfSpaces(line);
  }

  /** "message R w1 … wn" sends a message from the current username to R whose body
      is the words joined by single spaces, and nothing else besides the user and
      the request name. */
  lemma {:induction false} TypedMessage(c: Client, receiver: string, words: seq<string>)
    requires HasCredentials(c)
    requires ' ' !in receiver && forall i :: 0 <= i < |words| ==> ' ' !in words[i]
    requires if words == [] then receiver != "" else words[|words| - 1] != ""
    ensures TranslateLine(c, Join(["message", receiver] + words)) ==
      Sent(Request(Present(Descriptor(c)), Present("message"), Absent, Absent, Absent, Absent,
        Present(Message(Some(receiver), c.username, Some(Join(words))))))
  {
    var parts := ["message", receiver] + words;
    forall i | 0 <= i < |parts|
      ensures ' ' !in parts[i]
    {
      if i >= 2 {
        assert parts[i] == words[i - 2];
      }
    }
    SplitOfJoin(parts);
    assert parts[2..] == words;
  }

  /** "login U P" and "register U P" send U and P under the command's own two
      property names. */
  lemma {:induction false} TypedCredentials(c: Client, command: string, u: string, p: string)
    requires HasCredentials(c)
    requires command == "login" || command == "register"
    requires ' ' !in u && ' ' !in p && p != ""
    ensures var typed := TranslateLine(c, Join([command, u, p]));
      typed.Sent? && typed.request.user == Present(Descriptor(c)) &&
      typed.request.request == Present(command) && typed.request.messageObject == Absent &&
      (command == "login" ==>
        typed.request.loginUsername == Present(u) && typed.request.loginPassword == Present(p) &&
        typed.request.registerUsername == Absent && typed.request.registerPassword == Absent) &&
      (command == "register" ==>
        typed.request.registerUsername == Present(u) && typed.request.registerPassword == Present(p) &&
        typed.request.loginUsername == Absent && typed.request.loginPassword == Absent)
  {
    SplitOfJoin([command, u, p]);
  }

  /** The requests sent for typed lines are those of the lines one by one, in order,
      with the lines that send nothing skipped, up to the first crash. */
  lemma {:induction false} TypingSendsInOrder(c: Client, lines: seq<string>, line: string)
    requires HasCredentials(c)
    ensures TranslateLine(c, line).Sent? ==>
      Typing(c, [line] + lines) == ([TranslateLine(c, line).request] + Typing(c, lines).0, Typing(c, lines).1)
    ensures TranslateLine(c, line).NothingSent? ==> Typing(c, [line] + lines) == Typing(c, lines)
    ensures TranslateLine(c, line).Crashed? ==> Typing(c, [line] + lines) == ([], TranslateLine(c, line).error)
  {
    assert ([line] + lines)[0] == line;
    assert ([line] + lines)[1..] == lines;
  }

  /** `jsonMessage.get(key).getAsString()`: null (so a `NullPointerException`) for a
      missing property, the text of a string property. The server never sends other
      kinds of values under the names the client reads; here they throw. */
  function PropertyText(o: JsonObject, key: string): Outcome<string> {
    if key !in o then Threw(NullPointer)
    else match o[key]
      case JString(s) => Returned(s)
      case _ => Threw(UnsupportedOperation)
  }

  /** The client after one response, and the exception, if any, that ends the reader
      thread. */
  datatype ReaderStep = ReaderStep(client: Client, thrown: Option<Exception>)

  /** `setUsername` then `setPassword` from two properties; when the second read
      throws, the username is already set. */
  function TakeCredentials(c: Client, o: JsonObject, userKey: string, passwordKey: string): ReaderStep {
    match PropertyText(o, userKey)
    case Threw(e) => ReaderStep(c, Some(e))
    case Returned(u) =>
      var c1 := c.(username := Some(u));
      match PropertyText(o, passwordKey)
      case Threw(e) => ReaderStep(c1, Some(e))
      case Returned(p) => ReaderStep(c1.(password := Some(p)), None)
  }

  /** One pass of the `IncomingReader` loop. A message delivery is only shown. Any
      other response must have a status; a successful login takes the echoed login
      credentials, a successful registration the echoed registration credentials,
      and everything else changes nothing. */
  function OnResponse(c: Client, o: JsonObject): ReaderStep {
    if "messageObject" in o then ReaderStep(c, None)
    else
      match PropertyText(o, "status")
      case Threw(e) => ReaderStep(c, Some(e))
      case Returned(status) =>
        if status != Success then ReaderStep(c, None)
        else
          match PropertyText(o, "message")
          case Threw(e) => ReaderStep(c, Some(e))
          case Returned(text) =>
            if text == "Successfully Logged In" then TakeCredentials(c, o, "loginUsername", "loginPassword")
            else if Contains(text, "Sucessfully Registered") then TakeCredentials(c, o, "registerUsername", "registerPassword")
            else ReaderStep(c, None)
  }

  /** The reader thread over a sequence of responses: it stops at the first
      exception, or when the responses run out. */
  function ReadAll(c: Client, responses: seq<JsonObject>): ReaderStep
    decreases |responses|
  {
    if responses == [] then ReaderStep(c, None)
    else
      var r := OnResponse(c, responses[0]);
      if r.thrown.Some? then r else ReadAll(r.client, responses[1..])
  }

  /** After the server's successful login response the client holds the credentials
      it echoes. */
  lemma {:induction false} LoginResponseSetsCredentials(c: Client, u: string, p: string)
    ensures OnResponse(c, RequestHandling.LoggedInResponse(u, p)) ==
      ReaderStep(c.(username := Some(u), password := Some(p)), None)
  {
  }

  /** After the server's successful registration response the client holds the
      credentials it echoes: the server's text only starts with the words the
      client looks for. */
  lemma {:induction false} RegisteredResponseSetsCredentials(c: Client, u: string, p: string)
    ensures OnResponse(c, RequestHandling.RegisteredResponse(u, p)) ==
      ReaderStep(c.(username := Some(u), password := Some(p)), None)
  {
    var o := RequestHandling.RegisteredResponse(u, p);
    var text := "Sucessfully Registered and logged as new user";
    assert o == AddProperty(AddProperty(ServerResponse(Success, text),
      "registerUsername", JString(u)), "registerPassword", JString(p));
    assert "messageObject" !in o;
    assert PropertyText(o, "status") == Returned(Success);
    assert PropertyText(o, "message") == Returned(text);
    assert Contains(text, "Sucessfully Registered") by {
      assert "Sucessfully Registered" <= text;
    }
    assert text != "Successfully Logged In" by {
      assert text[3] != "Successfully Logged In"[3];
    }
    assert PropertyText(o, "registerUsername") == Returned(u);
    assert PropertyText(o, "registerPassword") == Returned(p);
  }

  /** A response carrying a message leaves the credentials alone. */
  lemma {:induction false} MessageDeliveryKeepsCredentials(c: Client, o: JsonObject)
    requires "messageObject" in o
    ensures OnResponse(c, o) == ReaderStep(c, None)
  {
  }

  /** Only a success response without a message changes the client, and no response
      ever changes its authority or its `isLoggedIn` flag. */
  lemma {:induction false} OnlySuccessChangesCredentials(c: Client, o: JsonObject)
    ensures OnResponse(c, o).client != c ==> "messageObject" !in o && PropertyText(o, "status") == Returned(Success)
    ensures OnResponse(c, o).client.authority == c.authority && OnResponse(c, o).client.isLoggedIn == c.isLoggedIn
    ensures HasCredentials(c) ==> HasCredentials(OnResponse(c, o).client)
  {
  }

  /** Over any run of the reader thread, the client keeps its authority and its
      `isLoggedIn` flag, and keeps non-null credentials once it has them. */
  lemma {:induction false} ReaderKeepsAuthority(c: Client, responses: seq<JsonObject>)
    ensures ReadAll(c, responses).client.authority == c.authority
    ensures ReadAll(c, responses).client.isLoggedIn == c.isLoggedIn
    ensures HasCredentials(c) ==> HasCredentials(ReadAll(c, responses).client)
    decreases |responses|
  {
    if responses != [] {
      OnlySuccessChangesCredentials(c, responses[0]);
      var r := OnResponse(c, responses[0]);
      if r.thrown.None? {
        ReaderKeepsAuthority(r.client, responses[1..]);
      }
    }
  }

  class SimpleClient {
    var username: Option<string>
    var password: Option<string>
    var authority: string
    var isLoggedIn: bool

    function State(): Client
      reads this
    {
      Client(username, password, authority, isLoggedIn)
    }

    /** `SimpleClient.builder().build()` followed by the field settings at the start
        of `connectToServer`. */
    constructor ()
      ensures State() == Connected
    {
      username := Some("");
      password := Some("");
      authority := "USER";
      isLoggedIn := false;
    }

    /** The console loop of `connectToServer` over the lines typed, with the reader
        thread idle meanwhile: the requests sent, in order, and the exception that
        ends the loop. */
    method ReadConsole(lines: seq<string>) returns (sent: seq<Request>, error: Exception)
      requires HasCredentials(State())
      ensures (sent, error) == Typing(State(), lines)
    {
      sent := [];
      var i := 0;
      assert lines[i..] == lines;
      assert sent + Typing(State(), lines).0 == Typing(State(), lines).0;
      while i < |lines|
        invariant 0 <= i <= |lines|
        invariant Typing(State(), lines) == (sent + Typing(State(), lines[i..]).0, Typing(State(), lines[i..]).1)
      {
        assert lines[i..][0] == lines[i] && lines[i..][1..] == lines[i + 1..];
        var typed := TranslateLine(State(), lines[i]);
        match typed {
          case Crashed(e) =>
            assert Typing(State(), lines[i..]) == ([], e);
            assert sent + [] == sent;
            return sent, e;
          case NothingSent =>
          case Sent(r) =>
            assert sent + ([r] + Typing(State(), lines[i + 1..]).0) == (sent + [r]) + Typing(State(), lines[i + 1..]).0;
            sent := sent + [r];
        }
        i := i + 1;
      }
      assert lines[i..] == [] && sent + [] == sent;
      error := NullPointer;
    }

    /** One pass of `IncomingReader.run` over a parsed response. */
    method ReceiveResponse(o: JsonObject) returns (thrown: Option<Exception>)
      modifies this
      ensures ReaderStep(State(), thrown) == OnResponse(old(State()), o)
    {
      if "messageObject" in o {
        return None;
      }
      var status := PropertyText(o, "status");
      if status.Threw? {
        return Some(status.error);
      }
      if status.value != Success {
        return None;
      }
      var text := PropertyText(o, "message");
      if text.Threw? {
        return Some(text.error);
      }
      var userKey, passwordKey;
      if text.value == "Successfully Logged In" {
        userKey, passwordKey := "loginUsername", "loginPassword";
      } else if Contains(text.value, "Sucessfully Registered") {
        userKey, passwordKey := "registerUsername", "registerPassword";
      } else {
        return None;
      }
      var u := PropertyText(o, userKey);
      if u.Threw? {
        return Some(u.error);
      }
      username := Some(u.value);
      var p := PropertyText(o, passwordKey);
      if p.Threw? {
        return Some(p.error);
      }
      password := Some(p.value);
      thrown := None;
    }

    /** `IncomingReader.run` over the responses received before the stream ends; an
        exception ends the thread. */
    method RunIncomingReader(responses: seq<JsonObject>) returns (thrown: Option<Exception>)
      modifies this
      ensures ReaderStep(State(), thrown) == ReadAll(old(State()), responses)
    {
      thrown := None;
      var i := 0;
      while i < |responses| && thrown.None?
        invariant 0 <= i <= |responses|
        invariant thrown.None? ==> ReadAll(old(State()), responses) == ReadAll(State(), responses[i..])
        invariant thrown.Some? ==> ReadAll(old(State()), responses) == ReaderStep(State(), thrown)
      {
        assert responses[i..][0] == responses[i] && responses[i..][1..] == responses[i + 1..];
        thrown := ReceiveResponse(responses[i]);
        i := i + 1;
      }
    }
  }
}
