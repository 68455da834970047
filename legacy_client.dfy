/** The oldest console client (src/main/java/simpleserver/SimpleClient.java): each typed
    line becomes one request object carrying the client's username, and either a
    message, login credentials or the name of a server command. Sockets, threads and
    the JSON text are not modelled. */
module LegacyClients {
  import opened JavaLang
  import opened Messages

  /** The fields of the oldest `SimpleClient` that the model follows. */
  datatype LegacyClient = LegacyClient(username: Option<string>, password: Option<string>, isLoggedIn: bool, isRegistered: bool)

  /** `equals(Object o)`: false for null and other classes, otherwise the usernames
      compared with `Objects.equals`. */
  predicate Equals(c: LegacyClient, o: Ref<LegacyClient>) {
    match o
    case NullRef => false
    case OtherClass => false
    case Instance(d) => ObjectsEquals(c.username, d.username)
  }

  /** `hashCode()`: `Objects.hash(username)`. */
  function HashCode(c: LegacyClient): int {
    WrapInt(31 + FieldHash(c.username))
  }

  /** Two clients are equal exactly when their usernames are, whatever their flags
      and passwords; equal clients hash alike; null and other classes are never
      equal. */
  lemma {:induction false} EqualityIsByUsername(c: LegacyClient, d: LegacyClient)
    ensures Equals(c, Instance(d)) <==> c.username == d.username
    ensures Equals(c, Instance(d)) ==> HashCode(c) == HashCode(d)
    ensures Equals(c, Instance(c))
    ensures !Equals(c, NullRef) && !Equals(c, OtherClass)
  {
    ObjectsEqualsIsEquality(c.username, d.username);
    ObjectsEqualsIsEquality(c.username, c.username);
  }

  /** The request object this client sends: "username" always (a JSON null for a
      null username), and one of "messageObject", the two login properties, or
      "serverRequest". */
  datatype LegacyRequest = LegacyRequest(
    username: Option<string>,
    messageObject: Option<Message>,
    loginUsername: Option<string>,
    loginPassword: Option<string>,
    serverRequest: Option<string>)

  /** One pass of the `while (true)` loop in `connectToServer`. A line of spaces has
      no first token, and "message" without a receiver or "login" without both
      credentials indexes past the tokens; the `ArrayIndexOutOfBoundsException` is
      not caught. */
  function TranslateLine(username: Option<string>, line: string): Outcome<LegacyRequest> {
    var tokens := Split(line);
    if |tokens| == 0 then Threw(ArrayIndexOutOfBounds)
    else if tokens[0] == "message" then
      if |tokens| < 2 then Threw(ArrayIndexOutOfBounds)
      else Returned(LegacyRequest(username, Some(Message(Some(tokens[1]), username, Some(Join(tokens[2..])))), None, None, None))
    else if tokens[0] == "login" then
      if |tokens| < 3 then Threw(ArrayIndexOutOfBounds)
      else Returned(LegacyRequest(username, None, Some(tokens[1]), Some(tokens[2]), None))
    else Returned(LegacyRequest(username, None, None, None, Some(tokens[0])))
  }

  /** The requests sent for a sequence of typed lines, and the exception that ends
      the loop: the first crash, or the `NullPointerException` of `split` on the
      null that `readLine` returns at the end of the console input. */
  function Typing(username: Option<string>, lines: seq<string>): (seq<LegacyRequest>, Exception) {
    if lines == [] then ([], NullPointer)
    else
      match TranslateLine(username, lines[0])
      case Threw(e) => ([], e)
      case Returned(r) => var rest := Typing(username, lines[1..]); ([r] + rest.0, rest.1)
  }

  /** Every request carries the username; the line fails exactly when it has no
      token, or its command lacks the tokens it needs; any first token other than
      "message" and "login" is sent as the server request, and then alone. */
  lemma {:induction false} TranslateCases(username: Option<string>, line: string)
    ensures TranslateLine(username, line).Returned? ==> TranslateLine(username, line).value.username == username
    ensures TranslateLine(username, line).Threw? <==>
      |Split(line)| == 0 ||
      (Split(line)[0] == "message" && |Split(line)| < 2) ||
      (Split(line)[0] == "login" && |Split(line)| < 3)
    ensures TranslateLine(username, line).Threw? ==> TranslateLine(username, line).error == ArrayIndexOutOfBounds
    ensures |Split(line)| > 0 && Split(line)[0] !in {"message", "login"} ==>
      TranslateLine(username, line) == Returned(LegacyRequest(username, None, None, None, Some(Split(line)[0])))
  {
  }

  /** "message R w1 … wn" sends a message from the username to R whose body is the
      words joined by single spaces. */
  lemma {:induction false} TypedMessage(username: Option<string>, receiver: string, words: seq<string>)
    requires ' ' !in receiver && forall i :: 0 <= i < |words| ==> ' ' !in words[i]
    requires if words == [] then receiver != "" else words[|words| - 1] != ""
    ensures TranslateLine(username, Join(["message", receiver] + words)) ==
      Returned(LegacyRequest(username, Some(Message(Some(receiver), username, Some(Join(words)))), None, None, None))
  {
    var parts := ["message", receiver] + words;
    forall i | 0 <= i < |parts|
      ensures ' ' !in parts[i]
    {
      if i >= 2 {
        assert parts[i] == words[i - 2];
      }
    }
    SplitOfJoin(parts);
    assert parts[2..] == words;
  }

  /** "login U P" sends U and P as the login credentials. */
  lemma {:induction false} TypedLogin(username: Option<string>, u: string, p: string)
    requires ' ' !in u && ' ' !in p && p != ""
    ensures TranslateLine(username, Join(["login", u, p])) ==
      Returned(LegacyRequest(username, None, Some(u), Some(p), None))
  {
    SplitOfJoin(["login", u, p]);
  }

  /** A single word other than the two commands is sent as the server request. */
  lemma {:induction false} TypedServerRequest(username: Option<string>, w: string)
    requires ' ' !in w && w != "message" && w != "login"
    ensures TranslateLine(username, w) == Returned(LegacyRequest(username, None, None, None, Some(w)))
  {
    SplitOfJoin([w]);
    assert Join([w]) == w;
  }

  class LegacySimpleClient {
    var username: Option<string>
    var password: Option<string>
    var isLoggedIn: bool
    var isRegistered: bool

    function State(): LegacyClient
      reads this
    {
      LegacyClient(username, password, isLoggedIn, isRegistered)
    }

    /** `new SimpleClient(username)`. */
    constructor (username: Option<string>)
      ensures State() == LegacyClient(username, None, false, false)
    {
      this.username := username;
      password := None;
      isLoggedIn := false;
      isRegistered := false;
    }

    /** `setUsername(username)`: later requests carry the new name. */
    method SetUsername(username: Option<string>)
      modifies this
      ensures State() == old(State()).(username := username)
    {
      this.username := username;
    }

    /** `setLoggedIn(loggedIn)`. */
    method SetLoggedIn(loggedIn: bool)
      modifies this
      ensures State() == old(State()).(isLoggedIn := loggedIn)
    {
      isLoggedIn := loggedIn;
    }

    /** `setRegistered(registered)`. */
    method SetRegistered(registered: bool)
      modifies this
      ensures State() == old(State()).(isRegistered := registered)
    {
      isRegistered := registered;
    }

    /** The console loop of `connectToServer` over the lines typed: the requests
        sent, in order, and the exception that ends the loop. */
    method ReadConsole(lines: seq<string>) returns (sent: seq<LegacyRequest>, error: Exception)
      ensures (sent, error) == Typing(username, lines)
    {
      sent := [];
      var i := 0;
      assert lines[i..] == lines;
      assert sent + Typing(username, lines).0 == Typing(username, lines).0;
      while i < |lines|
        invariant 0 <= i <= |lines|
        invariant Typing(username, lines) == (sent + Typing(username, lines[i..]).0, Typing(username, lines[i..]).1)
      {
        assert lines[i..][0] == lines[i] && lines[i..][1..] == lines[i + 1..];
        var typed := TranslateLine(username, lines[i]);
        match typed {
          case Threw(e) =>
            assert Typing(username, lines[i..]) == ([], e);
            assert sent + [] == sent;
            return sent, e;
          case Returned(r) =>
            assert sent + ([r] + Typing(username, lines[i + 1..]).0) == (sent + [r]) + Typing(username, lines[i + 1..]).0;
            sent := sent + [r];
        }
        i := i + 1;
      }
      assert lines[i..] == [] && sent + [] == sent;
      error := NullPointer;
    }
  }
}
