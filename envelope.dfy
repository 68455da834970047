/** The request envelope a client sends and the per-connection session record the
    server keeps. A request is modelled as a record of optional fields rather than
    JSON text: each field is absent, present but unreadable (reading it throws), or
    present with a value. */
module Envelope {
  import opened JavaLang
  import opened Messages
  import opened JsonResponse

  /** A client connection (`SocketChannel`), compared by identity. */
  datatype Channel = Channel(id: nat)

  /** One property of a parsed request. `Unreadable(e)` is a property whose
      `getAsString()` or decoding throws `e` (a JSON null, a nested object, text that
      does not decode as the expected record). */
  datatype Field<+T> = Absent | Unreadable(cause: Exception) | Present(value: T)

  /** `JsonObject.has(name)`. */
  predicate Has<T>(f: Field<T>) {
    !f.Absent?
  }

  /** `jsonMessage.get(name).getAsString()` (or its decoding): null for an absent
      property, so a `NullPointerException`. */
  function Read<T>(f: Field<T>): (r: Outcome<T>)
    ensures r.Returned? <==> f.Present?
    ensures f.Present? ==> r.value == f.value
    ensures f.Absent? ==> r == Threw(NullPointer)
  {
    match f
    case Absent => Threw(NullPointer)
    case Unreadable(e) => Threw(e)
    case Present(v) => Returned(v)
  }

  /** The "user" descriptor every client request carries. */
  datatype UserDescriptor = UserDescriptor(username: string, password: string, authority: string, isLoggedIn: bool)

  /** The properties of a request object that the server reads. */
  datatype Request = Request(
    user: Field<UserDescriptor>,
    request: Field<string>,
    loginUsername: Field<string>,
    loginPassword: Field<string>,
    registerUsername: Field<string>,
    registerPassword: Field<string>,
    messageObject: Field<Message>)

  /** One line read from the socket: text that Gson cannot turn into a JSON object,
      or a parsed request. */
  datatype Line = Unparsable | Parsed(request: Request)

  /** What a read of the next line yields: a line, or an `IOException` with its
      message. End of stream is the end of the input sequence. */
  datatype Input = Received(line: Line) | ReadFailed(reason: string)

  /** The server's record of the client on one connection (its `SimpleClient`). The
      username and password start out null in the source; they are always rewritten
      from the request before anything reads them, so "" stands for null here. */
  datatype Session = Session(username: string, password: string, authority: string, loggedIn: bool)

  const FreshSession: Session := Session("", "", "", false)

  /** Both handlers refresh the session from the request's user descriptor while the
      client is not logged in or has a blank username or password
      (`StringUtils.isAnyBlank`). */
  predicate NeedsRefresh(s: Session) {
    !s.loggedIn || IsBlank(s.username) || IsBlank(s.password)
  }

  /** The session rebuilt from a descriptor, then marked logged in. */
  function FromDescriptor(d: UserDescriptor): (s: Session)
    ensures s.loggedIn
  {
    Session(d.username, d.password, d.authority, true)
  }

  /** What a handler does for one request: write a response to the client, or end
      the whole process (`System.exit(0)`), after which nothing else runs. */
  datatype Reply = Respond(response: JsonObject) | ExitServer

  /** A run's result with `sent` written before its replies. */
  function Prefixed<S>(sent: seq<Reply>, r: (S, seq<Reply>)): (S, seq<Reply>) {
    (r.0, sent + r.1)
  }

  /** Two prefixes written one after the other are one prefix. */
  lemma PrefixedTwice<S>(prior: seq<Reply>, sent: seq<Reply>, r: (S, seq<Reply>))
    ensures Prefixed(prior, Prefixed(sent, r)) == Prefixed(prior + sent, r)
  {
    assert prior + (sent + r.1) == (prior + sent) + r.1;
  }
}
