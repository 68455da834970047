/** JSON objects as the server builds and sends them, and `JsonResponse.serverResponse`
    (src/main/java/simpleserver/util/JsonResponse.java). A JSON object is a map from
    property name to value; Gson's text encoding is not modelled. */
module JsonResponse {
  import opened JavaLang
  import opened Messages

  /** The property values the server and the clients put into responses.
      `JMessage(m)` stands for the JSON text `gson.toJson(m)` stored as a string. */
  datatype JsonValue =
    | JString(s: string)
    | JNumber(n: int)
    | JStringArray(items: seq<string>)
    | JMessage(m: Message)

  type JsonObject = map<string, JsonValue>

  const Success: string := "success"
  const Error: string := "error"

  /** `serverResponse(status, message)`: a new object holding exactly the two
      properties "status" and "message". */
  function ServerResponse(status: string, message: string): (r: JsonObject)
    ensures r.Keys == {"status", "message"}
    ensures r["status"] == JString(status) && r["message"] == JString(message)
  {
    map["status" := JString(status), "message" := JString(message)]
  }

  /** `JsonObject.addProperty`: sets one property, keeping the others. */
  function AddProperty(o: JsonObject, key: string, value: JsonValue): (r: JsonObject)
    ensures r.Keys == o.Keys + {key} && r[key] == value
    ensures forall k :: k in o && k != key ==> r[k] == o[k]
  {
    o[key := value]
  }

  /** The status a response carries, when it carries one as a string. */
  function Status(o: JsonObject): Option<string> {
    if "status" in o && o["status"].JString? then Some(o["status"].s) else None
  }

  /** The message a response carries, when it carries one as a string. */
  function MessageText(o: JsonObject): Option<string> {
    if "message" in o && o["message"].JString? then Some(o["message"].s) else None
  }

  /** A server response is read back as the status and message it was built from,
      and two responses are equal exactly when their statuses and messages are. */
  lemma {:induction false} ServerResponseDeterminedByFields(s1: string, m1: string, s2: string, m2: string)
    ensures Status(ServerResponse(s1, m1)) == Some(s1) && MessageText(ServerResponse(s1, m1)) == Some(m1)
    ensures ServerResponse(s1, m1) == ServerResponse(s2, m2) <==> s1 == s2 && m1 == m2
  {
    if ServerResponse(s1, m1) == ServerResponse(s2, m2) {
      assert ServerResponse(s1, m1)["status"] == ServerResponse(s2, m2)["status"];
      assert ServerResponse(s1, m1)["message"] == ServerResponse(s2, m2)["message"];
    }
  }
}
