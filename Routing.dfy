/**
 * The messenger API's entry point (backend/messenger/index.py:7-57): routing
 * an HTTP event on its method and action tag to one of the handlers, the
 * CORS preflight answer and the fixed "Invalid request" answer.
 *
 * Request bodies arrive here already decoded: `json.loads` is not modelled,
 * and a body is the JSON object it decodes to.
 */
module Routing {
  import opened Wrappers

  /**
   * A decoded JSON value. There are no object or floating-point variants:
   * the fields the handlers read are strings, integers, booleans, null or
   * lists.
   */
  datatype Json = JNull | JBool(b: bool) | JInt(i: int) | JStr(s: string) | JList(items: seq<Json>)

  /** A decoded JSON object, such as a POST body. */
  type Body = map<string, Json>

  /** Python's `body.get(key, default)`: a present key yields its value, even `null`. */
  function Get(body: Body, key: string, default: Json): Json {
    if key in body then body[key] else default
  }

  /**
   * The event the function receives. `None` stands for a key missing from
   * the event dictionary.
   */
  datatype Event = Event(
    httpMethod: Option<string>,
    queryStringParameters: Option<map<string, string>>,
    body: Option<Body>)

  /** The handler a request is dispatched to. */
  datatype Dispatch =
    | Preflight
    | GetChats
    | GetMessages(chatId: Option<string>)
    | GetContacts
    | SendMessage(body: Body)
    | CreateGroup(body: Body)
    | ArchiveChat(body: Body)
    | Invalid

  /** The response dictionary the function returns. */
  datatype Response = Response(
    statusCode: int,
    headers: map<string, string>,
    body: string,
    isBase64Encoded: bool)

  /** `event.get('httpMethod', 'GET')` */
  function MethodOf(e: Event): string {
    e.httpMethod.GetOr("GET")
  }

  /** `event.get('queryStringParameters', {}).get('action', 'chats')` */
  function GetAction(e: Event): string {
    var q := e.queryStringParameters.GetOr(map[]);
    if "action" in q then q["action"] else "chats"
  }

  /** `json.loads(event.get('body', '{}'))`, then `body.get('action')` */
  function PostBody(e: Event): Body {
    e.body.GetOr(map[])
  }

  function PostAction(e: Event): Json {
    Get(PostBody(e), "action", JNull)
  }

  /** The requests the API serves; everything else is invalid. */
  predicate Recognised(e: Event) {
    || MethodOf(e) == "OPTIONS"
    || (MethodOf(e) == "GET" && GetAction(e) in {"chats", "messages", "contacts"})
    || (MethodOf(e) == "POST" &&
        PostAction(e) in {JStr("send_message"), JStr("create_group"), JStr("archive_chat")})
  }

  /** `handler`'s if/elif chain: the handler an event reaches. */
  function Route(e: Event): (d: Dispatch)
    ensures d.Preflight? <==> MethodOf(e) == "OPTIONS"
    ensures d.Invalid? <==> !Recognised(e)
    ensures (d.GetChats? || d.GetMessages? || d.GetContacts?) ==> MethodOf(e) == "GET"
    ensures (d.SendMessage? || d.CreateGroup? || d.ArchiveChat?) ==> MethodOf(e) == "POST" && d.body == PostBody(e)
  {
    var verb := MethodOf(e);
    if verb == "OPTIONS" then Preflight
    else if verb == "GET" then
      var q := e.queryStringParameters.GetOr(map[]);
      var path := GetAction(e);
      if path == "chats" then GetChats
      else if path == "messages" then GetMessages(if "chat_id" in q then Some(q["chat_id"]) else None)
      else if path == "contacts" then GetContacts
      else Invalid
    else if verb == "POST" then
      var body := PostBody(e);
      var action := PostAction(e);
      if action == JStr("send_message") then SendMessage(body)
      else if action == JStr("create_group") then CreateGroup(body)
      else if action == JStr("archive_chat") then ArchiveChat(body)
      else Invalid
    else Invalid
  }

  /** An event without `httpMethod` is routed as a GET. */
  lemma MissingMethodIsGet(e: Event)
    requires e.httpMethod.None?
    ensures Route(e) == Route(e.(httpMethod := Some("GET")))
  {
  }

  /** A GET without an `action` parameter (or without any query parameters) lists the chats. */
  lemma GetDefaultsToChats(e: Event)
    requires MethodOf(e) == "GET"
    requires e.queryStringParameters.None? || "action" !in e.queryStringParameters.value
    ensures Route(e) == GetChats
  {
  }

  /** GET `messages` passes the `chat_id` parameter, or nothing when it is missing; `contacts` lists contacts. */
  lemma GetRoutes(e: Event, q: map<string, string>)
    requires MethodOf(e) == "GET" && e.queryStringParameters == Some(q) && "action" in q
    ensures q["action"] == "messages" ==>
              Route(e) == GetMessages(if "chat_id" in q then Some(q["chat_id"]) else None)
    ensures q["action"] == "contacts" ==> Route(e) == GetContacts
    ensures q["action"] == "chats" ==> Route(e) == GetChats
  {
  }

  /** POST routes its three action tags to their handlers with the whole body. */
  lemma PostRoutes(e: Event)
    requires MethodOf(e) == "POST"
    ensures PostAction(e) == JStr("send_message") ==> Route(e) == SendMessage(PostBody(e))
    ensures PostAction(e) == JStr("create_group") ==> Route(e) == CreateGroup(PostBody(e))
    ensures PostAction(e) == JStr("archive_chat") ==> Route(e) == ArchiveChat(PostBody(e))
  {
  }

  /** A POST without an `action` (or without a body) is invalid. */
  lemma PostWithoutActionIsInvalid(e: Event)
    requires MethodOf(e) == "POST"
    requires e.body.None? || "action" !in e.body.value
    ensures Route(e) == Invalid
  {
  }

  // ---------------------------------------------------------------------
  // Responses
  // ---------------------------------------------------------------------

  /** The headers of every JSON answer. */
  const JsonHeaders: map<string, string> :=
    map["Content-Type" := "application/json", "Access-Control-Allow-Origin" := "*"]

  /** The answer to a CORS preflight (backend/messenger/index.py:13-22). */
  const PreflightResponse: Response :=
    Response(
      200,
      map["Access-Control-Allow-Origin" := "*",
          "Access-Control-Allow-Methods" := "GET, POST, OPTIONS",
          "Access-Control-Allow-Headers" := "Content-Type"],
      "",
      false)

  /** The answer to anything unrecognised (backend/messenger/index.py:49-54). */
  const InvalidRequestResponse: Response :=
    Response(400, JsonHeaders, "{\"error\": \"Invalid request\"}", false)

  /** What one invocation does: whether it opens a database connection, and what it answers. */
  datatype Outcome = Outcome(opensConnection: bool, response: Response)

  /**
   * `handler`: the preflight is answered before `psycopg2.connect`; every
   * other event opens a connection (closed again in `finally`) and is
   * answered by its handler, or with 400. The handlers' own answers depend
   * on the database and are given by `serve`.
   */
  function Handle(e: Event, serve: Dispatch -> Response): (o: Outcome)
    ensures MethodOf(e) == "OPTIONS" ==>
              !o.opensConnection && o.response.statusCode == 200 && o.response.body == "" &&
              "Access-Control-Allow-Methods" in o.response.headers &&
              o.response.headers["Access-Control-Allow-Methods"] == "GET, POST, OPTIONS"
    ensures MethodOf(e) != "OPTIONS" ==> o.opensConnection
    ensures !Recognised(e) ==>
              o.response.statusCode == 400 && o.response.body == "{\"error\": \"Invalid request\"}"
    ensures Recognised(e) && MethodOf(e) != "OPTIONS" ==> o.response == serve(Route(e))
  {
    var d := Route(e);
    if d.Preflight? then Outcome(false, PreflightResponse)
    else if d.Invalid? then Outcome(true, InvalidRequestResponse)
    else Outcome(true, serve(d))
  }
}
