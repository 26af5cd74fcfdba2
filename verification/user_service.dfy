/** The newer `fetch` handler (mail-worker/src/service/user-service.js): it
    answers CORS preflight first, intercepts both the authenticated external
    send path and any internal UI send path, forces status 200 on every parsed
    provider answer, and attaches the CORS headers to every response it builds. */
module UserService {
  import opened Js
  import opened Strings
  import opened Worker

  const Cors: map<string, string> := map[
    "Access-Control-Allow-Origin" := "*",
    "Access-Control-Allow-Methods" := "POST, OPTIONS, GET",
    "Access-Control-Allow-Headers" := "Content-Type, Authorization"]

  /** Headers of a relayed provider answer: the JSON content type, then the CORS
      headers spread over it. */
  const JsonHeaders: map<string, string> := map["Content-Type" := "application/json"] + Cors

  /** Any pathname containing this is an internal UI send. */
  const InternalSendMarker := "/mail/send"

  const DefaultSenderName := "Cloud Mail Service"

  /** `h` carries every CORS header with its value. */
  predicate CarriesCors(h: map<string, string>) {
    forall k :: k in Cors ==> k in h && h[k] == Cors[k]
  }

  /** How the handler's branch order sorts a request before routing. */
  datatype Route = Preflight | ExternalSend | InternalSend | Other

  function Classify(verb: string, path: string): (r: Route)
    ensures r == Preflight <==> verb == "OPTIONS"
    ensures r == ExternalSend <==> verb == "POST" && path == ExternalSendPath
    ensures r == InternalSend <==>
              verb == "POST" && path != ExternalSendPath
              && exists j :: MatchAt(path, InternalSendMarker, j)
  {
    IncludesIff(path, InternalSendMarker);
    if verb == "OPTIONS" then Preflight
    else
      var isExternal := path == ExternalSendPath;
      var isInternalUI := Includes(path, InternalSendMarker);
      if (isExternal || isInternalUI) && verb == "POST" then
        (if isExternal then ExternalSend else InternalSend)
      else Other
  }

  /** The `sendData` object built from the parsed body. Reading the first field of
      a null body throws; any other body yields an envelope. */
  function BuildEnvelope(body: JsVal, env: Env): (r: Completion<Envelope>)
    ensures r.Throw? <==> Nullish(body)
    ensures r.Throw? ==> r.message == ReadError(body, "from")
    ensures r.Normal? ==>
              && |r.value.recipients| == 1
              && Truthy(r.value.senderName)
              && Truthy(r.value.subject)
              && Truthy(r.value.attachment)
              && (Truthy(r.value.htmlContent) || r.value.htmlContent == Str(""))
  {
    if Nullish(body) then Throw(ReadError(body, "from"))
    else
      Normal(Envelope(
        Or(Get(body, "from"), Get(body, "fromEmail")),
        Or(EnvVal(env.admin), Str(DefaultSenderName)),
        [Or(Get(body, "to"), Get(body, "toEmail"))],
        Or(Get(body, "subject"), Str("No Subject")),
        Or(Or(Or(Get(body, "content"), Get(body, "htmlContent")), Get(body, "text")), Str("")),
        Or(Get(body, "attachments"), Arr([]))))
  }

  /** Status policy: a parsed provider answer is returned with status 200 whatever
      its own status; any throw becomes 500 with the error's message. */
  function Respond(c: Completion<Upstream>): (r: Reply)
    ensures r.Response? && CarriesCors(r.headers)
    ensures c.Normal? ==> r.status == 200 && r.body == Json(c.value.json)
                          && "Content-Type" in r.headers && r.headers["Content-Type"] == "application/json"
    ensures c.Throw? ==> r.status == 500 && r.body == ErrorBody(c.message) && r.headers == Cors
  {
    match c
    case Normal(u) => Response(200, Json(u.json), JsonHeaders)
    case Throw(m) => Response(500, ErrorBody(m), Cors)
  }

  /** The `try` block: read the body, build the envelope, call the provider, answer. */
  function Send(body: BodyRead, env: Env, relay: Outbound -> Completion<Upstream>): (x: Exchange)
    ensures x.reply.Response? && CarriesCors(x.reply.headers)
    ensures x.reply.status == 200 || x.reply.status == 500
    ensures x.sent.Some? <==> body.Parsed? && !Nullish(body.value)
    ensures x.sent.Some? ==> x.reply == Respond(relay(x.sent.value))
  {
    match body
    case Malformed(m) => Exchange(Response(500, ErrorBody(m), Cors), None)
    case Parsed(v) =>
      match BuildEnvelope(v, env)
      case Throw(m) => Exchange(Response(500, ErrorBody(m), Cors), None)
      case Normal(e) =>
        var out := Relayed(env, e);
        Exchange(Respond(relay(out)), Some(out))
  }

  /** The default-export `fetch` handler, with the provider call as `relay`. */
  function Handle(req: Request, env: Env, relay: Outbound -> Completion<Upstream>): (x: Exchange)
    ensures x.reply.Response? ==> CarriesCors(x.reply.headers)
    ensures x.sent.Some? ==>
              && req.verb == "POST"
              && (req.path == ExternalSendPath || Includes(req.path, InternalSendMarker))
              && (req.path == ExternalSendPath ==> Authorized(req.authorization, env))
              && req.body.Parsed? && !Nullish(req.body.value)
              && x.reply == Respond(relay(x.sent.value))
  {
    match Classify(req.verb, req.path)
    case Preflight => Exchange(Response(200, NoBody, Cors), None)
    case ExternalSend =>
      if !Authorized(req.authorization, env) then
        Exchange(Response(401, ErrorBody("Unauthorized"), Cors), None)
      else Send(req.body, env, relay)
    case InternalSend => Send(req.body, env, relay)
    case Other => Exchange(Fallthrough(req.path), None)
  }

  /** An OPTIONS request on any path gets an empty 200 with the CORS headers,
      before authentication or routing, and nothing is relayed. */
  lemma PreflightFirst(req: Request, env: Env, relay: Outbound -> Completion<Upstream>)
    requires req.verb == "OPTIONS"
    ensures Handle(req, env, relay) == Exchange(Response(200, NoBody, Cors), None)
  {
  }

  /** A send-path POST is always answered by the handler itself, never delegated. */
  lemma SendIsNeverDelegated(req: Request, env: Env, relay: Outbound -> Completion<Upstream>)
    requires req.verb == "POST"
    requires req.path == ExternalSendPath || exists j :: MatchAt(req.path, InternalSendMarker, j)
    ensures Handle(req, env, relay).reply.Response?
  {
  }

  /** Without the exact bearer token the external path answers 401 with CORS
      headers, whatever the body and whatever the provider would do. */
  lemma UnauthorizedExternal(req: Request, env: Env, relay: Outbound -> Completion<Upstream>,
                             otherBody: BodyRead, otherRelay: Outbound -> Completion<Upstream>)
    requires req.verb == "POST" && req.path == ExternalSendPath
    requires !Authorized(req.authorization, env)
    ensures Handle(req, env, relay) == Exchange(Response(401, ErrorBody("Unauthorized"), Cors), None)
    ensures Handle(req.(body := otherBody), env, otherRelay) == Handle(req, env, relay)
  {
  }

  /** The internal UI path is not authenticated: the header does not matter and
      the answer is never 401. */
  lemma InternalSendIgnoresAuthorization(req: Request, env: Env, relay: Outbound -> Completion<Upstream>,
                                         otherAuth: Option<string>)
    requires Classify(req.verb, req.path) == InternalSend
    ensures Handle(req.(authorization := otherAuth), env, relay) == Handle(req, env, relay)
    ensures Handle(req, env, relay).reply.status != 401
  {
  }

  /** Field mapping of the envelope by first-truthy fallback; the sender name
      comes from the environment only. */
  lemma PayloadFallbacks(body: JsVal, env: Env, otherBody: JsVal)
    requires !Nullish(body) && !Nullish(otherBody)
    ensures BuildEnvelope(body, env).Normal?
    ensures var e := BuildEnvelope(body, env).value;
      && e.senderEmail == FirstTruthy([Get(body, "from"), Get(body, "fromEmail")])
      && e.senderName == (if env.admin.Some? && env.admin.value != "" then Str(env.admin.value)
                          else Str(DefaultSenderName))
      && e.senderName == BuildEnvelope(otherBody, env).value.senderName
      && e.recipients == [FirstTruthy([Get(body, "to"), Get(body, "toEmail")])]
      && e.subject == FirstTruthy([Get(body, "subject"), Str("No Subject")])
      && e.htmlContent == FirstTruthy([Get(body, "content"), Get(body, "htmlContent"),
                                       Get(body, "text"), Str("")])
      && e.attachment == FirstTruthy([Get(body, "attachments"), Arr([])])
  {
    var from, to, subj, att := Get(body, "from"), Get(body, "to"), Get(body, "subject"), Get(body, "attachments");
    var content, html, text := Get(body, "content"), Get(body, "htmlContent"), Get(body, "text");
    var name := Or(EnvVal(env.admin), Str(DefaultSenderName));
    var e := Envelope(Or(from, Get(body, "fromEmail")), name, [Or(to, Get(body, "toEmail"))],
                      Or(subj, Str("No Subject")), Or(Or(Or(content, html), text), Str("")),
                      Or(att, Arr([])));
    assert BuildEnvelope(body, env) == Normal(e);
    assert BuildEnvelope(otherBody, env).value.senderName == name;
    OrPair(from, Get(body, "fromEmail"));
    OrPair(to, Get(body, "toEmail"));
    OrPair(subj, Str("No Subject"));
    OrPair(att, Arr([]));
    OrChain(content, html, text, Str(""));
  }

  /** A relayed answer that parses is returned as 200 with its JSON, the JSON
      content type and the CORS headers, whatever status the provider gave. */
  lemma ParsedAnswerIsForcedOk(req: Request, env: Env, relay: Outbound -> Completion<Upstream>)
    requires Classify(req.verb, req.path) == InternalSend
             || (Classify(req.verb, req.path) == ExternalSend && Authorized(req.authorization, env))
    requires req.body.Parsed? && !Nullish(req.body.value)
    ensures var x := Handle(req, env, relay);
      && x.sent == Some(Relayed(env, BuildEnvelope(req.body.value, env).value))
      && (relay(x.sent.value).Normal? ==>
            x.reply == Response(200, Json(relay(x.sent.value).value.json), JsonHeaders))
  {
  }

  /** Every throw on the send path (unparseable body, null body, failed provider
      call or unparseable answer) becomes 500 `{error: message}` with CORS headers. */
  lemma ThrowIsServerError(req: Request, env: Env, relay: Outbound -> Completion<Upstream>)
    requires Classify(req.verb, req.path) == InternalSend
             || (Classify(req.verb, req.path) == ExternalSend && Authorized(req.authorization, env))
    ensures var x := Handle(req, env, relay);
      && (req.body.Malformed? ==>
            x == Exchange(Response(500, ErrorBody(req.body.message), Cors), None))
      && (req.body.Parsed? && Nullish(req.body.value) ==>
            x == Exchange(Response(500, ErrorBody(ReadError(req.body.value, "from")), Cors), None))
      && (x.sent.Some? && relay(x.sent.value).Throw? ==>
            x.reply == Response(500, ErrorBody(relay(x.sent.value).message), Cors))
  {
  }

  /** Any other `/api/` request, including a non-POST to a send path, is delegated
      to the admin app with its first four characters (`/api`) dropped. */
  lemma AdminRewrite(req: Request, env: Env, relay: Outbound -> Completion<Upstream>)
    requires Classify(req.verb, req.path) == Other
    requires StartsWith(req.path, ApiPrefix)
    ensures Handle(req, env, relay) == Exchange(AdminApp(req.path[4..]), None)
  {
  }

  /** A GET to the external send path is not intercepted; it reaches the admin app. */
  lemma NonPostExternalReachesAdmin(req: Request, env: Env, relay: Outbound -> Completion<Upstream>)
    requires req.path == ExternalSendPath && req.verb != "POST" && req.verb != "OPTIONS"
    ensures Handle(req, env, relay) == Exchange(AdminApp("/external/send"), None)
  {
    assert Classify(req.verb, req.path) == Other;
    assert ExternalSendPath[..5] == ApiPrefix;
    assert ExternalSendPath[4..] == "/external/send";
    AdminRewrite(req, env, relay);
  }

  /** Non-`/api/` requests go to the object store under the path without its
      leading `/` when they start with `/static/` or `/attachments/`, and to the
      asset server otherwise. */
  lemma ObjectsAndAssets(req: Request, env: Env, relay: Outbound -> Completion<Upstream>)
    requires Classify(req.verb, req.path) == Other
    requires !StartsWith(req.path, ApiPrefix)
    ensures var x := Handle(req, env, relay);
      && x.sent == None
      && (StartsWith(req.path, "/static/") || StartsWith(req.path, "/attachments/") ==>
            x.reply == ObjectStore(req.path[1..]))
      && (!StartsWith(req.path, "/static/") && !StartsWith(req.path, "/attachments/") ==>
            x.reply == Assets)
  {
  }
}
