/** The older `fetch` handler (mail-worker/src/index.js): only a POST to the
    exact external send path is intercepted; there is no preflight case and no
    CORS header, the body's fields are passed on without defaults except the
    sender name, and the provider's status is passed through. */
module LegacyIndex {
  import opened Js
  import opened Strings
  import opened Worker

  const DefaultSenderName := "Cloud Mail"

  predicate Intercepted(verb: string, path: string) {
    path == ExternalSendPath && verb == "POST"
  }

  /** The object literal handed to `JSON.stringify`. Its first read,
      `body.fromEmail`, throws on a null body. */
  function BuildEnvelope(body: JsVal): (r: Completion<Envelope>)
    ensures r.Throw? <==> Nullish(body)
    ensures r.Throw? ==> r.message == ReadError(body, "fromEmail")
    ensures r.Normal? ==>
              && |r.value.recipients| == 1
              && r.value.senderName == FirstTruthy([Get(body, "fromName"), Str(DefaultSenderName)])
              && Truthy(r.value.senderName)
  {
    if Nullish(body) then Throw(ReadError(body, "fromEmail"))
    else
      OrPair(Get(body, "fromName"), Str(DefaultSenderName));
      Normal(Envelope(
        Get(body, "fromEmail"),
        Or(Get(body, "fromName"), Str(DefaultSenderName)),
        [Get(body, "toEmail")],
        Get(body, "subject"),
        Get(body, "htmlContent"),
        Get(body, "attachments")))
  }

  /** A status the Response constructor accepts with a non-null body: in
      200..599 and not a null-body status (204, 205, 304). Any other status
      makes `new Response` throw inside the `try`. */
  predicate Constructible(status: int) {
    200 <= status <= 599 && status != 204 && status != 205 && status != 304
  }

  /** Status policy: pass the provider's status and JSON through verbatim, with
      no header set; any throw becomes 500 `{error: message}`. `rejected` is the
      runtime's message when the Response constructor refuses the status. */
  function Respond(c: Completion<Upstream>, rejected: string): (r: Reply)
    ensures r.Response? && r.headers == map[]
    ensures c.Normal? && Constructible(c.value.status) ==>
              r.status == c.value.status && r.body == Json(c.value.json)
    ensures c.Normal? && !Constructible(c.value.status) ==>
              r.status == 500 && r.body == ErrorBody(rejected)
    ensures c.Throw? ==> r.status == 500 && r.body == ErrorBody(c.message)
  {
    match c
    case Normal(u) =>
      if Constructible(u.status) then Response(u.status, Json(u.json), map[])
      else Response(500, ErrorBody(rejected), map[])
    case Throw(m) => Response(500, ErrorBody(m), map[])
  }

  /** The default-export `fetch` handler, with the provider call as `relay`. */
  function Handle(req: Request, env: Env, relay: Outbound -> Completion<Upstream>, rejected: string): (x: Exchange)
    ensures x.reply.Response? ==> x.reply.headers == map[]
    ensures !Intercepted(req.verb, req.path) ==> x == Exchange(Fallthrough(req.path), None)
    ensures x.sent.Some? ==>
              && Intercepted(req.verb, req.path) && Authorized(req.authorization, env)
              && x.reply == Respond(relay(x.sent.value), rejected)
  {
    if Intercepted(req.verb, req.path) then
      if !Authorized(req.authorization, env) then
        Exchange(Response(401, ErrorBody("Unauthorized"), map[]), None)
      else
        match req.body
        case Malformed(m) => Exchange(Response(500, ErrorBody(m), map[]), None)
        case Parsed(v) =>
          match BuildEnvelope(v)
          case Throw(m) => Exchange(Response(500, ErrorBody(m), map[]), None)
          case Normal(e) =>
            var out := Relayed(env, e);
            Exchange(Respond(relay(out), rejected), Some(out))
    else
      Exchange(Fallthrough(req.path), None)
  }

  /** OPTIONS is not special: a preflight for the external path reaches the
      admin app, and so does a POST to the internal UI send path. */
  lemma NoPreflightNoInternalSend(env: Env, relay: Outbound -> Completion<Upstream>, rejected: string,
                                  auth: Option<string>, body: BodyRead)
    ensures Handle(Request("OPTIONS", ExternalSendPath, auth, body), env, relay, rejected)
            == Exchange(AdminApp("/external/send"), None)
    ensures Handle(Request("POST", "/api/mail/send", auth, body), env, relay, rejected)
            == Exchange(AdminApp("/mail/send"), None)
  {
    assert ExternalSendPath[..5] == ApiPrefix && ExternalSendPath[4..] == "/external/send";
    assert "/api/mail/send"[..5] == ApiPrefix && "/api/mail/send"[4..] == "/mail/send";
    assert Fallthrough(ExternalSendPath).path == "/external/send";
    assert Fallthrough("/api/mail/send").path == "/mail/send";
  }

  /** A token mismatch answers 401 with no CORS header, before the body is read
      or the provider is called. */
  lemma UnauthorizedExternal(req: Request, env: Env, relay: Outbound -> Completion<Upstream>, rejected: string,
                             otherBody: BodyRead, otherRelay: Outbound -> Completion<Upstream>)
    requires Intercepted(req.verb, req.path)
    requires !Authorized(req.authorization, env)
    ensures Handle(req, env, relay, rejected) == Exchange(Response(401, ErrorBody("Unauthorized"), map[]), None)
    ensures Handle(req.(body := otherBody), env, otherRelay, rejected) == Handle(req, env, relay, rejected)
  {
  }

  /** Fields are taken verbatim from the external schema, with no defaults. */
  lemma PayloadVerbatim(body: JsVal)
    requires !Nullish(body)
    ensures BuildEnvelope(body).Normal?
    ensures var e := BuildEnvelope(body).value;
      && e.senderEmail == Get(body, "fromEmail")
      && e.recipients == [Get(body, "toEmail")]
      && e.subject == Get(body, "subject")
      && e.htmlContent == Get(body, "htmlContent")
      && e.attachment == Get(body, "attachments")
  {
  }

  /** On an authorized send whose answer parses, the outward status is the
      provider's status verbatim (when the Response constructor accepts it). */
  lemma StatusPassThrough(req: Request, env: Env, relay: Outbound -> Completion<Upstream>, rejected: string)
    requires Intercepted(req.verb, req.path) && Authorized(req.authorization, env)
    requires req.body.Parsed? && !Nullish(req.body.value)
    ensures var x := Handle(req, env, relay, rejected);
      && x.sent == Some(Relayed(env, BuildEnvelope(req.body.value).value))
      && (relay(x.sent.value).Normal? && Constructible(relay(x.sent.value).value.status) ==>
            x.reply == Response(relay(x.sent.value).value.status, Json(relay(x.sent.value).value.json), map[]))
  {
  }

  /** Every throw on the send path becomes 500 `{error: message}` with no header. */
  lemma ThrowIsServerError(req: Request, env: Env, relay: Outbound -> Completion<Upstream>, rejected: string)
    requires Intercepted(req.verb, req.path) && Authorized(req.authorization, env)
    ensures var x := Handle(req, env, relay, rejected);
      && (req.body.Malformed? ==>
            x == Exchange(Response(500, ErrorBody(req.body.message), map[]), None))
      && (req.body.Parsed? && Nullish(req.body.value) ==>
            x == Exchange(Response(500, ErrorBody(ReadError(req.body.value, "fromEmail")), map[]), None))
      && (x.sent.Some? && relay(x.sent.value).Throw? ==>
            x.reply == Response(500, ErrorBody(relay(x.sent.value).message), map[]))
  {
  }

  /** Routing precedence of non-intercepted requests: `/api/` (rewritten), then
      `/static/` or `/attachments/` (keyed), then assets. */
  lemma FallthroughOrder(req: Request, env: Env, relay: Outbound -> Completion<Upstream>, rejected: string)
    requires !Intercepted(req.verb, req.path)
    ensures var x := Handle(req, env, relay, rejected);
      && x.sent == None
      && (StartsWith(req.path, ApiPrefix) ==> x.reply == AdminApp(req.path[4..]))
      && (!StartsWith(req.path, ApiPrefix)
          && (StartsWith(req.path, "/static/") || StartsWith(req.path, "/attachments/")) ==>
            x.reply == ObjectStore(req.path[1..]))
      && ((!StartsWith(req.path, ApiPrefix) && !StartsWith(req.path, "/static/")
           && !StartsWith(req.path, "/attachments/")) ==> x.reply == Assets)
  {
  }
}
