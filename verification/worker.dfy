/** What both versions of the worker's `fetch` handler share: the request as the
    handler sees it, the reply it produces, the canonical outbound envelope, the
    bearer-token test, the request sent to the mail provider, and the routing of
    every request that is not intercepted as a send. */
module Worker {
  import opened Js
  import opened Strings

  const ExternalSendPath := "/api/external/send"
  const ApiPrefix := "/api/"
  const BrevoUrl := "https://api.brevo.com/v3/smtp/email"

  /** The environment bindings the handlers read; each may be unset. */
  datatype Env = Env(authKey: Option<string>, admin: Option<string>, brevoKey: Option<string>)

  /** The outcome of `await req.json()`: a parsed value, or the message of the
      error it throws on a body that is not JSON. */
  datatype BodyRead = Parsed(value: JsVal) | Malformed(message: string)

  /** An incoming request: its method (`verb`), URL pathname, the `Authorization` header as
      `req.headers.get` returns it (None for null), and the body read. */
  datatype Request = Request(verb: string, path: string, authorization: Option<string>, body: BodyRead)

  /** The mail the handler asks the provider to send. Every field holds the
      JavaScript value the handler computed, undefined included. */
  datatype Envelope = Envelope(
    senderEmail: JsVal,
    senderName: JsVal,
    recipients: seq<JsVal>,
    subject: JsVal,
    htmlContent: JsVal,
    attachment: JsVal)

  /** The single POST made to the provider. */
  datatype Outbound = Outbound(url: string, verb: string, headers: map<string, string>, envelope: Envelope)

  /** The provider's answer once `res.json()` has parsed it. */
  datatype Upstream = Upstream(status: int, json: JsVal)

  datatype Body = NoBody | Json(value: JsVal)

  /** A response the handler builds itself, or one of the three handlers it
      delegates to: the admin app (with the rewritten path), the object store
      (with the object key) and the static asset server. */
  datatype Reply =
    | Response(status: int, body: Body, headers: map<string, string>)
    | AdminApp(path: string)
    | ObjectStore(key: string)
    | Assets

  /** A reply together with the provider request made on the way, if any. */
  datatype Exchange = Exchange(reply: Reply, sent: Option<Outbound>)

  /** The JSON error body `{error: message}`. */
  function ErrorBody(message: string): Body {
    Json(Obj(map["error" := Str(message)]))
  }

  /** The bearer-token test: the header is present and equals "Bearer " followed
      by the text of AUTH_KEY. */
  predicate Authorized(authorization: Option<string>, env: Env) {
    authorization == Some("Bearer " + ToText(env.authKey))
  }

  /** A missing header never authorizes, and only the exact bearer text does. */
  lemma AuthorizedIff(authorization: Option<string>, env: Env)
    ensures !Authorized(None, env)
    ensures Authorized(authorization, env) <==>
              authorization.Some? && |authorization.value| >= 7
              && authorization.value[..7] == "Bearer "
              && authorization.value[7..] == ToText(env.authKey)
  {
    if authorization.Some? && |authorization.value| >= 7 {
      var a := authorization.value;
      assert a == a[..7] + a[7..];
    }
  }

  /** With AUTH_KEY unset the template literal yields "Bearer undefined", so
      that literal header is accepted. */
  lemma UnsetKeyAcceptsLiteralUndefined(env: Env)
    requires env.authKey.None?
    ensures Authorized(Some("Bearer undefined"), env)
  {
    assert "Bearer " + ToText(env.authKey) == "Bearer undefined";
  }

  /** The provider request: its URL, method and headers, with the envelope as body. */
  function Relayed(env: Env, e: Envelope): (o: Outbound)
    ensures o.url == BrevoUrl && o.verb == "POST" && o.envelope == e
    ensures o.headers.Keys == {"api-key", "content-type"}
    ensures o.headers["content-type"] == "application/json"
    ensures env.brevoKey.Some? ==> o.headers["api-key"] == env.brevoKey.value
  {
    Outbound(BrevoUrl, "POST",
             map["api-key" := ToText(env.brevoKey), "content-type" := "application/json"], e)
  }

  /** The provider's JSON body for an envelope:
      `{sender: {email, name}, to: [{email}, ...], subject, htmlContent, attachment}`. */
  function WireBody(e: Envelope): JsVal {
    Obj(map[
      "sender" := Obj(map["email" := e.senderEmail, "name" := e.senderName]),
      "to" := Arr(seq(|e.recipients|, i requires 0 <= i < |e.recipients| =>
                        Obj(map["email" := e.recipients[i]]))),
      "subject" := e.subject,
      "htmlContent" := e.htmlContent,
      "attachment" := e.attachment])
  }

  /** Reading the provider's JSON body back field by field yields the envelope:
      nothing is lost or renamed on the way to the wire, and each recipient
      becomes one `{email}` entry of `to`. */
  lemma WireBodyCarriesEnvelope(e: Envelope)
    ensures var w := WireBody(e);
      && w.Obj? && w.props.Keys == {"sender", "to", "subject", "htmlContent", "attachment"}
      && Get(Get(w, "sender"), "email") == e.senderEmail
      && Get(Get(w, "sender"), "name") == e.senderName
      && Get(w, "to").Arr? && |Get(w, "to").items| == |e.recipients|
      && (forall i :: 0 <= i < |e.recipients| ==>
            !Nullish(Get(w, "to").items[i]) && Get(Get(w, "to").items[i], "email") == e.recipients[i])
      && Get(w, "subject") == e.subject
      && Get(w, "htmlContent") == e.htmlContent
      && Get(w, "attachment") == e.attachment
  {
  }

  /** Routing of every request not intercepted as a send: `/api/` paths go to the
      admin app with the leading `/api` removed, `/static/` and `/attachments/`
      paths go to the object store keyed by the path without its leading `/`,
      and everything else is a static asset. */
  function Fallthrough(path: string): (r: Reply)
    ensures r.AdminApp? <==> StartsWith(path, ApiPrefix)
    ensures r.AdminApp? ==> "/api" + r.path == path && StartsWith(r.path, "/")
    ensures r.ObjectStore? <==> !StartsWith(path, ApiPrefix)
                                && (StartsWith(path, "/static/") || StartsWith(path, "/attachments/"))
    ensures r.ObjectStore? ==> "/" + r.key == path
                               && (StartsWith(r.key, "static/") || StartsWith(r.key, "attachments/"))
    ensures r.Assets? <==> !StartsWith(path, ApiPrefix)
                           && !StartsWith(path, "/static/") && !StartsWith(path, "/attachments/")
  {
    if StartsWith(path, ApiPrefix) then
      StartsWithPrefix(path, "/api", "/");
      var rest := ReplaceFirst(path, "/api", "");
      assert rest == path[4..];
      assert "/api" + rest == path by { assert path == path[..4] + path[4..]; }
      AdminApp(rest)
    else if StartsWith(path, "/static/") || StartsWith(path, "/attachments/") then
      var key := path[1..];
      assert path == path[..1] + key;
      assert StartsWith(path, "/static/") ==> key[..7] == path[1..8];
      assert StartsWith(path, "/attachments/") ==> key[..12] == path[1..13];
      ObjectStore(key)
    else
      Assets
  }
}
