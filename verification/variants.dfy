/** How the two versions of the `fetch` handler differ on the same request. */
module Variants {
  import opened Js
  import opened Strings
  import opened Worker
  import UserService
  import LegacyIndex

  /** On an authorized external send whose provider answer parses, the newer
      handler answers 200 whatever the provider said, while the older one passes
      the provider's status through (400 stays 400). */
  lemma StatusPolicyDiffers(req: Request, env: Env, status: int, json: JsVal,
                            relay: Outbound -> Completion<Upstream>, rejected: string)
    requires req.verb == "POST" && req.path == ExternalSendPath
    requires Authorized(req.authorization, env)
    requires req.body.Parsed? && !Nullish(req.body.value)
    requires LegacyIndex.Constructible(status)
    requires forall o :: relay(o) == Normal(Upstream(status, json))
    ensures UserService.Handle(req, env, relay).reply == Response(200, Json(json), UserService.JsonHeaders)
    ensures LegacyIndex.Handle(req, env, relay, rejected).reply == Response(status, Json(json), map[])
  {
  }

  /** The newer handler answers a preflight and intercepts the internal UI send
      path; the older one hands both to the admin app. */
  lemma RoutingDiffers(env: Env, relay: Outbound -> Completion<Upstream>, rejected: string,
                       auth: Option<string>, body: BodyRead)
    ensures UserService.Handle(Request("OPTIONS", ExternalSendPath, auth, body), env, relay).reply
            == Response(200, NoBody, UserService.Cors)
    ensures LegacyIndex.Handle(Request("OPTIONS", ExternalSendPath, auth, body), env, relay, rejected).reply
            == AdminApp("/external/send")
    ensures UserService.Handle(Request("POST", "/api/mail/send", auth, body), env, relay).reply.Response?
    ensures LegacyIndex.Handle(Request("POST", "/api/mail/send", auth, body), env, relay, rejected).reply
            == AdminApp("/mail/send")
  {
    assert MatchAt("/api/mail/send", UserService.InternalSendMarker, 4);
    UserService.SendIsNeverDelegated(Request("POST", "/api/mail/send", auth, body), env, relay);
    LegacyIndex.NoPreflightNoInternalSend(env, relay, rejected, auth, body);
  }

  /** A body written in the external schema alone (no truthy `from`, `to` or
      `content`, and truthy external fields) yields the same envelope from both
      handlers, except for the sender name. */
  lemma ExternalSchemaAgrees(body: JsVal, env: Env)
    requires !Nullish(body)
    requires !Truthy(Get(body, "from")) && !Truthy(Get(body, "to")) && !Truthy(Get(body, "content"))
    requires Truthy(Get(body, "subject")) && Truthy(Get(body, "htmlContent"))
             && Truthy(Get(body, "attachments"))
    ensures var n := UserService.BuildEnvelope(body, env).value;
            var o := LegacyIndex.BuildEnvelope(body).value;
      && n.senderEmail == o.senderEmail
      && n.recipients == o.recipients
      && n.subject == o.subject
      && n.htmlContent == o.htmlContent
      && n.attachment == o.attachment
  {
  }

  /** Where the schemas meet defaults the handlers part: a body without
      `subject`, `htmlContent`, `content`, `text` or `attachments` gets
      `No Subject`, `""` and `[]` from the newer handler and passes `undefined`
      for all three in the older one. */
  lemma DefaultsDiffer(body: JsVal, env: Env)
    requires !Nullish(body)
    requires Get(body, "subject") == Undefined && Get(body, "htmlContent") == Undefined
    requires Get(body, "content") == Undefined && Get(body, "text") == Undefined
    requires Get(body, "attachments") == Undefined
    ensures var n := UserService.BuildEnvelope(body, env).value;
            var o := LegacyIndex.BuildEnvelope(body).value;
      && n.subject == Str("No Subject") && o.subject == Undefined
      && n.htmlContent == Str("") && o.htmlContent == Undefined
      && n.attachment == Arr([]) && o.attachment == Undefined
  {
  }

  /** `{from: "a@x.com", to: "b@y.com", content: "<p>hi</p>"}` on the internal
      path, with no admin name configured, is sent with every default filled in. */
  lemma InternalUiExample(env: Env)
    requires env.admin.None?
    ensures var body := Obj(map["from" := Str("a@x.com"), "to" := Str("b@y.com"),
                                "content" := Str("<p>hi</p>")]);
            UserService.BuildEnvelope(body, env)
            == Normal(Envelope(Str("a@x.com"), Str("Cloud Mail Service"), [Str("b@y.com")],
                               Str("No Subject"), Str("<p>hi</p>"), Arr([])))
  {
  }
}
