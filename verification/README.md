# Mail gateway fetch handler — Dafny model

This project models the request-dispatch core of the cloud-mail edge worker: the
default-export `fetch` handler that decides, for each HTTP request, whether to
answer a CORS preflight, reject an unauthenticated external send, relay a mail
to the Brevo transactional-email API, or delegate to the admin app, the object
store or the static asset server. Two versions of the handler exist and both are
modelled:

- `UserService` — mail-worker/src/service/user-service.js, the newer handler:
  preflight first, both the external send path and any path containing
  `/mail/send` are intercepted, the provider's answer is always returned as 200,
  and every response it builds carries the three CORS headers.
- `LegacyIndex` — mail-worker/src/index.js, the older handler: only
  `POST /api/external/send` is intercepted, no CORS headers, the provider's
  status is passed through.

The handler is modelled as a pure function of the request (method, pathname,
`Authorization` header, outcome of `req.json()`), the environment (`AUTH_KEY`,
`admin`, `BREVO_API_KEY`, each possibly unset) and `relay`, an arbitrary function
standing for the provider call plus `res.json()`. It returns an `Exchange`: the
reply, and the provider request it made, if any. "No relay call is made" is
`sent == None`, and "the body is not read" is stated as the reply being the same
for any other body and any other `relay`.

Modules:

- `Js` — JSON values with `undefined`, truthiness, `||`, property reads (a read on
  null throws V8's TypeError message), template-literal text of an unset variable
  (`"undefined"`), and `Completion` (a value or a thrown message).
- `Strings` — `startsWith`, `indexOf`, `includes` and string-pattern `replace` on
  pathnames.
- `Worker` — types shared by both handlers, the bearer-token test, the provider
  request, and the routing of every request that is not intercepted.
- `UserService`, `LegacyIndex` — the two handlers and their properties.
- `Variants` — lemmas comparing the two handlers on the same request.

Behaviour of the code that is easy to misread, and that the model keeps:

- user-service.js forces 200 on every parsed provider answer, for external
  callers too, although the comment at user-service.js:62 names only the UI.
- A throw on either send path of user-service.js, the internal UI path
  included, answers 500 with `{error: message}`.
- When `content`, `htmlContent` and `text` are all falsy, the body sent is `""`.
- The object-store key is the pathname minus only its leading `/`; the
  `static/` or `attachments/` prefix stays in the key.
- A JSON body that is a primitive or an array does not throw: every field reads
  as `undefined`. Only a `null` body throws, on the first field read.

## Model

| member | source | states |
|---|---|---|
| Js.FirstTruthy | mail-worker/src/service/user-service.js:42-48 | a chain of JavaScript `or` operators yields the first truthy operand, all earlier ones being falsy, or the last operand when none is truthy |
| Js.OrExtends | mail-worker/src/service/user-service.js:47 | adding one more operand to an `or` chain extends the first-truthy search by exactly that operand |
| Js.OrPair | mail-worker/src/service/user-service.js:42 | a two-operand `or` yields its first operand when truthy and its second otherwise, which is FirstTruthy of the pair |
| Js.OrChain | mail-worker/src/service/user-service.js:47 | the left-nested four-operand `or` chain, as JavaScript evaluates it, means FirstTruthy of `[a, b, c, d]` |
| Strings.FindFrom | mail-worker/src/service/user-service.js:25 | `indexOf` from a start index is the first index where the pattern occurs, or -1 exactly when it occurs nowhere after the start |
| Strings.IndexOf | mail-worker/src/service/user-service.js:25 | -1 exactly when the pattern occurs nowhere; otherwise an occurrence with none before it |
| Strings.IncludesIff | mail-worker/src/service/user-service.js:25 | `includes` holds exactly when the pattern occurs at some index |
| Strings.ReplaceFirst | mail-worker/src/service/user-service.js:76 | a string without an occurrence is unchanged; a string starting with the pattern has that leading occurrence replaced |
| Worker.AuthorizedIff | mail-worker/src/service/user-service.js:30-31 | a missing header never authorizes; a header authorizes exactly when it is `"Bearer "` followed by the text of `AUTH_KEY` |
| Worker.UnsetKeyAcceptsLiteralUndefined | mail-worker/src/service/user-service.js:31 | with `AUTH_KEY` unset, the header `Bearer undefined` is accepted |
| Worker.Relayed | mail-worker/src/service/user-service.js:51-58 | the provider request is a POST to the Brevo URL, with exactly the `api-key` and JSON `content-type` headers, carrying the envelope |
| Worker.WireBodyCarriesEnvelope | mail-worker/src/service/user-service.js:40-49 | the provider JSON has exactly the keys `sender`, `to`, `subject`, `htmlContent` and `attachment`, and reading it back gives every envelope field, one `{email}` entry per recipient |
| Worker.Fallthrough | mail-worker/src/service/user-service.js:74-86 | `/api/` paths go to the admin app with `/api` dropped; `/static/` or `/attachments/` paths go to the object store keyed by the path minus its `/`; all else goes to assets, in that precedence |
| UserService.Classify | mail-worker/src/service/user-service.js:18-27 | OPTIONS exactly is preflight; a POST to the exact external path is an external send; a POST to any other path containing `/mail/send` is an internal send |
| UserService.BuildEnvelope | mail-worker/src/service/user-service.js:39-49 | throws the null-read message exactly on a null body; otherwise one recipient, and a sender name, subject and attachment list that are always truthy, and a body that is truthy or `""` |
| UserService.Respond | mail-worker/src/service/user-service.js:60-71 | a parsed answer gives 200 with its JSON, the JSON content type and CORS; a throw gives 500 `{error: message}` with CORS only |
| UserService.Send | mail-worker/src/service/user-service.js:38-71 | the send path always answers itself with 200 or 500 and CORS; the provider is called exactly when the body parses to a non-null value |
| UserService.Handle | mail-worker/src/service/user-service.js:10-87 | every response it builds carries the CORS headers; a provider call happens only for a POST to the external path (authorized) or to a path containing `/mail/send`, with a body parsed to a non-null value, and the reply follows from that call's outcome |
| UserService.PreflightFirst | mail-worker/src/service/user-service.js:18-21 | OPTIONS on any path gets an empty 200 with the CORS headers and no relay, so it is never 401 |
| UserService.SendIsNeverDelegated | mail-worker/src/service/user-service.js:27-72 | a POST to the external path or to a path containing `/mail/send` never reaches the admin app, the object store or assets |
| UserService.UnauthorizedExternal | mail-worker/src/service/user-service.js:29-36 | without the exact token the external path gets 401 `{error:"Unauthorized"}` with CORS, independent of the body and the provider |
| UserService.InternalSendIgnoresAuthorization | mail-worker/src/service/user-service.js:28-36 | the internal send path gives the same answer for any `Authorization` header and never answers 401 |
| UserService.PayloadFallbacks | mail-worker/src/service/user-service.js:40-49 | sender email is `from` or `fromEmail`; sender name is `admin` or the default and never from the body; one recipient `to` or `toEmail`; subject defaults to `No Subject`; body is `content`, `htmlContent`, `text` or `""`; attachments default to `[]` |
| UserService.ParsedAnswerIsForcedOk | mail-worker/src/service/user-service.js:60-66 | the envelope built from the body is relayed, and a parsed answer is returned as 200 with its JSON whatever the provider's status |
| UserService.ThrowIsServerError | mail-worker/src/service/user-service.js:67-71 | an unparseable body, a null body, a failed call or an unparseable answer each give 500 `{error: message}` with CORS |
| UserService.AdminRewrite | mail-worker/src/service/user-service.js:75-79 | any other `/api/` request goes to the admin app with the first four characters dropped |
| UserService.NonPostExternalReachesAdmin | mail-worker/src/service/user-service.js:75-79 | a non-POST, non-OPTIONS request to the external send path reaches the admin app as `/external/send` |
| UserService.ObjectsAndAssets | mail-worker/src/service/user-service.js:82-86 | non-`/api/` paths under `/static/` or `/attachments/` go to the object store keyed by the path minus its `/`; others go to assets |
| LegacyIndex.BuildEnvelope | mail-worker/src/index.js:27-34 | throws the null-read message for `fromEmail` exactly on a null body; otherwise one recipient, and sender name `fromName` or `Cloud Mail` |
| LegacyIndex.Respond | mail-worker/src/index.js:36-40 | a parsed answer keeps the provider's status and JSON when the Response constructor accepts the status, otherwise 500; a throw gives 500 `{error: message}`; no header is set |
| LegacyIndex.Handle | mail-worker/src/index.js:10-56 | no response carries a header; every request other than a POST to the exact external path is routed as fall-through; a provider call happens only for an authorized intercepted request |
| LegacyIndex.NoPreflightNoInternalSend | mail-worker/src/index.js:14-47 | OPTIONS on the external path and POST `/api/mail/send` both reach the admin app with `/api` dropped |
| LegacyIndex.UnauthorizedExternal | mail-worker/src/index.js:15-18 | a token mismatch gives 401 `{error:"Unauthorized"}` with no header, independent of the body and the provider |
| LegacyIndex.PayloadVerbatim | mail-worker/src/index.js:27-34 | `fromEmail`, `toEmail`, `subject`, `htmlContent` and `attachments` are passed on as they are, with no defaults |
| LegacyIndex.StatusPassThrough | mail-worker/src/index.js:36-37 | the envelope built from the body is relayed, and a parsed answer keeps the provider's status and JSON |
| LegacyIndex.ThrowIsServerError | mail-worker/src/index.js:38-40 | an unparseable body, a null body, a failed call or an unparseable answer each give 500 `{error: message}` with no header |
| LegacyIndex.FallthroughOrder | mail-worker/src/index.js:43-55 | requests that are not intercepted go to the admin app (rewritten), then the object store (keyed), then assets, in that order |
| Variants.StatusPolicyDiffers | mail-worker/src/service/user-service.js:62-66 | on an authorized external send whose answer parses, the newer handler answers 200 while the older passes the provider's status (400 stays 400) |
| Variants.RoutingDiffers | mail-worker/src/service/user-service.js:18-27 | the newer handler answers the preflight and intercepts `/api/mail/send`; the older sends both to the admin app |
| Variants.ExternalSchemaAgrees | mail-worker/src/service/user-service.js:40-49 | a body in the external schema alone (no truthy `from`, `to` or `content`) with a truthy `subject`, `htmlContent` and `attachments` yields the same envelope from both handlers except for the sender name |
| Variants.DefaultsDiffer | mail-worker/src/index.js:30-33 | a body without `subject`, `htmlContent`, `content`, `text` or `attachments` gets `No Subject`, `""` and `[]` from the newer handler and `undefined` for all three from the older |
| Variants.InternalUiExample | mail-worker/src/service/user-service.js:40-49 | `{from, to, content}` is sent with the default sender name, `No Subject` and an empty attachment list |

## Left out

- The `scheduled` handler: four awaited calls into services that are not part of this model, with no local logic.
- The `email` handler: its module is not part of this model.
- The network call to Brevo and `res.json()`: modelled only as the `relay` parameter's outcome, a status and parsed JSON or a thrown message.
- `URL` parsing and `req.json()`: the pathname and the parse outcome are inputs. The query string is not modelled.
- The admin app, `kvObjService.toObjResp` and `env.assets.fetch`: opaque delegates. The model records only the rewritten path or object key. It does not record the rebuilt request's method, headers, body or query.
- JSON serialisation: bodies are modelled as values, not as the text `JSON.stringify` produces. The fact that serialisation drops `undefined` fields is not modelled.
- JSON object key order and duplicate keys: objects are unordered maps, so the provider's key order, which re-serialising its answer keeps, is not modelled. A request body's duplicate keys are also not modelled.
- Headers: a finite map of the headers the handler sets itself. Case-insensitive lookup is not modelled, and neither is the default `Content-Type` the runtime adds to a string body.
- The request method: taken as the runtime reports it, already upper-cased.
- Numbers: unbounded reals. No JSON value is NaN.
- A thrown non-Error value, whose `message` would be `undefined`: every throw carries a string message.
- The text of the error the Response constructor throws for a status it rejects: it is a parameter (`rejected`) of the older handler.
- Async and Promise semantics, concurrency, and `ctx`.
