# Mailchimp signup relay — a Dafny model

The repository is one serverless handler (`handler` in `mailchimp-signup.js`)
that takes a website signup form and relays it to Mailchimp. It answers CORS
preflights, refuses verbs other than POST, requires an email and two
environment variables (`MAILCHIMP_API_KEY`, `MAILCHIMP_LIST_ID`), and derives
the data centre from the API key (the part after the last `-`). It then
upserts the audience member with a PUT to
`https://<dc>.api.mailchimp.com/3.0/lists/<listId>/members/<md5(lower(email))>`.
A rejected upsert is relayed to the caller with the same status. An accepted
upsert is followed by a POST that adds the tag `Website Signup`, whose status
is ignored. Any throw becomes a 500.

The model is a pure function, `Signup.Handle`. Its inputs are:

- the request: method verb and optional body of optional string fields;
- the environment: two optional strings;
- the MD5 hex digest, as a function parameter;
- what the two remote calls came to.

It returns the response (status, explicitly set headers, JSON body or none)
and the list of outbound calls issued, in order.

Files:

- `wrappers.dfy`: `Option`.
- `json.dfy`: JSON values for the response bodies and the relayed remote body.
- `strings.dfy`: `split`/`join` on a one-character separator, the last
  segment (`split("-").pop()`), and ASCII lower-casing.
- `signup.dfy`: the request, environment, payload, call and response
  datatypes, and the handler.
- `signup_properties.dfy`: one lemma per branch and per remote outcome, and
  the facts about the member URL.

The handler reads the body key `brouchureDownload` (sic), so a form that
sends `brochureDownload` leaves merge field `MMERGE5` empty. The model keeps
that spelling.

The upsert outcome is modelled as "threw" or "responded with status `s` and a
body that parsed or did not". Whether the upsert succeeded is derived from
`s`, as `Response.ok` is: `200 <= s <= 299`.

## Model

| member | source | states |
|---|---|---|
| Strings.Split | mailchimp-signup.js:43 | `split` never returns an empty list; a single part is the whole string |
| Strings.JoinSplit | mailchimp-signup.js:43 | joining the parts of a split with the separator gives back the string |
| Strings.SplitJoin | mailchimp-signup.js:43 | splitting the join of a non-empty list of separator-free parts gives back the parts |
| Strings.SplitSeparatorFree | mailchimp-signup.js:43 | no part of a split contains the separator |
| Strings.LastSegment | mailchimp-signup.js:43 | `split(sep).pop()` has no separator, is a suffix of the string, is preceded by a separator unless it is the whole string, and is the whole string exactly when the string has no separator |
| Strings.LastSegmentUnique | mailchimp-signup.js:43 | at most one string is the text after the last separator |
| Strings.LastSegmentCharacterised | mailchimp-signup.js:43 | a string is the last segment in that sense if and only if it equals `split(sep).pop()` |
| Strings.Lower | mailchimp-signup.js:44 | `toLowerCase` leaves no upper-case letter, changes only the case of letters, and leaves a string without upper-case letters unchanged |
| Strings.LowerEqualIff | mailchimp-signup.js:44 | two strings lower-case to the same string if and only if they differ only in the case of letters |
| Signup.FormOf | mailchimp-signup.js:24-32 | `req.body \|\| {}`: a present body is read as it is; a missing body reads as a form with every field absent |
| Signup.SubscriberHash | mailchimp-signup.js:44 | an email without upper-case letters is hashed as it stands; every email is hashed as a lower-case string that differs from it only in letter case |
| Signup.SubscriberHashIgnoresCase | mailchimp-signup.js:44 | emails that differ only in letter case have the same subscriber hash |
| Signup.MemberUrl | mailchimp-signup.js:45 | the member URL starts with `https://<dc>.api.mailchimp.com/3.0/lists/<listId>` and ends with `/members/<hash>` |
| Signup.MemberUrlInjective | mailchimp-signup.js:45 | within one data centre and list, two member URLs are equal exactly when their subscriber hashes are |
| Signup.OrEmpty | mailchimp-signup.js:52-57 | `field \|\| ""` is the field when it is a non-empty string and `""` otherwise |
| Signup.DataCenter | mailchimp-signup.js:42-43 | the data centre has no `-`, is a suffix of the API key, and is the whole key exactly when the key has no `-` |
| Signup.BuildPayload | mailchimp-signup.js:47-59 | `email_address` is the email as submitted, `status_if_new` is `subscribed`, each merge field is its form field (`MMERGE5` from `brouchureDownload`) or `""` when absent or empty |
| Signup.Relay | mailchimp-signup.js:61-91 | the PUT is always issued first; the tag call is issued exactly when the upsert responded with a parsable body and a 2xx status; a 2xx answer is 200 and happens only after both calls |
| Signup.Handle | mailchimp-signup.js:11-92 | at most two calls; calls are issued exactly when every guard passes; two calls exactly when the upsert was accepted; the second is a POST to the first URL plus `/tags` with the same authorisation; no body and 204 exactly for OPTIONS; 200 exactly when the tag call returned |
| SignupProperties.PreflightAnswersWithCors | mailchimp-signup.js:13-17 | OPTIONS gets 204, no body, the three CORS headers, and no outbound call, whatever the body or environment |
| SignupProperties.OtherMethodsRefused | mailchimp-signup.js:20-22 | any verb other than OPTIONS or POST gets 405 `{error: "Method not allowed"}` and no call |
| SignupProperties.EmailCheckedFirst | mailchimp-signup.js:24-34 | a POST without a body, without an email or with an empty email gets 400 `{error: "Email required"}` whatever the environment |
| SignupProperties.EnvironmentChecked | mailchimp-signup.js:36-40 | with an email, a missing or empty API key or list id gets 500 `{error: "Mailchimp env vars not set"}` and no call |
| SignupProperties.GuardsIgnoreRemote | mailchimp-signup.js:13-40 | a request stopped by a guard issues no call and its answer does not depend on the digest or remote outcomes |
| SignupProperties.DataCenterOfRegionKey | mailchimp-signup.js:42-43 | a key `<token>-<region>` whose region has no `-` has data centre `<region>` |
| SignupProperties.UpsertCallShape | mailchimp-signup.js:43-70 | the first call is a PUT to `https://<dc>.api.mailchimp.com/3.0/lists/<listId>/members/<md5(lower(email))>` with `apikey <key>` and the payload built from the form |
| SignupProperties.RejectedUpsertRelayed | mailchimp-signup.js:72-75 | an upsert status outside 200-299 is relayed with `{error: <remote body>}` and only the PUT is issued |
| SignupProperties.AcceptedUpsertTagged | mailchimp-signup.js:77-87 | an accepted upsert is followed by exactly one POST to `<member URL>/tags` adding the active tag `Website Signup`; whatever its status, the answer is 200 `{success: true, data: <upsert body>}` |
| SignupProperties.TagStatusIgnored | mailchimp-signup.js:78-87 | the tag call's status never changes the answer or the calls |
| SignupProperties.ThrowsAnswerInternalError | mailchimp-signup.js:61-91 | a throw from the upsert, from parsing its body, or from the tag call gets 500 `{error: "Internal server error"}` |
| SignupProperties.EmailCaseDoesNotChangeMember | mailchimp-signup.js:44-45 | emails that differ only in letter case give the same URLs, the same merge fields and the same answer |

## Left out

- The real `fetch`, `res.status/json/end/setHeader` and `console.error` are I/O. Remote outcomes are inputs; the response and the issued calls are the result.
- MD5 (Node `crypto`) is a foreign library and is a function parameter of `Handle`. Only its argument, the lower-cased email, is modelled.
- JSON serialisation of the outbound payloads and the `Content-Type` headers on the outbound calls are not modelled. The payloads are datatypes.
- The implicit `Content-Type` header that `res.json` adds is not in the response's header list. The list holds only headers the handler sets itself.
- JavaScript truthiness of non-string body fields is not modelled. A numeric `email`, for example, would make `toLowerCase` throw outside the `try`. Every field is an optional string, and the empty string stands for every falsy value.
- Strings.Lower: lower-cases ASCII letters only, not the full Unicode mapping of `toLowerCase`.
- JSON numbers are exact rationals (`real`). The 64-bit floating-point precision of JavaScript numbers in a relayed remote body is not modelled; the handler passes that body through unchanged.
- The remote response's `status` is any integer. The range the HTTP layer guarantees is not modelled.
