/**
 * The signup relay: one serverless handler that turns a website signup form
 * into an upsert of a Mailchimp audience member followed by a tag call, and
 * relays the outcome as the HTTP response.
 *
 * The handler is modelled as the pure function `Handle`. Everything it would
 * learn from the outside world is an input: the request, the two environment
 * variables, the MD5 hex digest (a function parameter) and what the two
 * remote calls came back with. Everything it does to the outside world is in
 * its result: the response it sends and the list of outbound calls it issued.
 */
module Signup {
  import opened Wrappers
  import opened JsonValues
  import Strings

  /** The fields destructured from the request body. The brochure field keeps
      the body key's spelling, `brouchureDownload`, because that is the key
      the handler reads. Every field is optional; the empty string stands for
      every falsy value. */
  datatype Form = Form(
    email: Option<string>,
    firstName: Option<string>,
    lastName: Option<string>,
    phone: Option<string>,
    brouchureDownload: Option<string>,
    contactMethod: Option<string>,
    interestedVenue: Option<string>)

  /** An inbound request: its method verb and its parsed body, if any. */
  datatype Request = Request(httpMethod: string, body: Option<Form>)

  /** The two environment variables `MAILCHIMP_API_KEY` and `MAILCHIMP_LIST_ID`. */
  datatype Env = Env(apiKey: Option<string>, listId: Option<string>)

  /** The six merge fields of the audience member. */
  datatype MergeFields = MergeFields(
    fname: string,
    lname: string,
    phone: string,
    mmerge5: string,
    mmerge6: string,
    mmerge7: string)

  /** The body of the upsert call: `email_address`, `status_if_new`, `merge_fields`. */
  datatype Payload = Payload(emailAddress: string, statusIfNew: string, mergeFields: MergeFields)

  datatype Tag = Tag(name: string, status: string)

  datatype CallBody = UpsertBody(payload: Payload) | TagsBody(tags: seq<Tag>)

  /** One outbound HTTP call: verb, URL, `Authorization` header value, body.
      The `Content-Type` header, identical on both calls, is not recorded. */
  datatype Call = Call(verb: string, url: string, authorization: string, body: CallBody)

  /** What the upsert `fetch` came to: it threw, or it gave a response whose
      status is `status` and whose `json()` gave `body` (`None` when reading
      the body as JSON threw). */
  datatype UpsertOutcome = UpsertThrows | UpsertResponded(status: int, body: Option<Json>)

  /** What the tag `fetch` came to. Its response body is never read. */
  datatype TagOutcome = TagThrows | TagResponded(status: int)

  datatype Header = Header(name: string, value: string)

  /** The response sent: status, headers the handler set explicitly, and the
      JSON body (`None` for the empty body of `res.end()`). */
  datatype Response = Response(status: int, headers: seq<Header>, body: Option<Json>)

  /** The observable result of one invocation. */
  datatype Exchange = Exchange(response: Response, calls: seq<Call>)

  const CorsHeaders: seq<Header> := [
    Header("Access-Control-Allow-Origin", "*"),
    Header("Access-Control-Allow-Methods", "POST, OPTIONS"),
    Header("Access-Control-Allow-Headers", "Content-Type")
  ]

  const TagName: string := "Website Signup"

  /** JavaScript truthiness of an optional string field. */
  predicate Truthy(o: Option<string>)
  {
    o.Some? && o.value != ""
  }

  /** `field || ""`. */
  function OrEmpty(o: Option<string>): (r: string)
    ensures Truthy(o) ==> r == o.value
    ensures !Truthy(o) ==> r == ""
  {
    o.GetOr("")
  }

  /** `req.body || {}`: a missing body reads as a body with no fields. */
  function FormOf(req: Request): (form: Form)
    ensures req.body.Some? ==> form == req.body.value
    ensures req.body.None? ==>
      && form.email.None? && form.firstName.None? && form.lastName.None? && form.phone.None?
      && form.brouchureDownload.None? && form.contactMethod.None? && form.interestedVenue.None?
  {
    req.body.GetOr(Form(None, None, None, None, None, None, None))
  }

  /** `fetch`'s `Response.ok`: a status in the range 200 to 299. */
  predicate IsOkStatus(status: int)
  {
    200 <= status <= 299
  }

  function ErrorBody(message: string): Json
  {
    JObject([("error", JString(message))])
  }

  function RelayBody(data: Json): Json
  {
    JObject([("error", data)])
  }

  function SuccessBody(data: Json): Json
  {
    JObject([("success", JBool(true)), ("data", data)])
  }

  function JsonResponse(status: int, body: Json): Response
  {
    Response(status, [], Some(body))
  }

  const PreflightResponse: Response := Response(204, CorsHeaders, None)
  const MethodNotAllowed: Response := JsonResponse(405, ErrorBody("Method not allowed"))
  const EmailRequired: Response := JsonResponse(400, ErrorBody("Email required"))
  const EnvVarsNotSet: Response := JsonResponse(500, ErrorBody("Mailchimp env vars not set"))
  const InternalError: Response := JsonResponse(500, ErrorBody("Internal server error"))

  /** The Mailchimp data centre: the part of the API key after its last `-`,
      as `apiKey.split("-").pop()`. */
  function DataCenter(apiKey: string): (dc: string)
    ensures Strings.IsLastSegment(apiKey, dc, '-')
    ensures '-' !in dc
    ensures |dc| <= |apiKey| && apiKey[|apiKey| - |dc|..] == dc
    ensures dc == apiKey <==> '-' !in apiKey
  {
    Strings.LastSegment(apiKey, '-')
  }

  /** The subscriber hash: the MD5 hex digest of the lower-cased email.
      An email with no upper-case letter is hashed as it stands, and every
      email is hashed as some string without upper-case letters that differs
      from it only in letter case. */
  function SubscriberHash(md5: string -> string, email: string): (h: string)
    ensures Strings.NoUpper(email) ==> h == md5(email)
    ensures exists e :: Strings.NoUpper(e) && Strings.SameIgnoringCase(email, e) && h == md5(e)
  {
    var lowered := Strings.Lower(email);
    md5(lowered)
  }

  /** Emails that differ only in letter case have the same subscriber hash. */
  lemma SubscriberHashIgnoresCase(md5: string -> string, e1: string, e2: string)
    requires Strings.SameIgnoringCase(e1, e2)
    ensures SubscriberHash(md5, e1) == SubscriberHash(md5, e2)
  {
    Strings.LowerEqualIff(e1, e2);
  }

  const UrlScheme: string := "https://"
  const UrlHostAndPath: string := ".api.mailchimp.com/3.0/lists/"
  const UrlMembers: string := "/members/"

  /** The audience member resource the upsert is sent to: it starts with
      the data centre's API host and the list's path, and ends with the
      member segment holding the subscriber hash. */
  function MemberUrl(dc: string, listId: string, hash: string): (url: string)
    ensures var host := UrlScheme + dc + UrlHostAndPath + listId;
      |host| <= |url| && url[..|host|] == host
    ensures var member := UrlMembers + hash;
      |member| <= |url| && url[|url| - |member|..] == member
  {
    UrlScheme + dc + UrlHostAndPath + listId + UrlMembers + hash
  }

  /** Within one list of one data centre, member URLs and subscriber hashes
      determine each other. */
  lemma MemberUrlInjective(dc: string, listId: string, h1: string, h2: string)
    ensures MemberUrl(dc, listId, h1) == MemberUrl(dc, listId, h2) <==> h1 == h2
  {
    var prefix := UrlScheme + dc + UrlHostAndPath + listId + UrlMembers;
    assert MemberUrl(dc, listId, h1) == prefix + h1;
    assert MemberUrl(dc, listId, h2) == prefix + h2;
    if prefix + h1 == prefix + h2 {
      assert h1 == (prefix + h1)[|prefix|..];
      assert h2 == (prefix + h2)[|prefix|..];
    }
  }

  /** The upsert body built from the form; `email` is the address exactly as
      submitted, not lower-cased. */
  function BuildPayload(email: string, form: Form): (p: Payload)
    ensures p.emailAddress == email
    ensures p.statusIfNew == "subscribed"
    ensures Truthy(form.firstName) ==> p.mergeFields.fname == form.firstName.value
    ensures !Truthy(form.firstName) ==> p.mergeFields.fname == ""
    ensures Truthy(form.lastName) ==> p.mergeFields.lname == form.lastName.value
    ensures !Truthy(form.lastName) ==> p.mergeFields.lname == ""
    ensures Truthy(form.phone) ==> p.mergeFields.phone == form.phone.value
    ensures !Truthy(form.phone) ==> p.mergeFields.phone == ""
    ensures Truthy(form.brouchureDownload) ==> p.mergeFields.mmerge5 == form.brouchureDownload.value
    ensures !Truthy(form.brouchureDownload) ==> p.mergeFields.mmerge5 == ""
    ensures Truthy(form.contactMethod) ==> p.mergeFields.mmerge6 == form.contactMethod.value
    ensures !Truthy(form.contactMethod) ==> p.mergeFields.mmerge6 == ""
    ensures Truthy(form.interestedVenue) ==> p.mergeFields.mmerge7 == form.interestedVenue.value
    ensures !Truthy(form.interestedVenue) ==> p.mergeFields.mmerge7 == ""
  {
    Payload(email, "subscribed", MergeFields(
      OrEmpty(form.firstName),
      OrEmpty(form.lastName),
      OrEmpty(form.phone),
      OrEmpty(form.brouchureDownload),
      OrEmpty(form.contactMethod),
      OrEmpty(form.interestedVenue)))
  }

  function Authorization(apiKey: string): string
  {
    "apikey " + apiKey
  }

  function UpsertCall(url: string, apiKey: string, payload: Payload): Call
  {
    Call("PUT", url, Authorization(apiKey), UpsertBody(payload))
  }

  function TagCall(url: string, apiKey: string): Call
  {
    Call("POST", url + "/tags", Authorization(apiKey), TagsBody([Tag(TagName, "active")]))
  }

  /** The `try` block: issue the upsert, relay a rejection, otherwise issue
      the tag call and report success whatever the tag status was. Any throw
      ends in a 500 with the calls issued so far. */
  function Relay(put: Call, tag: Call, upsert: UpsertOutcome, tagged: TagOutcome): (x: Exchange)
    ensures 1 <= |x.calls| <= 2 && x.calls[0] == put
    ensures |x.calls| == 2 <==> upsert.UpsertResponded? && upsert.body.Some? && IsOkStatus(upsert.status)
    ensures |x.calls| == 2 ==> x.calls[1] == tag
    ensures IsOkStatus(x.response.status) <==> |x.calls| == 2 && tagged.TagResponded?
    ensures IsOkStatus(x.response.status) ==> x.response.status == 200
  {
    match upsert
    case UpsertThrows => Exchange(InternalError, [put])
    case UpsertResponded(status, body) =>
      if body.None? then Exchange(InternalError, [put])
      else if !IsOkStatus(status) then Exchange(JsonResponse(status, RelayBody(body.value)), [put])
      else
        match tagged
        case TagThrows => Exchange(InternalError, [put, tag])
        case TagResponded(_) => Exchange(JsonResponse(200, SuccessBody(body.value)), [put, tag])
  }

  /** The request gets past every guard and reaches the remote calls. */
  predicate ReachesRemote(req: Request, env: Env)
  {
    && req.httpMethod == "POST"
    && Truthy(FormOf(req).email)
    && Truthy(env.apiKey)
    && Truthy(env.listId)
  }

  /** The handler. */
  function Handle(req: Request, env: Env, md5: string -> string,
                  upsert: UpsertOutcome, tagged: TagOutcome): (x: Exchange)
    ensures |x.calls| <= 2
    ensures x.calls != [] <==> ReachesRemote(req, env)
    ensures |x.calls| == 2 <==>
      ReachesRemote(req, env) && upsert.UpsertResponded? && upsert.body.Some? && IsOkStatus(upsert.status)
    ensures x.calls != [] ==> x.calls[0].verb == "PUT" && x.calls[0].body.UpsertBody?
    ensures |x.calls| == 2 ==>
      && x.calls[1].verb == "POST"
      && x.calls[1].url == x.calls[0].url + "/tags"
      && x.calls[1].authorization == x.calls[0].authorization
    ensures x.response.body.None? <==> req.httpMethod == "OPTIONS"
    ensures x.response.status == 204 <==> req.httpMethod == "OPTIONS"
    ensures x.response.status == 200 <==> |x.calls| == 2 && tagged.TagResponded?
  {
    if req.httpMethod == "OPTIONS" then
      Exchange(PreflightResponse, [])
    else if req.httpMethod != "POST" then
      Exchange(MethodNotAllowed, [])
    else
      var form := FormOf(req);
      if !Truthy(form.email) then
        Exchange(EmailRequired, [])
      else if !Truthy(env.apiKey) || !Truthy(env.listId) then
        Exchange(EnvVarsNotSet, [])
      else
        var email := form.email.value;
        var apiKey := env.apiKey.value;
        var url := MemberUrl(DataCenter(apiKey), env.listId.value, SubscriberHash(md5, email));
        Relay(UpsertCall(url, apiKey, BuildPayload(email, form)), TagCall(url, apiKey), upsert, tagged)
  }
}
