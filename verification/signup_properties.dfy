/**
 * What the handler promises, one lemma per branch of its guard chain and
 * per outcome of the remote calls, plus the facts about the member URL.
 */
module SignupProperties {
  import opened Wrappers
  import opened JsonValues
  import Strings
  import opened Signup

  /** Two requests that are the same POST except for the submitted email. */
  predicate SameExceptEmail(req1: Request, req2: Request)
  {
    && req1.httpMethod == req2.httpMethod
    && req1.body.Some? && req2.body.Some?
    && req1.body.value.(email := req2.body.value.email) == req2.body.value
  }

  /** A preflight gets 204, no body and the three CORS headers, and
      nothing is sent upstream, whatever the body or the environment. */
  lemma PreflightAnswersWithCors(req: Request, env: Env, md5: string -> string,
                                 upsert: UpsertOutcome, tagged: TagOutcome)
    requires req.httpMethod == "OPTIONS"
    ensures Handle(req, env, md5, upsert, tagged) == Exchange(
      Response(204, [
        Header("Access-Control-Allow-Origin", "*"),
        Header("Access-Control-Allow-Methods", "POST, OPTIONS"),
        Header("Access-Control-Allow-Headers", "Content-Type")
      ], None),
      [])
  {
  }

  /** Any verb other than OPTIONS and POST is refused with 405. */
  lemma OtherMethodsRefused(req: Request, env: Env, md5: string -> string,
                            upsert: UpsertOutcome, tagged: TagOutcome)
    requires req.httpMethod != "OPTIONS" && req.httpMethod != "POST"
    ensures Handle(req, env, md5, upsert, tagged) ==
      Exchange(Response(405, [], Some(JObject([("error", JString("Method not allowed"))]))), [])
  {
  }

  /** A POST without a body, without an email or with an empty email gets
      400, even when the environment is not configured either. */
  lemma EmailCheckedFirst(req: Request, env: Env, md5: string -> string,
                          upsert: UpsertOutcome, tagged: TagOutcome)
    requires req.httpMethod == "POST"
    requires req.body.None? || req.body.value.email.None? || req.body.value.email == Some("")
    ensures Handle(req, env, md5, upsert, tagged) ==
      Exchange(Response(400, [], Some(JObject([("error", JString("Email required"))]))), [])
  {
  }

  /** With an email present, a missing or empty API key or list id gets 500
      and nothing is sent upstream. */
  lemma EnvironmentChecked(req: Request, env: Env, md5: string -> string,
                           upsert: UpsertOutcome, tagged: TagOutcome)
    requires req.httpMethod == "POST"
    requires req.body.Some? && req.body.value.email.Some? && req.body.value.email.value != ""
    requires env.apiKey.None? || env.apiKey == Some("") || env.listId.None? || env.listId == Some("")
    ensures Handle(req, env, md5, upsert, tagged) ==
      Exchange(Response(500, [], Some(JObject([("error", JString("Mailchimp env vars not set"))]))), [])
  {
  }

  /** A request that fails any guard never reaches the remote side: its
      result does not depend on the digest or on what the remote calls
      would have returned. */
  lemma GuardsIgnoreRemote(req: Request, env: Env,
                           md5: string -> string, upsert: UpsertOutcome, tagged: TagOutcome,
                           md5': string -> string, upsert': UpsertOutcome, tagged': TagOutcome)
    requires !ReachesRemote(req, env)
    ensures Handle(req, env, md5, upsert, tagged) == Handle(req, env, md5', upsert', tagged')
    ensures Handle(req, env, md5, upsert, tagged).calls == []
  {
  }

  /** The data centre of a key written `<token>-<region>` is `<region>`. */
  lemma DataCenterOfRegionKey(token: string, region: string)
    requires '-' !in region
    ensures DataCenter(token + "-" + region) == region
  {
    var key := token + "-" + region;
    assert key[|key| - |region|..] == region;
    assert key[|key| - |region| - 1] == '-';
    Strings.LastSegmentCharacterised(key, region, '-');
  }

  /** The upsert is a PUT, authorised by `apikey <key>`, to
      `https://<dc>.api.mailchimp.com/3.0/lists/<listId>/members/<md5(lower(email))>`,
      carrying the payload built from the form with the email as submitted. */
  lemma UpsertCallShape(req: Request, env: Env, md5: string -> string,
                        upsert: UpsertOutcome, tagged: TagOutcome)
    requires ReachesRemote(req, env)
    ensures var x := Handle(req, env, md5, upsert, tagged);
      var key := env.apiKey.value;
      var email := req.body.value.email.value;
      && x.calls != []
      && x.calls[0] == Call(
        "PUT",
        "https://" + Strings.LastSegment(key, '-') + ".api.mailchimp.com/3.0/lists/"
          + env.listId.value + "/members/" + md5(Strings.Lower(email)),
        "apikey " + key,
        UpsertBody(BuildPayload(email, req.body.value)))
      && x.calls[0].body.payload.emailAddress == email
  {
  }

  /** A rejected upsert (a status outside 200-299 with a readable body) is
      relayed as that status with the body under `error`; only the PUT was
      issued. */
  lemma RejectedUpsertRelayed(req: Request, env: Env, md5: string -> string,
                              status: int, data: Json, tagged: TagOutcome)
    requires ReachesRemote(req, env)
    requires !(200 <= status <= 299)
    ensures var x := Handle(req, env, md5, UpsertResponded(status, Some(data)), tagged);
      && x.response == Response(status, [], Some(JObject([("error", data)])))
      && |x.calls| == 1
      && x.calls[0].verb == "PUT"
  {
  }

  /** An accepted upsert is followed by exactly one POST to the member's
      `/tags` resource adding the active tag `Website Signup`; once that call
      returns, with any status, the answer is 200 with the upsert's body. */
  lemma AcceptedUpsertTagged(req: Request, env: Env, md5: string -> string,
                             status: int, data: Json, tagStatus: int)
    requires ReachesRemote(req, env)
    requires 200 <= status <= 299
    ensures var x := Handle(req, env, md5, UpsertResponded(status, Some(data)), TagResponded(tagStatus));
      && x.response == Response(200, [], Some(JObject([("success", JBool(true)), ("data", data)])))
      && |x.calls| == 2
      && x.calls[1] == Call("POST", x.calls[0].url + "/tags", x.calls[0].authorization,
                            TagsBody([Tag("Website Signup", "active")]))
  {
  }

  /** The tag call's status never changes anything. */
  lemma TagStatusIgnored(req: Request, env: Env, md5: string -> string,
                         upsert: UpsertOutcome, s1: int, s2: int)
    ensures Handle(req, env, md5, upsert, TagResponded(s1)) == Handle(req, env, md5, upsert, TagResponded(s2))
  {
  }

  /** A throw from the upsert call, from reading its body, or from the tag
      call ends in 500 `Internal server error`. */
  lemma ThrowsAnswerInternalError(req: Request, env: Env, md5: string -> string,
                                  upsert: UpsertOutcome, tagged: TagOutcome)
    requires ReachesRemote(req, env)
    requires || upsert.UpsertThrows?
             || (upsert.UpsertResponded? && upsert.body.None?)
             || (upsert.UpsertResponded? && 200 <= upsert.status <= 299 && tagged.TagThrows?)
    ensures Handle(req, env, md5, upsert, tagged).response ==
      Response(500, [], Some(JObject([("error", JString("Internal server error"))])))
  {
  }

  /** Emails that differ only in letter case address the same member: the
      same calls go to the same URLs and the answer is the same. Only the
      `email_address` in the upsert payload keeps the submitted spelling. */
  lemma EmailCaseDoesNotChangeMember(req1: Request, req2: Request, env: Env, md5: string -> string,
                                     upsert: UpsertOutcome, tagged: TagOutcome)
    requires SameExceptEmail(req1, req2)
    requires ReachesRemote(req1, env)
    requires req2.body.value.email.Some?
    requires Strings.SameIgnoringCase(req1.body.value.email.value, req2.body.value.email.value)
    ensures var x1 := Handle(req1, env, md5, upsert, tagged);
      var x2 := Handle(req2, env, md5, upsert, tagged);
      && x1.response == x2.response
      && |x1.calls| == |x2.calls|
      && (forall i :: 0 <= i < |x1.calls| ==> x1.calls[i].url == x2.calls[i].url)
      && x1.calls[0].body.payload.mergeFields == x2.calls[0].body.payload.mergeFields
  {
    var e1 := req1.body.value.email.value;
    var e2 := req2.body.value.email.value;
    Strings.LowerEqualIff(e1, e2);
    assert SubscriberHash(md5, e1) == SubscriberHash(md5, e2);
  }
}
