/**
 * What the handler promises about one request, stated over Webhook.Dispatch.
 */
module WebhookProperties {
  import opened Js
  import opened Signature
  import opened Webhook

  /**
   * Off the `POST /webhook` route the reply is 404, the body stays unread and
   * nothing is sent; and 404 is the reply only off that route.
   */
  lemma NotFoundExactlyOffRoute(rt: Runtime, cfg: Config, req: Request, delivery: Delivery)
    ensures !IsWebhookRoute(req) ==> Dispatch(rt, cfg, req, delivery) == Outcome(Some(NotFound), [], false)
    ensures Dispatch(rt, cfg, req, delivery).response == Some(NotFound) <==> !IsWebhookRoute(req)
  {
  }

  /** Verification is skipped exactly when DEBUG is set to a non-empty string. */
  lemma VerificationSkippedExactly(env: map<string, string>, secret: string)
    ensures !VerificationActive(Config(secret, DebugSetting(env))) <==> "DEBUG" in env && env["DEBUG"] != ""
  {
  }

  /** In particular DEBUG=0 and DEBUG=false switch verification off. */
  lemma DebugZeroDisablesVerification(env: map<string, string>, secret: string)
    requires "DEBUG" in env && env["DEBUG"] in {"0", "false"}
    ensures !VerificationActive(Config(secret, DebugSetting(env)))
  {
  }

  /**
   * With verification on, a request to the route whose signature does not
   * check out gets 401 and nothing is sent; 401 is the reply only then.
   */
  lemma UnauthorizedExactly(rt: Runtime, cfg: Config, req: Request, delivery: Delivery)
    ensures
      var o := Dispatch(rt, cfg, req, delivery);
      o.response == Some(Unauthorized)
      <==>
      && IsWebhookRoute(req)
      && VerificationActive(cfg)
      && Header(req, "x-hub-signature-256") != Some(ExpectedSignature(rt.hmacHex, cfg.secret, RawBody(rt, req)))
    ensures
      Dispatch(rt, cfg, req, delivery).response == Some(Unauthorized) ==>
      Dispatch(rt, cfg, req, delivery) == Outcome(Some(Unauthorized), [], true)
  {
  }

  /** A rejected request is never parsed: its outcome does not depend on JSON.parse at all. */
  lemma UnauthorizedIgnoresParser(rt: Runtime, cfg: Config, req: Request, delivery: Delivery,
                                  parser: string -> Option<Value>)
    requires IsWebhookRoute(req) && !SignatureGatePasses(rt, cfg, req)
    ensures Dispatch(rt, cfg, req, delivery) == Dispatch(rt.(parseJson := parser), cfg, req, delivery)
    ensures Dispatch(rt, cfg, req, delivery) == Outcome(Some(Unauthorized), [], true)
  {
  }

  /** With DEBUG set to a non-empty string, even a request without any signature gets past the gate. */
  lemma DebugAcceptsUnsigned(rt: Runtime, secret: string, env: map<string, string>, req: Request,
                             delivery: Delivery)
    requires IsWebhookRoute(req) && "DEBUG" in env && env["DEBUG"] != ""
    requires "x-hub-signature-256" !in req.headers
    ensures Dispatch(rt, Config(secret, DebugSetting(env)), req, delivery).response != Some(Unauthorized)
  {
  }

  /** A body that is not JSON gives 500 and no send, whatever the event. */
  lemma MalformedJsonIsServerError(rt: Runtime, cfg: Config, req: Request, delivery: Delivery)
    requires IsWebhookRoute(req) && SignatureGatePasses(rt, cfg, req)
    requires rt.parseJson(RawBody(rt, req)) == None
    ensures Dispatch(rt, cfg, req, delivery) == Outcome(Some(ServerError), [], true)
  {
  }

  /**
   * The body `null` parses but makes the log line's `payload.action` throw:
   * 500 and no send, for every event.
   */
  lemma NullPayloadIsServerError(rt: Runtime, cfg: Config, req: Request, delivery: Delivery)
    requires IsWebhookRoute(req) && SignatureGatePasses(rt, cfg, req)
    requires rt.parseJson(RawBody(rt, req)) == Some(Null)
    ensures Dispatch(rt, cfg, req, delivery) == Outcome(Some(ServerError), [], true)
  {
  }

  /** A parsed, non-null payload of any event other than `star` is acknowledged and nothing is sent. */
  lemma OtherEventIsAcknowledged(rt: Runtime, cfg: Config, req: Request, delivery: Delivery, payload: Value)
    requires IsWebhookRoute(req) && SignatureGatePasses(rt, cfg, req)
    requires rt.parseJson(RawBody(rt, req)) == Some(payload) && !IsNullish(payload)
    requires Header(req, "x-github-event") != Some("star")
    ensures Dispatch(rt, cfg, req, delivery) == Outcome(Some(Acknowledged), [], true)
  {
  }

  /** A `star` event whose action is neither `created` nor `deleted` writes no reply and sends nothing. */
  lemma UnknownStarActionIsSilent(rt: Runtime, cfg: Config, req: Request, delivery: Delivery, payload: Value)
    requires IsWebhookRoute(req) && SignatureGatePasses(rt, cfg, req)
    requires rt.parseJson(RawBody(rt, req)) == Some(payload)
    requires Header(req, "x-github-event") == Some("star")
    requires GetProperty(payload, "action").Normal? && !IsStarAction(GetProperty(payload, "action").value)
    ensures Dispatch(rt, cfg, req, delivery) == Outcome(None, [], true)
  {
  }

  /** The request is left without any reply exactly in that case. */
  lemma NoReplyExactly(rt: Runtime, cfg: Config, req: Request, delivery: Delivery)
    ensures
      Dispatch(rt, cfg, req, delivery).response == None
      <==>
      && IsWebhookRoute(req) && SignatureGatePasses(rt, cfg, req)
      && rt.parseJson(RawBody(rt, req)).Some?
      && Header(req, "x-github-event") == Some("star")
      && GetProperty(rt.parseJson(RawBody(rt, req)).value, "action").Normal?
      && !IsStarAction(GetProperty(rt.parseJson(RawBody(rt, req)).value, "action").value)
  {
  }

  /**
   * A `created` or `deleted` star event whose message can be built is sent
   * exactly once; the reply is 200 unless the send throws, a non-ok answer
   * from the chat API included.
   */
  lemma StarEventIsSent(rt: Runtime, cfg: Config, req: Request, delivery: Delivery, payload: Value, text: string)
    requires IsWebhookRoute(req) && SignatureGatePasses(rt, cfg, req)
    requires rt.parseJson(RawBody(rt, req)) == Some(payload)
    requires Header(req, "x-github-event") == Some("star")
    requires GetProperty(payload, "action").Normal? && IsStarAction(GetProperty(payload, "action").value)
    requires StarMessage(rt, payload, GetProperty(payload, "action").value.s) == Normal(text)
    ensures Dispatch(rt, cfg, req, delivery)
         == Outcome(Some(if delivery.Failed? then ServerError else Acknowledged), [text], true)
  {
  }

  /** Something is sent exactly when a known star action got through every earlier step. */
  lemma SentExactly(rt: Runtime, cfg: Config, req: Request, delivery: Delivery)
    ensures
      Dispatch(rt, cfg, req, delivery).sent != []
      <==>
      && IsWebhookRoute(req) && SignatureGatePasses(rt, cfg, req)
      && rt.parseJson(RawBody(rt, req)).Some?
      && Header(req, "x-github-event") == Some("star")
      && GetProperty(rt.parseJson(RawBody(rt, req)).value, "action").Normal?
      && IsStarAction(GetProperty(rt.parseJson(RawBody(rt, req)).value, "action").value)
      && StarMessage(rt, rt.parseJson(RawBody(rt, req)).value,
                     GetProperty(rt.parseJson(RawBody(rt, req)).value, "action").value.s).Normal?
  {
  }

  /** A missing `repository`, `repository.owner` or `sender` makes building the message throw. */
  lemma MissingRecordThrows(rt: Runtime, payload: Value, action: string)
    requires !IsNullish(payload)
    requires
      var repository := GetProperty(payload, "repository").value;
      || IsNullish(repository)
      || IsNullish(GetProperty(repository, "owner").value)
      || IsNullish(GetProperty(payload, "sender").value)
    ensures StarMessage(rt, payload, action) == Threw
  {
  }

  /**
   * The `repo` text of any repository whose owner is present: the owner's
   * login and the repository's name, each converted as a template literal
   * converts it, joined by "/".
   */
  lemma RepoTextJoins(repository: Value, ownerText: string, nameText: string)
    requires !OwnerMissing(repository)
    requires ToJsString(GetProperty(GetProperty(repository, "owner").value, "login").value) == Normal(ownerText)
    requires ToJsString(GetProperty(repository, "name").value) == Normal(nameText)
    ensures RepoText(repository) == Normal(ownerText + "/" + nameText)
  {
  }

  /**
   * A missing `repository.name` does not throw: for any repository, whatever
   * other keys it has, the repo text ends in "/undefined".
   */
  lemma MissingNameIsUndefined(repository: Value, owner: string)
    requires !IsNullish(repository)
    requires !IsNullish(GetProperty(repository, "owner").value)
    requires GetProperty(GetProperty(repository, "owner").value, "login").value == Str(owner)
    requires GetProperty(repository, "name").value == Undefined
    ensures RepoText(repository) == Normal(owner + "/undefined")
  {
    RepoTextJoins(repository, owner, "undefined");
    assert owner + "/" + "undefined" == owner + "/undefined";
  }

  /**
   * Any payload whose repository, owner and sender are present and whose
   * owner login and repository name are strings: the message is the
   * `star.message` template filled with the action's emoji and prefix,
   * `owner/name`, and the sender's login and the star count as they are,
   * whatever other keys the payload carries and whatever values those two are.
   */
  lemma StarMessageText(rt: Runtime, payload: Value, action: string, owner: string, name: string)
    requires !IsNullish(payload)
    requires !IsNullish(GetProperty(payload, "repository").value)
    requires !IsNullish(GetProperty(GetProperty(payload, "repository").value, "owner").value)
    requires GetProperty(GetProperty(GetProperty(payload, "repository").value, "owner").value, "login").value == Str(owner)
    requires GetProperty(GetProperty(payload, "repository").value, "name").value == Str(name)
    requires !IsNullish(GetProperty(payload, "sender").value)
    ensures
      var repository := GetProperty(payload, "repository").value;
      var sender := GetProperty(payload, "sender").value;
      StarMessage(rt, payload, action)
      == Normal(rt.translate("star.message", StarFields(
        rt.translate("star.emoji." + action, map[]),
        rt.translate("star.prefix." + action, map[]),
        owner + "/" + name,
        GetProperty(sender, "login").value,
        GetProperty(repository, "stargazers_count").value)))
  {
  }

  /**
   * A `created` or `deleted` star event whose message throws (a missing
   * record, an unprintable login or name) gets 500 and nothing is sent.
   */
  lemma StarMessageThrowIsServerError(rt: Runtime, cfg: Config, req: Request, delivery: Delivery, payload: Value)
    requires IsWebhookRoute(req) && SignatureGatePasses(rt, cfg, req)
    requires rt.parseJson(RawBody(rt, req)) == Some(payload)
    requires Header(req, "x-github-event") == Some("star")
    requires GetProperty(payload, "action").Normal? && IsStarAction(GetProperty(payload, "action").value)
    requires StarMessage(rt, payload, GetProperty(payload, "action").value.s) == Threw
    ensures Dispatch(rt, cfg, req, delivery) == Outcome(Some(ServerError), [], true)
  {
  }

  /**
   * The example of a `created` star by torvalds on octocat/Hello-World with
   * 42 stars: the message is the `star.message` template filled with the
   * `created` emoji and prefix and the payload's fields.
   */
  lemma StarMessageExample(rt: Runtime)
    ensures
      StarMessage(rt, ExamplePayload(), "created")
      == Normal(rt.translate("star.message", StarFields(
        rt.translate("star.emoji.created", map[]),
        rt.translate("star.prefix.created", map[]),
        "octocat/Hello-World",
        Str("torvalds"),
        Num("42"))))
  {
    assert "star.emoji." + "created" == "star.emoji.created";
    assert "star.prefix." + "created" == "star.prefix.created";
    assert "octocat" + "/" + "Hello-World" == "octocat/Hello-World";
    var payload, repository := ExamplePayload(), ExampleRepository();
    var owner, sender := Obj(map["login" := Str("octocat")]), Obj(map["login" := Str("torvalds")]);
    assert GetProperty(payload, "repository") == Normal(repository);
    assert GetProperty(repository, "owner") == Normal(owner);
    assert GetProperty(repository, "name") == Normal(Str("Hello-World"));
    assert GetProperty(payload, "sender") == Normal(sender);
    assert GetProperty(sender, "login") == Normal(Str("torvalds"));
    assert GetProperty(repository, "stargazers_count") == Normal(Num("42"));
    var emoji, prefix := rt.translate("star.emoji.created", map[]), rt.translate("star.prefix.created", map[]);
    StarMessageText(rt, payload, "created", "octocat", "Hello-World");
    assert StarMessage(rt, payload, "created")
        == Normal(rt.translate("star.message", StarFields(emoji, prefix, "octocat" + "/" + "Hello-World", Str("torvalds"), Num("42"))));
  }

  function ExampleRepository(): Value {
    Obj(map[
      "owner" := Obj(map["login" := Str("octocat")]),
      "name" := Str("Hello-World"),
      "stargazers_count" := Num("42")])
  }

  function ExamplePayload(): Value {
    Obj(map[
      "action" := Str("created"),
      "repository" := ExampleRepository(),
      "sender" := Obj(map["login" := Str("torvalds")])])
  }
}
