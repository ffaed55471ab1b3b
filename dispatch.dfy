/**
 * What the `createServer` request handler (src/index.js:74-127) does with one
 * request, as a function of the request, the configuration, the outside
 * services and the outcome of the one chat-API call.
 */
module Webhook {
  import opened Js
  import opened Utf8
  import opened Signature

  /** A request as the handler sees it: its method (`verb`), url, headers (Node lower-cases their names) and body chunks. */
  datatype Request = Request(verb: string, url: string, headers: map<string, string>, chunks: seq<seq<byte>>)

  /**
   * The services the handler calls but this model does not define:
   * decoding the buffered body (`Buffer.toString('utf8')`), the hex HMAC
   * digest, JSON.parse (None for a SyntaxError) and i18next's `t`.
   */
  datatype Runtime = Runtime(
    decodeUtf8: seq<byte> -> string,
    hmacHex: (string, string) -> string,
    parseJson: string -> Option<Value>,
    translate: (string, map<string, Value>) -> string)

  /** WEBHOOK_SECRET and the value of DEBUG after the defaulting at src/index.js:18. */
  datatype Config = Config(secret: string, debug: Value)

  /**
   * What the `await sendToTelegram(text)` call does: the API accepts the
   * message, answers with a non-ok status (only logged), or the call throws
   * (a failed fetch or a failed read of the error body).
   */
  datatype Delivery = Accepted | Refused(status: int) | Failed

  datatype Reply = Reply(status: int, text: string)

  const NotFound := Reply(404, "Not found")
  const Unauthorized := Reply(401, "Invalid signature")
  const Acknowledged := Reply(200, "ok")
  const ServerError := Reply(500, "Server error")

  /**
   * The reply written, if any; the texts handed to the sender; whether the
   * body was read.
   */
  datatype Outcome = Outcome(response: Option<Reply>, sent: seq<string>, bodyRead: bool)

  /** How the `try` block ends: the texts sent so far and a reply, no reply, or a throw. */
  datatype Attempt = Attempt(sent: seq<string>, completion: Completion<Option<Reply>>)

  /** `DEBUG` as destructured from process.env, where every value is a string. */
  function DebugSetting(env: map<string, string>): (v: Value)
    ensures Truthy(v) <==> "DEBUG" in env && env["DEBUG"] != ""
  {
    if "DEBUG" in env then Str(env["DEBUG"]) else Num("0")
  }

  predicate VerificationActive(cfg: Config) {
    !Truthy(cfg.debug)
  }

  predicate IsWebhookRoute(req: Request) {
    req.verb == "POST" && req.url == "/webhook"
  }

  function Header(req: Request, name: string): Option<string> {
    if name in req.headers then Some(req.headers[name]) else None
  }

  /** Buffer.concat. */
  function Concat(chunks: seq<seq<byte>>): (body: seq<byte>)
    ensures body == [] <==> forall k :: 0 <= k < |chunks| ==> chunks[k] == []
    ensures chunks != [] ==> |chunks[0]| <= |body| && body[..|chunks[0]|] == chunks[0]
  {
    if chunks == [] then [] else chunks[0] + Concat(chunks[1..])
  }

  /** Concatenating one more chunk appends its bytes: Buffer.concat over pushed chunks. */
  lemma {:induction false} ConcatAppend(chunks: seq<seq<byte>>, chunk: seq<byte>)
    ensures Concat(chunks + [chunk]) == Concat(chunks) + chunk
  {
    if chunks != [] {
      assert (chunks + [chunk])[1..] == chunks[1..] + [chunk];
      ConcatAppend(chunks[1..], chunk);
    }
  }

  function RawBody(rt: Runtime, req: Request): string {
    rt.decodeUtf8(Concat(req.chunks))
  }

  predicate SignatureGatePasses(rt: Runtime, cfg: Config, req: Request)
    ensures SignatureGatePasses(rt, cfg, req)
        <==> !VerificationActive(cfg)
             || Header(req, "x-hub-signature-256") == Some(ExpectedSignature(rt.hmacHex, cfg.secret, RawBody(rt, req)))
  {
    !VerificationActive(cfg)
    || IsValidSignature(rt.hmacHex, cfg.secret, RawBody(rt, req), Header(req, "x-hub-signature-256"))
  }

  /**
   * `${owner.login}` or `${repository.name}` throws: the value is an array or
   * object whose conversion throws.
   */
  predicate FieldUnprintable(holder: Value, key: string)
    requires !IsNullish(holder)
  {
    ConversionThrows(GetProperty(holder, key).value)
  }

  /**
   * Reading `repository.owner.login` throws: `repository` or its `owner` is
   * missing (null or undefined).
   */
  predicate OwnerMissing(repository: Value) {
    IsNullish(repository) || IsNullish(GetProperty(repository, "owner").value)
  }

  /** The `repo` text of src/index.js:103, `${repository.owner.login}/${repository.name}`. */
  function RepoText(repository: Value): (r: Completion<string>)
    ensures r.Threw? <==>
      || OwnerMissing(repository)
      || FieldUnprintable(GetProperty(repository, "owner").value, "login")
      || FieldUnprintable(repository, "name")
  {
    var owner :- GetProperty(repository, "owner");
    var login :- GetProperty(owner, "login");
    var ownerText :- ToJsString(login);
    // `repository` is not nullish here, so reading `name` cannot throw
    var nameText :- ToJsString(GetProperty(repository, "name").value);
    Normal(ownerText + "/" + nameText)
  }

  /**
   * The message of src/index.js:103-116 for an action already known to be
   * `created` or `deleted`. It throws exactly when `repository`, its `owner`
   * or `sender` is missing, or when the owner's login or the repository's name
   * cannot be converted to a string.
   */
  function StarMessage(rt: Runtime, payload: Value, action: string): (r: Completion<string>)
    ensures IsNullish(payload) ==> r.Threw?
    ensures !IsNullish(payload) ==>
      var repository := GetProperty(payload, "repository").value;
      (r.Threw? <==> RepoText(repository).Threw? || IsNullish(GetProperty(payload, "sender").value))
  {
    var repository :- GetProperty(payload, "repository");
    var repo :- RepoText(repository);
    // `payload` is not nullish here, so reading `sender` cannot throw
    var sender := GetProperty(payload, "sender").value;
    var starrer :- GetProperty(sender, "login");
    var count := GetProperty(repository, "stargazers_count").value;
    var emoji := rt.translate("star.emoji." + action, map[]);
    var prefix := rt.translate("star.prefix." + action, map[]);
    Normal(rt.translate("star.message", StarFields(emoji, prefix, repo, starrer, count)))
  }

  /** The interpolation values of src/index.js:110-116. */
  function StarFields(emoji: string, prefix: string, repo: string, starrer: Value, count: Value): map<string, Value> {
    map["emoji" := Str(emoji), "prefix" := Str(prefix), "repo" := Str(repo), "starrer" := starrer, "count" := count]
  }

  predicate IsStarAction(action: Value) {
    action == Str("created") || action == Str("deleted")
  }

  /** src/index.js:95-122, once the signature gate has passed. */
  function HandleEvent(rt: Runtime, event: Option<string>, rawBody: string, delivery: Delivery): (a: Attempt)
    ensures rt.parseJson(rawBody).None? ==> a == Attempt([], Threw)
    ensures |a.sent| <= 1
    ensures a.sent != [] ==> event == Some("star")
    ensures a.completion.Normal? ==> a.completion.value in {None, Some(Acknowledged)}
    ensures a.completion == Normal(None) ==> event == Some("star") && a.sent == []
  {
    match rt.parseJson(rawBody)
    case None => Attempt([], Threw)
    case Some(payload) =>
      // the log line at src/index.js:98 already reads payload.action
      match GetProperty(payload, "action")
      case Threw => Attempt([], Threw)
      case Normal(action) =>
        if event != Some("star") then Attempt([], Normal(Some(Acknowledged)))
        else if !IsStarAction(action) then Attempt([], Normal(None))
        else
          match StarMessage(rt, payload, action.s)
          case Threw => Attempt([], Threw)
          case Normal(text) =>
            if delivery.Failed? then Attempt([text], Threw)
            else Attempt([text], Normal(Some(Acknowledged)))
  }

  /** The `try` block, src/index.js:82-122. */
  function TryBlock(rt: Runtime, cfg: Config, req: Request, delivery: Delivery): (a: Attempt)
    ensures a.completion == Normal(Some(Unauthorized)) <==> !SignatureGatePasses(rt, cfg, req)
    ensures !SignatureGatePasses(rt, cfg, req) ==> a.sent == []
  {
    if !SignatureGatePasses(rt, cfg, req) then Attempt([], Normal(Some(Unauthorized)))
    else HandleEvent(rt, Header(req, "x-github-event"), RawBody(rt, req), delivery)
  }

  /** The whole handler, src/index.js:74-127. */
  function Dispatch(rt: Runtime, cfg: Config, req: Request, delivery: Delivery): (o: Outcome)
    ensures |o.sent| <= 1
    ensures o.response.Some? ==> o.response.value in {NotFound, Unauthorized, Acknowledged, ServerError}
    ensures o.bodyRead <==> o.response != Some(NotFound)
    ensures o.sent != [] ==> o.response == Some(Acknowledged) || o.response == Some(ServerError)
  {
    if !IsWebhookRoute(req) then Outcome(Some(NotFound), [], false)
    else
      var attempt := TryBlock(rt, cfg, req, delivery);
      var response := match attempt.completion
        case Threw => Some(ServerError)
        case Normal(reply) => reply;
      Outcome(response, attempt.sent, true)
  }
}
