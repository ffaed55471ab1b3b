/**
 * The request handler of src/index.js:74-127 as the imperative code it is:
 * it drains the request stream into a list of chunks, sets the response's
 * status code and ends it, and calls the sender once. Each method is proved
 * against the function that specifies it in module Webhook.
 */
module Server {
  import opened Js
  import opened Utf8
  import opened Signature
  import opened Webhook

  /** An incoming request: fixed method, url and headers, and the body chunks not read yet. */
  class IncomingMessage {
    const verb: string
    const url: string
    const headers: map<string, string>
    var unread: seq<seq<byte>>

    constructor (verb: string, url: string, headers: map<string, string>, chunks: seq<seq<byte>>)
      ensures this.verb == verb && this.url == url && this.headers == headers && unread == chunks
    {
      this.verb, this.url, this.headers := verb, url, headers;
      unread := chunks;
    }

    /** The request as the specification sees it, with the chunks still to come. */
    function View(): Request
      reads this
    {
      Request(verb, url, headers, unread)
    }

    /** One step of `for await (const chunk of req)`: the next chunk, or None at the end of the body. */
    method Next() returns (chunk: Option<seq<byte>>)
      modifies this
      ensures old(unread) == [] ==> chunk == None && unread == []
      ensures old(unread) != [] ==> chunk == Some(old(unread)[0]) && unread == old(unread)[1..]
    {
      if unread == [] {
        chunk := None;
      } else {
        chunk := Some(unread[0]);
        unread := unread[1..];
      }
    }
  }

  /** Node's ServerResponse: the status code starts at 200 and `end` may be called once. */
  class ServerResponse {
    var statusCode: int
    var finished: bool
    var text: string

    constructor ()
      ensures statusCode == 200 && !finished && text == ""
    {
      statusCode, finished, text := 200, false, "";
    }

    /** The reply the client receives, or None while the response is open. */
    function Written(): Option<Reply>
      reads this
    {
      if finished then Some(Reply(statusCode, text)) else None
    }

    /** `res.end(body)`; a second call would be a programming error, so it is excluded. */
    method End(body: string)
      requires !finished
      modifies this
      ensures finished && text == body && statusCode == old(statusCode)
      ensures Written() == Some(Reply(old(statusCode), body))
    {
      finished, text := true, body;
    }
  }

  /** The chat API as seen by `sendToTelegram`: the texts it was asked to send, in order. */
  class ChatChannel {
    var outbox: seq<string>

    constructor ()
      ensures outbox == []
    {
      outbox := [];
    }

    /**
     * `await sendToTelegram(text)`: one attempt, whose result is `delivery`;
     * a non-ok answer is only logged, so just a failed call throws.
     */
    method SendToTelegram(message: string, delivery: Delivery) returns (threw: bool)
      modifies this
      ensures outbox == old(outbox) + [message]
      ensures threw <==> delivery.Failed?
    {
      outbox := outbox + [message];
      threw := delivery.Failed?;
    }
  }

  /** Reads the whole body, as src/index.js:82-83 do. */
  method ReadBody(req: IncomingMessage) returns (chunks: seq<seq<byte>>)
    modifies req
    ensures chunks == old(req.unread) && req.unread == []
  {
    chunks := [];
    while true
      invariant chunks + req.unread == old(req.unread)
      decreases |req.unread|
    {
      var chunk := req.Next();
      if chunk.None? {
        break;
      }
      chunks := chunks + [chunk.value];
    }
  }

  /**
   * The `try` block of src/index.js:81-122. A normal completion means the
   * block returned, having ended the response or not; a throw leaves the
   * response open for the `catch`.
   */
  method TryBody(rt: Runtime, cfg: Config, req: IncomingMessage, res: ServerResponse, channel: ChatChannel,
                 delivery: Delivery)
    returns (completion: Completion<()>)
    requires !res.finished
    modifies req, res, channel
    ensures var attempt := TryBlock(rt, cfg, old(req.View()), delivery);
      && (completion.Threw? <==> attempt.completion.Threw?)
      && (completion.Threw? ==> !res.finished)
      && (completion.Normal? ==> res.Written() == attempt.completion.value)
      && channel.outbox == old(channel.outbox) + attempt.sent
      && req.unread == []
  {
    var chunks := ReadBody(req);
    var rawBody := rt.decodeUtf8(Concat(chunks));

    if !Truthy(cfg.debug) {
      var signature := if "x-hub-signature-256" in req.headers then Some(req.headers["x-hub-signature-256"]) else None;
      if !IsValidSignature(rt.hmacHex, cfg.secret, rawBody, signature) {
        res.statusCode := 401;
        res.End("Invalid signature");
        return Normal(());
      }
    }

    var event := if "x-github-event" in req.headers then Some(req.headers["x-github-event"]) else None;
    var parsed := rt.parseJson(rawBody);
    if parsed.None? {
      return Threw;
    }
    var payload := parsed.value;

    var logged := GetProperty(payload, "action");
    if logged.Threw? {
      return Threw;
    }

    if event == Some("star") {
      var action := logged.value;
      if action != Str("created") && action != Str("deleted") {
        return Normal(());
      }
      var text := StarMessage(rt, payload, action.s);
      if text.Threw? {
        return Threw;
      }
      var threw := channel.SendToTelegram(text.value, delivery);
      if threw {
        return Threw;
      }
    }

    res.statusCode := 200;
    res.End("ok");
    completion := Normal(());
  }

  /** The request handler passed to `createServer`, src/index.js:74-127. */
  method Handle(rt: Runtime, cfg: Config, req: IncomingMessage, res: ServerResponse, channel: ChatChannel,
                delivery: Delivery)
    requires !res.finished
    modifies req, res, channel
    ensures var o := Dispatch(rt, cfg, old(req.View()), delivery);
      && res.Written() == o.response
      && channel.outbox == old(channel.outbox) + o.sent
      && req.unread == (if o.bodyRead then [] else old(req.unread))
  {
    if req.verb != "POST" || req.url != "/webhook" {
      res.statusCode := 404;
      res.End("Not found");
      return;
    }

    var completion := TryBody(rt, cfg, req, res, channel, delivery);
    if completion.Threw? {
      res.statusCode := 500;
      res.End("Server error");
    }
  }

  /**
   * One request as `createServer` serves it (src/index.js:74): Node makes a
   * fresh request and response object for it, and the chat channel sees the
   * handler's sends. Returns the reply written, if any, and the texts sent.
   */
  method Serve(rt: Runtime, cfg: Config, request: Request, delivery: Delivery)
    returns (reply: Option<Reply>, sent: seq<string>)
    ensures reply == Dispatch(rt, cfg, request, delivery).response
    ensures sent == Dispatch(rt, cfg, request, delivery).sent
  {
    var req := new IncomingMessage(request.verb, request.url, request.headers, request.chunks);
    var res := new ServerResponse();
    var channel := new ChatChannel();
    Handle(rt, cfg, req, res, channel, delivery);
    reply := res.Written();
    sent := channel.outbox;
  }
}
