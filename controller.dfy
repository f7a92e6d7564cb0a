/** The controller object: what each webhook callback sends through `callSendAPI` (an outbox)
    and which asynchronous calls it starts (a request log). */
module Messenger {
  import opened Wrappers
  import opened Events
  import opened Commands
  import opened SendApi
  import opened Webhook
  import opened Strings

  /** An asynchronous call a handler starts and whose completion is outside this model. */
  datatype Request =
    | FindUser(senderId: string, handler: nat, params: seq<string>)  // `getUser()` of a gated handler
    | QuoteData(senderId: string, stockName: string)                 // the brokerage quote of `price of`
    | NewsScore(senderId: string, stockName: string)                 // the news score of `news of`

  /** What handling something sends and starts, in order. */
  datatype Reaction = Reaction(replies: seq<OutboundMessage>, requests: seq<Request>) {
    function Then(next: Reaction): Reaction {
      Reaction(replies + next.replies, requests + next.requests)
    }
  }

  const Quiet := Reaction([], [])

  /** The action of a handler without a user lookup, applied to that handler's captures: a
      text reply, an image, or a quote or news call. */
  function ActionReaction(serverUrl: string, senderId: string, action: Action, params: seq<string>): (r: Reaction)
    requires !IsTrading(action) && |params| == ParamCount(action)
    ensures |r.replies| + |r.requests| == 1
    ensures r.requests != [] <==> action.PriceOf? || action.NewsOf?
    ensures forall q :: q in r.requests ==> !q.FindUser?
  {
    match action
    case ShowStocks => Reaction([TextMessage(senderId, StocksMessage())], [])
    case PriceOf => Reaction([], [QuoteData(senderId, params[0])])
    case ShowHelp => Reaction([TextMessage(senderId, HelpMessage())], [])
    case NewsOf => Reaction([], [NewsScore(senderId, params[0])])
    case Visualize => Reaction([ImageMessage(serverUrl, senderId)], [])
    case _ => assert false; Quiet
  }

  /** A routed handler: a gated one (0-5) starts the user lookup with its captures and sends
      nothing; an ungated one runs its action on them. */
  function HandlerReaction(serverUrl: string, senderId: string, i: nat, params: seq<string>): (r: Reaction)
    requires i < |Handlers| && |params| == Arity(Handlers[i].command)
    ensures |r.replies| + |r.requests| == 1
    ensures i < 6 ==> r == Reaction([], [FindUser(senderId, i, params)])
    ensures i >= 6 ==> forall q :: q in r.requests ==> !q.FindUser?
  {
    GatedHandlers(i);
    if Handlers[i].getsUser then Reaction([], [FindUser(senderId, i, params)])
    else
      ArityAgrees(i);
      ActionReaction(serverUrl, senderId, Handlers[i].action, params)
  }

  /** `receivedMessage`: "Ha?" without text; the routed handler's reaction; the fallback text when
      nothing matches. Every message has exactly one effect, a single reply or a single
      asynchronous call, and only a gated handler looks the user up. */
  function MessageReaction(serverUrl: string, senderId: string, text: Option<string>): (r: Reaction)
    ensures |r.replies| + |r.requests| == 1
    ensures Route(text).Run? && Route(text).index < 6 ==>
              r == Reaction([], [FindUser(senderId, Route(text).index, Route(text).params)])
    ensures !(Route(text).Run? && Route(text).index < 6) ==> forall q :: q in r.requests ==> !q.FindUser?
  {
    match Route(text)
    case NoText => Reaction([TextMessage(senderId, "Ha?")], [])
    case Unsupported(t) => Reaction([TextMessage(senderId, FallbackText(t))], [])
    case Run(i, params) => HandlerReaction(serverUrl, senderId, i, params)
  }

  /** One messaging event, handled by the handler its first present field selects. Only
      authentication, message and postback events send anything, and only message events start
      asynchronous calls. */
  function EventReaction(serverUrl: string, e: MessagingEvent): (r: Reaction)
    ensures r.replies != [] ==>
              Classify(e) == Authentication || Classify(e) == MessageReceived || Classify(e) == PostbackReceived
    ensures r.requests != [] ==> Classify(e) == MessageReceived
    ensures Classify(e) == Authentication ==> r == Reaction([TextMessage(e.senderId, "Authentication successful")], [])
    ensures Classify(e) == PostbackReceived ==> r == Reaction([TextMessage(e.senderId, "Postback called")], [])
    ensures Classify(e) == MessageReceived ==> |r.replies| + |r.requests| == 1
  {
    match Classify(e)
    case Authentication => Reaction([TextMessage(e.senderId, "Authentication successful")], [])
    case MessageReceived => MessageReaction(serverUrl, e.senderId, e.message.value.text)
    case PostbackReceived => Reaction([TextMessage(e.senderId, "Postback called")], [])
    case _ => Quiet
  }

  lemma ThenAssoc(x: Reaction, y: Reaction, z: Reaction)
    ensures x.Then(y).Then(z) == x.Then(y.Then(z))
  {
    assert x.replies + y.replies + z.replies == x.replies + (y.replies + z.replies);
    assert x.requests + y.requests + z.requests == x.requests + (y.requests + z.requests);
  }

  lemma ThenQuiet(x: Reaction)
    ensures x.Then(Quiet) == x
  {
    assert x.replies + [] == x.replies && x.requests + [] == x.requests;
  }

  /** Appending two reactions one after the other to a log appends their combination. */
  lemma Extend(outs: seq<OutboundMessage>, reqs: seq<Request>, x: Reaction, y: Reaction)
    ensures outs + x.replies + y.replies == outs + x.Then(y).replies
    ensures reqs + x.requests + y.requests == reqs + x.Then(y).requests
  {
  }

  /** The events of one entry, one after the other. */
  function EventsReaction(serverUrl: string, events: seq<MessagingEvent>): Reaction {
    if events == [] then Quiet
    else EventsReaction(serverUrl, events[..|events| - 1]).Then(EventReaction(serverUrl, events[|events| - 1]))
  }

  /** The entries of one batch, one after the other. */
  function BatchReaction(serverUrl: string, entries: seq<Entry>): Reaction {
    if entries == [] then Quiet
    else BatchReaction(serverUrl, entries[..|entries| - 1]).Then(EventsReaction(serverUrl, entries[|entries| - 1].messaging))
  }

  /** `POST /webhook`: only a page subscription is dispatched, as all its events in entry-then-event
      order. */
  function PostReaction(serverUrl: string, body: Envelope): (r: Reaction)
    ensures body.objectKind != "page" ==> r == Quiet
    ensures body.objectKind == "page" ==> r == EventsReaction(serverUrl, AllEvents(body.entry))
  {
    if body.objectKind == "page" then
      BatchIsEventsInOrder(serverUrl, body.entry);
      BatchReaction(serverUrl, body.entry)
    else Quiet
  }

  /** Every event of every entry, entry by entry. */
  function AllEvents(entries: seq<Entry>): seq<MessagingEvent> {
    if entries == [] then [] else AllEvents(entries[..|entries| - 1]) + entries[|entries| - 1].messaging
  }

  lemma {:induction false} EventsReactionAppend(serverUrl: string, a: seq<MessagingEvent>, b: seq<MessagingEvent>)
    ensures EventsReaction(serverUrl, a + b) == EventsReaction(serverUrl, a).Then(EventsReaction(serverUrl, b))
    decreases |b|
  {
    if b == [] {
      assert a + b == a;
      ThenQuiet(EventsReaction(serverUrl, a));
    } else {
      var b' := b[..|b| - 1];
      EventsReactionAppend(serverUrl, a, b');
      assert (a + b)[..|a + b| - 1] == a + b';
      assert (a + b)[|a + b| - 1] == b[|b| - 1];
      ThenAssoc(EventsReaction(serverUrl, a), EventsReaction(serverUrl, b'), EventReaction(serverUrl, b[|b| - 1]));
    }
  }

  lemma EventsReactionSnoc(serverUrl: string, events: seq<MessagingEvent>, j: nat)
    requires j < |events|
    ensures EventsReaction(serverUrl, events[..j + 1])
            == EventsReaction(serverUrl, events[..j]).Then(EventReaction(serverUrl, events[j]))
  {
    assert events[..j + 1][..j] == events[..j];
  }

  lemma BatchReactionSnoc(serverUrl: string, entries: seq<Entry>, i: nat)
    requires i < |entries|
    ensures BatchReaction(serverUrl, entries[..i + 1])
            == BatchReaction(serverUrl, entries[..i]).Then(EventsReaction(serverUrl, entries[i].messaging))
  {
    assert entries[..i + 1][..i] == entries[..i];
  }

  /** A batch is handled as the concatenation of its entries' events, in entry-then-event order. */
  lemma {:induction false} BatchIsEventsInOrder(serverUrl: string, entries: seq<Entry>)
    ensures BatchReaction(serverUrl, entries) == EventsReaction(serverUrl, AllEvents(entries))
  {
    if entries != [] {
      var n := |entries| - 1;
      BatchIsEventsInOrder(serverUrl, entries[..n]);
      EventsReactionAppend(serverUrl, AllEvents(entries[..n]), entries[n].messaging);
    }
  }

  /** An event of unknown shape is only logged: leaving it out of a batch changes nothing, so
      it never keeps the events around it from being handled. */
  lemma UnknownEventSkipped(serverUrl: string, before: seq<MessagingEvent>, u: MessagingEvent, after: seq<MessagingEvent>)
    requires Classify(u) == Unknown
    ensures EventsReaction(serverUrl, before + [u] + after) == EventsReaction(serverUrl, before + after)
  {
    EventsReactionAppend(serverUrl, before + [u], after);
    assert (before + [u])[..|before|] == before;
    ThenQuiet(EventsReaction(serverUrl, before));
    EventsReactionAppend(serverUrl, before, after);
  }

  /** A message without text gets "Ha?" and nothing else; no handler is tried. */
  lemma NoTextReply(serverUrl: string, senderId: string, text: Option<string>)
    requires text.None? || text.value == ""
    ensures MessageReaction(serverUrl, senderId, text) == Reaction([TextMessage(senderId, "Ha?")], [])
  {
  }

  /** A text that no handler matches gets exactly the fallback text. */
  lemma UnmatchedReply(serverUrl: string, senderId: string, text: string)
    requires text != ""
    requires forall j :: 0 <= j < |Handlers| ==> Match(Handlers[j].command, text).None?
    ensures MessageReaction(serverUrl, senderId, Some(text)) == Reaction([TextMessage(senderId, FallbackText(text))], [])
  {
    RouteUnsupported(text);
  }

  /** A text routed to an ungated handler (6-10) gets exactly that handler's action applied to
      its captures. */
  lemma RouteRunsAction(serverUrl: string, senderId: string, text: Option<string>)
    requires Route(text).Run? && Route(text).index >= 6
    ensures !IsTrading(Handlers[Route(text).index].action)
    ensures |Route(text).params| == ParamCount(Handlers[Route(text).index].action)
    ensures MessageReaction(serverUrl, senderId, text)
            == ActionReaction(serverUrl, senderId, Handlers[Route(text).index].action, Route(text).params)
  {
    GatedHandlers(Route(text).index);
    ArityAgrees(Route(text).index);
  }

  /** `stocks`, in any case, gets the stock list. */
  lemma StocksReply(serverUrl: string, senderId: string, text: string)
    requires FoldEq(text, "stocks")
    ensures MessageReaction(serverUrl, senderId, Some(text)) == Reaction([TextMessage(senderId, StocksMessage())], [])
  {
    StocksRoutes(text);
    assert Handlers[6].action == ShowStocks;
    RouteRunsAction(serverUrl, senderId, Some(text));
  }

  /** `help`, in any case, gets the help list. */
  lemma HelpReply(serverUrl: string, senderId: string, text: string)
    requires FoldEq(text, "help")
    ensures MessageReaction(serverUrl, senderId, Some(text)) == Reaction([TextMessage(senderId, HelpMessage())], [])
  {
    HelpRoutes(text);
    assert Handlers[8].action == ShowHelp;
    RouteRunsAction(serverUrl, senderId, Some(text));
  }

  /** Any text that begins with `vis`, in any case, gets the image. */
  lemma VisualizeReply(serverUrl: string, senderId: string, text: string)
    requires HasLead(text, "vis")
    ensures MessageReaction(serverUrl, senderId, Some(text)) == Reaction([ImageMessage(serverUrl, senderId)], [])
  {
    VisualizeRoutes(text);
    assert Handlers[10].action == Visualize;
    RouteRunsAction(serverUrl, senderId, Some(text));
  }

  /** `price of <name>` sends nothing yet and asks for the quote of exactly that name. */
  lemma PriceOfReply(serverUrl: string, senderId: string, lead: string, name: string)
    requires FoldEq(lead, "price of ") && name != "" && AllNameChars(name)
    ensures MessageReaction(serverUrl, senderId, Some(lead + name)) == Reaction([], [QuoteData(senderId, name)])
  {
    PriceOfRoutes(lead, name);
    RouteRunsAction(serverUrl, senderId, Some(lead + name));
  }

  /** `news of <name>` sends nothing yet and asks for the news score of exactly that name. */
  lemma NewsOfReply(serverUrl: string, senderId: string, lead: string, name: string)
    requires FoldEq(lead, "news of ") && name != "" && AllNameChars(name)
    ensures MessageReaction(serverUrl, senderId, Some(lead + name)) == Reaction([], [NewsScore(senderId, name)])
  {
    var text := lead + name;
    assert text[..|lead|] == lead && text[|lead|..] == name;
    RouteOfHandler(text, 9, [name]);
    RouteRunsAction(serverUrl, senderId, Some(text));
  }

  class MessengerController {
    const appSecret: string
    const validationToken: Option<string>
    const serverUrl: string
    /** Every `callSendAPI(messageData)` so far, in order. */
    var outbox: seq<OutboundMessage>
    /** Every asynchronous call started so far, in order. */
    var requests: seq<Request>
    /** The user lookups that have settled so far; each lookup settles once. */
    var settled: multiset<Request>

    constructor (appSecret: string, validationToken: Option<string>, serverUrl: string)
      ensures this.appSecret == appSecret && this.validationToken == validationToken && this.serverUrl == serverUrl
      ensures outbox == [] && requests == [] && settled == multiset{}
    {
      this.appSecret := appSecret;
      this.validationToken := validationToken;
      this.serverUrl := serverUrl;
      outbox := [];
      requests := [];
      settled := multiset{};
    }

    /** `GET /webhook`. */
    method GetWebhook(query: map<string, string>) returns (reply: HandshakeReply)
      ensures reply.Accept? <==> Param(query, "hub.mode") == Some("subscribe")
                                 && Param(query, "hub.verify_token") == validationToken
      ensures reply.Accept? ==> reply.challenge == Param(query, "hub.challenge")
    {
      reply := Handshake(query, validationToken);
    }

    /** The signature check of a webhook request body, with this controller's secret. */
    method CheckSignature(header: Option<string>, buf: seq<byte>, hmacSha1Hex: (string, seq<byte>) -> string)
      returns (check: SignatureCheck)
      ensures check == Invalid <==> (header.Some? && header.value != ""
                                     && SecondField(header.value) != Some(hmacSha1Hex(appSecret, buf)))
      ensures check == Unverified <==> (header.None? || header.value == "")
    {
      check := VerifyRequestSignature(header, appSecret, buf, hmacSha1Hex);
    }

    /** `callSendAPI(messageData)`, with the HTTP request replaced by appending to the outbox. */
    method CallSendAPI(message: OutboundMessage)
      modifies this
      ensures outbox == old(outbox) + [message] && requests == old(requests) && settled == old(settled)
    {
      outbox := outbox + [message];
    }

    method Start(request: Request)
      modifies this
      ensures requests == old(requests) + [request] && outbox == old(outbox) && settled == old(settled)
    {
      requests := requests + [request];
    }

    /** The action of a handler without a user lookup, applied to that handler's captures. */
    method RunAction(senderId: string, action: Action, params: seq<string>)
      requires !IsTrading(action) && |params| == ParamCount(action)
      modifies this
      ensures outbox == old(outbox) + ActionReaction(serverUrl, senderId, action, params).replies
      ensures requests == old(requests) + ActionReaction(serverUrl, senderId, action, params).requests
      ensures settled == old(settled)
    {
      match action
      case ShowStocks => CallSendAPI(TextMessage(senderId, StocksMessage()));
      case PriceOf => Start(QuoteData(senderId, params[0]));
      case ShowHelp => CallSendAPI(TextMessage(senderId, HelpMessage()));
      case NewsOf => Start(NewsScore(senderId, params[0]));
      case Visualize => CallSendAPI(ImageMessage(serverUrl, senderId));
      case _ => assert false;
    }

    /** `receivedMessage(event)`. */
    method ReceivedMessage(event: MessagingEvent)
      requires event.message.Some?
      modifies this
      ensures outbox == old(outbox) + MessageReaction(serverUrl, event.senderId, event.message.value.text).replies
      ensures requests == old(requests) + MessageReaction(serverUrl, event.senderId, event.message.value.text).requests
      ensures settled == old(settled)
    {
      var senderID := event.senderId;
      var text := event.message.value.text;
      if text.None? || text.value == "" {
        CallSendAPI(TextMessage(senderID, "Ha?"));
        return;
      }
      var hit := FindHandler(text.value);
      match hit
      case Some(Hit(i, params)) =>
        GatedHandlers(i);
        if Handlers[i].getsUser {
          Start(FindUser(senderID, i, params));
        } else {
          ArityAgrees(i);
          RunAction(senderID, Handlers[i].action, params);
        }
      case None =>
        CallSendAPI(TextMessage(senderID, FallbackText(text.value)));
    }

    /** The settling of a gated handler's user lookup. A rejection sends the linking prompt.
        Either way the continuation that would run the action first calls a method that arrays
        do not have on the captures and fails, so no action runs. A lookup settles once. */
    method CompleteUserLookup(lookup: Request, rejected: bool)
      requires lookup.FindUser? && lookup in multiset(requests) - settled
      modifies this
      ensures outbox == old(outbox) + (if rejected then [LinkingPrompt(serverUrl, lookup.senderId)] else [])
      ensures requests == old(requests)
      ensures settled == old(settled) + multiset{lookup}
    {
      settled := settled + multiset{lookup};
      if rejected {
        CallSendAPI(LinkingPrompt(serverUrl, lookup.senderId));
      }
    }

    /** One turn of the inner `forEach`: the `if / else if` chain over the event's fields. */
    method DispatchEvent(event: MessagingEvent)
      modifies this
      ensures outbox == old(outbox) + EventReaction(serverUrl, event).replies
      ensures requests == old(requests) + EventReaction(serverUrl, event).requests
      ensures settled == old(settled)
    {
      if event.optin.Some? {
        CallSendAPI(TextMessage(event.senderId, "Authentication successful"));
      } else if event.message.Some? {
        ReceivedMessage(event);
      } else if event.delivery.Some? {
      } else if event.postback.Some? {
        CallSendAPI(TextMessage(event.senderId, "Postback called"));
      } else if event.read.Some? {
      } else if event.accountLinking.Some? {
      } else {
      }
    }

    /** The callback of the outer `forEach`: every event of one entry, in order. */
    method ReceiveEntry(pageEntry: Entry)
      modifies this
      ensures outbox == old(outbox) + EventsReaction(serverUrl, pageEntry.messaging).replies
      ensures requests == old(requests) + EventsReaction(serverUrl, pageEntry.messaging).requests
      ensures settled == old(settled)
    {
      var events := pageEntry.messaging;
      for j := 0 to |events|
        invariant outbox == old(outbox) + EventsReaction(serverUrl, events[..j]).replies
        invariant requests == old(requests) + EventsReaction(serverUrl, events[..j]).requests
        invariant settled == old(settled)
      {
        ghost var sofar := EventsReaction(serverUrl, events[..j]);
        DispatchEvent(events[j]);
        ghost var step := EventReaction(serverUrl, events[j]);
        EventsReactionSnoc(serverUrl, events, j);
        Extend(old(outbox), old(requests), sofar, step);
      }
      assert events[..|events|] == events;
    }

    /** `POST /webhook`: for a page subscription, every event of every entry in order, then a
        single 200; for any other object nothing at all. */
    method PostWebhook(body: Envelope) returns (status: Option<int>)
      modifies this
      ensures status == if body.objectKind == "page" then Some(200) else None
      ensures outbox == old(outbox) + PostReaction(serverUrl, body).replies
      ensures requests == old(requests) + PostReaction(serverUrl, body).requests
      ensures settled == old(settled)
    {
      if body.objectKind != "page" {
        assert old(outbox) + [] == old(outbox) && old(requests) + [] == old(requests);
        return None;
      }
      for i := 0 to |body.entry|
        invariant outbox == old(outbox) + BatchReaction(serverUrl, body.entry[..i]).replies
        invariant requests == old(requests) + BatchReaction(serverUrl, body.entry[..i]).requests
        invariant settled == old(settled)
      {
        ghost var sofar := BatchReaction(serverUrl, body.entry[..i]);
        ReceiveEntry(body.entry[i]);
        ghost var step := EventsReaction(serverUrl, body.entry[i].messaging);
        BatchReactionSnoc(serverUrl, body.entry, i);
        Extend(old(outbox), old(requests), sofar, step);
      }
      assert body.entry[..|body.entry|] == body.entry;
      return Some(200);
    }
  }
}
