/** The payloads the controller hands to the Send API: a typed view of every `send*` builder,
    the JSON object each one writes, and a decoder proving that JSON carries the whole message. */
module SendApi {
  import opened Wrappers

  /** A JSON value as the builders write it (objects as key/value maps). */
  datatype Json = JStr(s: string) | JObj(fields: map<string, Json>) | JArr(items: seq<Json>)

  function Field(j: Json, key: string): Option<Json> {
    if j.JObj? && key in j.fields then Some(j.fields[key]) else None
  }

  function StrField(j: Json, key: string): Option<string> {
    match Field(j, key)
    case Some(JStr(s)) => Some(s)
    case _ => None
  }

  function Items(j: Json): Option<seq<Json>> {
    if j.JArr? then Some(j.items) else None
  }

  datatype MediaKind = Image | Audio | Video | File
  datatype SenderActionKind = MarkSeen | TypingOn | TypingOff

  datatype Button =
    | AccountLinkButton(url: string)
    | WebUrlButton(url: string, title: string)
    | PostbackButton(title: string, payload: string)

  datatype Element = Element(title: string, subtitle: string, itemUrl: string, imageUrl: string, buttons: seq<Button>)

  datatype QuickReplyOption = QuickReplyOption(title: string, payload: string)

  /** One call of `callSendAPI(messageData)`. */
  datatype OutboundMessage =
    | Text(recipient: string, text: string)
    | Media(recipient: string, kind: MediaKind, url: string)
    | ButtonTemplate(recipient: string, text: string, buttons: seq<Button>)
    | GenericTemplate(recipient: string, elements: seq<Element>)
    | QuickReply(recipient: string, text: string, replies: seq<QuickReplyOption>)
    | SenderAction(recipient: string, action: SenderActionKind)

  /** The `metadata` every text message carries. */
  const Metadata := "DEVELOPER_DEFINED_METADATA"

  function MediaName(k: MediaKind): string {
    match k
    case Image => "image"
    case Audio => "audio"
    case Video => "video"
    case File => "file"
  }

  function MediaOf(s: string): (k: Option<MediaKind>)
    ensures k.Some? ==> MediaName(k.value) == s
  {
    if s == "image" then Some(Image)
    else if s == "audio" then Some(Audio)
    else if s == "video" then Some(Video)
    else if s == "file" then Some(File)
    else None
  }

  function ActionName(a: SenderActionKind): string {
    match a
    case MarkSeen => "mark_seen"
    case TypingOn => "typing_on"
    case TypingOff => "typing_off"
  }

  function ActionOf(s: string): (a: Option<SenderActionKind>)
    ensures a.Some? ==> ActionName(a.value) == s
  {
    if s == "mark_seen" then Some(MarkSeen)
    else if s == "typing_on" then Some(TypingOn)
    else if s == "typing_off" then Some(TypingOff)
    else None
  }

  function EncodeButton(b: Button): Json {
    match b
    case AccountLinkButton(url) => JObj(map["type" := JStr("account_link"), "url" := JStr(url)])
    case WebUrlButton(url, title) => JObj(map["type" := JStr("web_url"), "url" := JStr(url), "title" := JStr(title)])
    case PostbackButton(title, payload) => JObj(map["type" := JStr("postback"), "title" := JStr(title), "payload" := JStr(payload)])
  }

  function EncodeButtons(bs: seq<Button>): seq<Json> {
    if bs == [] then [] else [EncodeButton(bs[0])] + EncodeButtons(bs[1..])
  }

  function EncodeElement(e: Element): Json {
    JObj(map["title" := JStr(e.title), "subtitle" := JStr(e.subtitle), "item_url" := JStr(e.itemUrl),
             "image_url" := JStr(e.imageUrl), "buttons" := JArr(EncodeButtons(e.buttons))])
  }

  function EncodeElements(es: seq<Element>): seq<Json> {
    if es == [] then [] else [EncodeElement(es[0])] + EncodeElements(es[1..])
  }

  function EncodeQuickReplies(qs: seq<QuickReplyOption>): seq<Json> {
    if qs == [] then []
    else [JObj(map["content_type" := JStr("text"), "title" := JStr(qs[0].title), "payload" := JStr(qs[0].payload)])]
         + EncodeQuickReplies(qs[1..])
  }

  /** The `message` object of a message that has one. */
  function EncodeBody(m: OutboundMessage): Json
    requires !m.SenderAction?
  {
    match m
    case Text(_, text) => JObj(map["text" := JStr(text), "metadata" := JStr(Metadata)])
    case Media(_, kind, url) =>
      JObj(map["attachment" := JObj(map["type" := JStr(MediaName(kind)), "payload" := JObj(map["url" := JStr(url)])])])
    case ButtonTemplate(_, text, buttons) =>
      JObj(map["attachment" := JObj(map["type" := JStr("template"), "payload" :=
        JObj(map["template_type" := JStr("button"), "text" := JStr(text), "buttons" := JArr(EncodeButtons(buttons))])])])
    case GenericTemplate(_, elements) =>
      JObj(map["attachment" := JObj(map["type" := JStr("template"), "payload" :=
        JObj(map["template_type" := JStr("generic"), "elements" := JArr(EncodeElements(elements))])])])
    case QuickReply(_, text, replies) =>
      JObj(map["text" := JStr(text), "quick_replies" := JArr(EncodeQuickReplies(replies))])
  }

  /** `messageData`: `{recipient: {id}, message: {...}}`, or `{recipient: {id}, sender_action}`. */
  function Encode(m: OutboundMessage): (j: Json)
    ensures Field(j, "recipient") == Some(JObj(map["id" := JStr(m.recipient)]))
    ensures Field(j, "sender_action").Some? <==> m.SenderAction?
    ensures Field(j, "message").Some? <==> !m.SenderAction?
    ensures m.Text? ==> StrField(Field(j, "message").value, "metadata") == Some(Metadata)
  {
    var recipient := JObj(map["id" := JStr(m.recipient)]);
    if m.SenderAction? then
      JObj(map["recipient" := recipient, "sender_action" := JStr(ActionName(m.action))])
    else
      JObj(map["recipient" := recipient, "message" := EncodeBody(m)])
  }

  function DecodeButton(j: Json): Option<Button> {
    var kind :- StrField(j, "type");
    if kind == "account_link" then
      var url :- StrField(j, "url");
      Some(AccountLinkButton(url))
    else if kind == "web_url" then
      var url :- StrField(j, "url");
      var title :- StrField(j, "title");
      Some(WebUrlButton(url, title))
    else if kind == "postback" then
      var title :- StrField(j, "title");
      var payload :- StrField(j, "payload");
      Some(PostbackButton(title, payload))
    else None
  }

  function DecodeButtons(items: seq<Json>): Option<seq<Button>> {
    if items == [] then Some([])
    else
      var b :- DecodeButton(items[0]);
      var rest :- DecodeButtons(items[1..]);
      Some([b] + rest)
  }

  function DecodeElement(j: Json): Option<Element> {
    var title :- StrField(j, "title");
    var subtitle :- StrField(j, "subtitle");
    var itemUrl :- StrField(j, "item_url");
    var imageUrl :- StrField(j, "image_url");
    var buttons :- Field(j, "buttons");
    var items :- Items(buttons);
    var bs :- DecodeButtons(items);
    Some(Element(title, subtitle, itemUrl, imageUrl, bs))
  }

  function DecodeElements(items: seq<Json>): Option<seq<Element>> {
    if items == [] then Some([])
    else
      var e :- DecodeElement(items[0]);
      var rest :- DecodeElements(items[1..]);
      Some([e] + rest)
  }

  function DecodeQuickReplies(items: seq<Json>): Option<seq<QuickReplyOption>> {
    if items == [] then Some([])
    else
      var contentType :- StrField(items[0], "content_type");
      if contentType != "text" then None
      else
        var title :- StrField(items[0], "title");
        var payload :- StrField(items[0], "payload");
        var rest :- DecodeQuickReplies(items[1..]);
        Some([QuickReplyOption(title, payload)] + rest)
  }

  /** A `template` attachment's payload. */
  function DecodeTemplate(recipient: string, payload: Json): Option<OutboundMessage> {
    var templateType :- StrField(payload, "template_type");
    if templateType == "button" then
      var text :- StrField(payload, "text");
      var buttons :- Field(payload, "buttons");
      var items :- Items(buttons);
      var bs :- DecodeButtons(items);
      Some(ButtonTemplate(recipient, text, bs))
    else if templateType == "generic" then
      var elements :- Field(payload, "elements");
      var items :- Items(elements);
      var es :- DecodeElements(items);
      Some(GenericTemplate(recipient, es))
    else None
  }

  /** A `message` object. */
  function DecodeBody(recipient: string, message: Json): Option<OutboundMessage> {
    if Field(message, "attachment").Some? then
      var attachment := Field(message, "attachment").value;
      var kind :- StrField(attachment, "type");
      var payload :- Field(attachment, "payload");
      if kind == "template" then DecodeTemplate(recipient, payload)
      else
        var media :- MediaOf(kind);
        var url :- StrField(payload, "url");
        Some(Media(recipient, media, url))
    else if Field(message, "quick_replies").Some? then
      var text :- StrField(message, "text");
      var items :- Items(Field(message, "quick_replies").value);
      var replies :- DecodeQuickReplies(items);
      Some(QuickReply(recipient, text, replies))
    else
      var text :- StrField(message, "text");
      Some(Text(recipient, text))
  }

  /** How the Send API reads a request body. */
  function Decode(j: Json): Option<OutboundMessage> {
    var recipient :- Field(j, "recipient");
    var id :- StrField(recipient, "id");
    if Field(j, "sender_action").Some? then
      var name :- StrField(j, "sender_action");
      var action :- ActionOf(name);
      Some(SenderAction(id, action))
    else
      var message :- Field(j, "message");
      DecodeBody(id, message)
  }

  lemma {:induction false} ButtonsRoundTrip(bs: seq<Button>)
    ensures DecodeButtons(EncodeButtons(bs)) == Some(bs)
  {
    if bs != [] {
      var b := bs[0];
      assert DecodeButton(EncodeButton(b)) == Some(b) by {
        match b
        case AccountLinkButton(_) =>
        case WebUrlButton(_, _) =>
        case PostbackButton(_, _) =>
      }
      ButtonsRoundTrip(bs[1..]);
      assert EncodeButtons(bs)[1..] == EncodeButtons(bs[1..]);
      assert [b] + bs[1..] == bs;
    }
  }

  lemma {:induction false} ElementsRoundTrip(es: seq<Element>)
    ensures DecodeElements(EncodeElements(es)) == Some(es)
  {
    if es != [] {
      ButtonsRoundTrip(es[0].buttons);
      ElementsRoundTrip(es[1..]);
      assert EncodeElements(es)[1..] == EncodeElements(es[1..]);
      assert [es[0]] + es[1..] == es;
    }
  }

  lemma {:induction false} QuickRepliesRoundTrip(qs: seq<QuickReplyOption>)
    ensures DecodeQuickReplies(EncodeQuickReplies(qs)) == Some(qs)
  {
    if qs != [] {
      QuickRepliesRoundTrip(qs[1..]);
      assert EncodeQuickReplies(qs)[1..] == EncodeQuickReplies(qs[1..]);
      assert [qs[0]] + qs[1..] == qs;
    }
  }

  lemma MediaRoundTrip(recipient: string, kind: MediaKind, url: string)
    ensures DecodeBody(recipient, EncodeBody(Media(recipient, kind, url))) == Some(Media(recipient, kind, url))
  {
    assert MediaOf(MediaName(kind)) == Some(kind) by { match kind case Image => case Audio => case Video => case File => }
    var body := EncodeBody(Media(recipient, kind, url));
    var attachment := JObj(map["type" := JStr(MediaName(kind)), "payload" := JObj(map["url" := JStr(url)])]);
    assert body == JObj(map["attachment" := attachment]);
    assert Field(body, "attachment") == Some(attachment);
    assert StrField(attachment, "type") == Some(MediaName(kind));
    assert MediaName(kind) != "template";
  }

  lemma ButtonTemplateRoundTrip(recipient: string, text: string, buttons: seq<Button>)
    ensures DecodeBody(recipient, EncodeBody(ButtonTemplate(recipient, text, buttons))) == Some(ButtonTemplate(recipient, text, buttons))
  {
    ButtonsRoundTrip(buttons);
    var payload := JObj(map["template_type" := JStr("button"), "text" := JStr(text), "buttons" := JArr(EncodeButtons(buttons))]);
    assert DecodeTemplate(recipient, payload) == Some(ButtonTemplate(recipient, text, buttons));
    var attachment := JObj(map["type" := JStr("template"), "payload" := payload]);
    assert EncodeBody(ButtonTemplate(recipient, text, buttons)) == JObj(map["attachment" := attachment]);
  }

  lemma GenericTemplateRoundTrip(recipient: string, elements: seq<Element>)
    ensures DecodeBody(recipient, EncodeBody(GenericTemplate(recipient, elements))) == Some(GenericTemplate(recipient, elements))
  {
    ElementsRoundTrip(elements);
    var payload := JObj(map["template_type" := JStr("generic"), "elements" := JArr(EncodeElements(elements))]);
    assert DecodeTemplate(recipient, payload) == Some(GenericTemplate(recipient, elements));
    var attachment := JObj(map["type" := JStr("template"), "payload" := payload]);
    assert EncodeBody(GenericTemplate(recipient, elements)) == JObj(map["attachment" := attachment]);
  }

  lemma QuickReplyRoundTrip(recipient: string, text: string, replies: seq<QuickReplyOption>)
    ensures DecodeBody(recipient, EncodeBody(QuickReply(recipient, text, replies))) == Some(QuickReply(recipient, text, replies))
  {
    QuickRepliesRoundTrip(replies);
  }

  /** The JSON each builder writes carries the whole message: reading it back gives the message. */
  lemma RoundTrip(m: OutboundMessage)
    ensures Decode(Encode(m)) == Some(m)
  {
    var recipient := JObj(map["id" := JStr(m.recipient)]);
    assert StrField(recipient, "id") == Some(m.recipient);
    match m
    case Text(_, _) =>
    case Media(r, kind, url) => MediaRoundTrip(r, kind, url);
    case ButtonTemplate(r, text, buttons) => ButtonTemplateRoundTrip(r, text, buttons);
    case GenericTemplate(r, elements) => GenericTemplateRoundTrip(r, elements);
    case QuickReply(r, text, replies) => QuickReplyRoundTrip(r, text, replies);
    case SenderAction(_, action) =>
      assert ActionOf(ActionName(action)) == Some(action) by { match action case MarkSeen => case TypingOn => case TypingOff => }
  }

  /** Different messages never produce the same request body. */
  lemma EncodeInjective(m1: OutboundMessage, m2: OutboundMessage)
    requires Encode(m1) == Encode(m2)
    ensures m1 == m2
  {
    RoundTrip(m1);
    RoundTrip(m2);
  }

  /** `{recipient: {id}, message: body}`, the shape of every builder that sends a message. */
  function MessageData(recipientId: string, body: Json): Json {
    JObj(map["recipient" := JObj(map["id" := JStr(recipientId)]), "message" := body])
  }

  /** `{recipient: {id}, sender_action: action}`. */
  function SenderActionData(recipientId: string, action: string): Json {
    JObj(map["recipient" := JObj(map["id" := JStr(recipientId)]), "sender_action" := JStr(action)])
  }

  /** `{attachment: {type, payload}}`. */
  function AttachmentBody(kind: string, payload: Json): Json {
    JObj(map["attachment" := JObj(map["type" := JStr(kind), "payload" := payload])])
  }

  function UrlPayload(url: string): Json {
    JObj(map["url" := JStr(url)])
  }

  // The builders of the controller; `serverUrl` is `SERVER_URL`, concatenated as written. Each
  // states the JSON object it hands to the Send API.

  function TextMessage(recipientId: string, messageText: string): (m: OutboundMessage)
    ensures Encode(m) == MessageData(recipientId, JObj(map["text" := JStr(messageText), "metadata" := JStr(Metadata)]))
  {
    Text(recipientId, messageText)
  }

  function ImageMessage(serverUrl: string, recipientId: string): (m: OutboundMessage)
    ensures Encode(m) == MessageData(recipientId, AttachmentBody("image", UrlPayload(serverUrl + "/image.png")))
  {
    Media(recipientId, Image, serverUrl + "/image.png")
  }

  /** The gif is sent as an attachment of type `image`. */
  function GifMessage(serverUrl: string, recipientId: string): (m: OutboundMessage)
    ensures Encode(m) == MessageData(recipientId, AttachmentBody("image", UrlPayload(serverUrl + "/assets/instagram_logo.gif")))
  {
    Media(recipientId, Image, serverUrl + "/assets/instagram_logo.gif")
  }

  function AudioMessage(serverUrl: string, recipientId: string): (m: OutboundMessage)
    ensures Encode(m) == MessageData(recipientId, AttachmentBody("audio", UrlPayload(serverUrl + "/assets/sample.mp3")))
  {
    Media(recipientId, Audio, serverUrl + "/assets/sample.mp3")
  }

  function VideoMessage(serverUrl: string, recipientId: string): (m: OutboundMessage)
    ensures Encode(m) == MessageData(recipientId, AttachmentBody("video", UrlPayload(serverUrl + "/assets/allofus480.mov")))
  {
    Media(recipientId, Video, serverUrl + "/assets/allofus480.mov")
  }

  function FileMessage(serverUrl: string, recipientId: string): (m: OutboundMessage)
    ensures Encode(m) == MessageData(recipientId, AttachmentBody("file", UrlPayload(serverUrl + "/assets/test.txt")))
  {
    Media(recipientId, File, serverUrl + "/assets/test.txt")
  }

  function ButtonMessage(recipientId: string, text: string, buttons: seq<Button>): (m: OutboundMessage)
    ensures Encode(m) == MessageData(recipientId, AttachmentBody("template",
              JObj(map["template_type" := JStr("button"), "text" := JStr(text), "buttons" := JArr(EncodeButtons(buttons))])))
  {
    ButtonTemplate(recipientId, text, buttons)
  }

  function WebUrlJson(url: string, title: string): Json {
    JObj(map["type" := JStr("web_url"), "url" := JStr(url), "title" := JStr(title)])
  }

  function PostbackJson(title: string, payload: string): Json {
    JObj(map["type" := JStr("postback"), "title" := JStr(title), "payload" := JStr(payload)])
  }

  function ElementJson(title: string, subtitle: string, itemUrl: string, imageUrl: string, buttons: seq<Json>): Json {
    JObj(map["title" := JStr(title), "subtitle" := JStr(subtitle), "item_url" := JStr(itemUrl),
             "image_url" := JStr(imageUrl), "buttons" := JArr(buttons)])
  }

  function GenericMessage(serverUrl: string, recipientId: string): (m: OutboundMessage)
    ensures Encode(m) == MessageData(recipientId, AttachmentBody("template", JObj(map[
              "template_type" := JStr("generic"),
              "elements" := JArr([
                ElementJson("rift", "Next-generation virtual reality", "https://www.oculus.com/en-us/rift/",
                            serverUrl + "/assets/rift.png",
                            [WebUrlJson("https://www.oculus.com/en-us/rift/", "Open Web URL"),
                             PostbackJson("Call Postback", "Payload for first bubble")]),
                ElementJson("touch", "Your Hands, Now in VR", "https://www.oculus.com/en-us/touch/",
                            serverUrl + "/assets/touch.png",
                            [WebUrlJson("https://www.oculus.com/en-us/touch/", "Open Web URL"),
                             PostbackJson("Call Postback", "Payload for second bubble")])])])))
  {
    var rift := [WebUrlButton("https://www.oculus.com/en-us/rift/", "Open Web URL"),
                 PostbackButton("Call Postback", "Payload for first bubble")];
    var touch := [WebUrlButton("https://www.oculus.com/en-us/touch/", "Open Web URL"),
                  PostbackButton("Call Postback", "Payload for second bubble")];
    var es := [Element("rift", "Next-generation virtual reality", "https://www.oculus.com/en-us/rift/",
                       serverUrl + "/assets/rift.png", rift),
               Element("touch", "Your Hands, Now in VR", "https://www.oculus.com/en-us/touch/",
                       serverUrl + "/assets/touch.png", touch)];
    assert EncodeButtons(rift) == [EncodeButton(rift[0])] + EncodeButtons(rift[1..]);
    assert EncodeButtons(rift[1..]) == [EncodeButton(rift[1])] + EncodeButtons([]);
    assert EncodeButtons(touch) == [EncodeButton(touch[0])] + EncodeButtons(touch[1..]);
    assert EncodeButtons(touch[1..]) == [EncodeButton(touch[1])] + EncodeButtons([]);
    assert EncodeElements(es) == [EncodeElement(es[0])] + EncodeElements(es[1..]);
    assert EncodeElements(es[1..]) == [EncodeElement(es[1])] + EncodeElements([]);
    var riftJson := [WebUrlJson("https://www.oculus.com/en-us/rift/", "Open Web URL"),
                     PostbackJson("Call Postback", "Payload for first bubble")];
    var touchJson := [WebUrlJson("https://www.oculus.com/en-us/touch/", "Open Web URL"),
                      PostbackJson("Call Postback", "Payload for second bubble")];
    assert EncodeButtons(rift) == riftJson;
    assert EncodeButtons(touch) == touchJson;
    assert EncodeElement(es[0]) == ElementJson("rift", "Next-generation virtual reality", "https://www.oculus.com/en-us/rift/",
                                               serverUrl + "/assets/rift.png", riftJson);
    assert EncodeElement(es[1]) == ElementJson("touch", "Your Hands, Now in VR", "https://www.oculus.com/en-us/touch/",
                                               serverUrl + "/assets/touch.png", touchJson);
    assert EncodeElements(es) == [EncodeElement(es[0]), EncodeElement(es[1])];
    GenericTemplate(recipientId, es)
  }

  function QuickReplyJson(title: string, payload: string): Json {
    JObj(map["content_type" := JStr("text"), "title" := JStr(title), "payload" := JStr(payload)])
  }

  function QuickReplyMessage(recipientId: string): (m: OutboundMessage)
    ensures Encode(m) == MessageData(recipientId, JObj(map[
              "text" := JStr("What's your favorite movie genre?"),
              "quick_replies" := JArr([
                QuickReplyJson("Action", "DEVELOPER_DEFINED_PAYLOAD_FOR_PICKING_ACTION"),
                QuickReplyJson("Comedy", "DEVELOPER_DEFINED_PAYLOAD_FOR_PICKING_COMEDY"),
                QuickReplyJson("Drama", "DEVELOPER_DEFINED_PAYLOAD_FOR_PICKING_DRAMA")])]))
  {
    var qs := [QuickReplyOption("Action", "DEVELOPER_DEFINED_PAYLOAD_FOR_PICKING_ACTION"),
               QuickReplyOption("Comedy", "DEVELOPER_DEFINED_PAYLOAD_FOR_PICKING_COMEDY"),
               QuickReplyOption("Drama", "DEVELOPER_DEFINED_PAYLOAD_FOR_PICKING_DRAMA")];
    assert EncodeQuickReplies(qs) == [QuickReplyJson(qs[0].title, qs[0].payload)] + EncodeQuickReplies(qs[1..]);
    assert EncodeQuickReplies(qs[1..]) == [QuickReplyJson(qs[1].title, qs[1].payload)] + EncodeQuickReplies(qs[2..]);
    assert EncodeQuickReplies(qs[2..]) == [QuickReplyJson(qs[2].title, qs[2].payload)] + EncodeQuickReplies([]);
    assert EncodeQuickReplies(qs) == [
      QuickReplyJson("Action", "DEVELOPER_DEFINED_PAYLOAD_FOR_PICKING_ACTION"),
      QuickReplyJson("Comedy", "DEVELOPER_DEFINED_PAYLOAD_FOR_PICKING_COMEDY"),
      QuickReplyJson("Drama", "DEVELOPER_DEFINED_PAYLOAD_FOR_PICKING_DRAMA")];
    QuickReply(recipientId, "What's your favorite movie genre?", qs)
  }

  function ReadReceipt(recipientId: string): (m: OutboundMessage)
    ensures Encode(m) == SenderActionData(recipientId, "mark_seen")
  {
    SenderAction(recipientId, MarkSeen)
  }

  function TypingOnMessage(recipientId: string): (m: OutboundMessage)
    ensures Encode(m) == SenderActionData(recipientId, "typing_on")
  {
    SenderAction(recipientId, TypingOn)
  }

  function TypingOffMessage(recipientId: string): (m: OutboundMessage)
    ensures Encode(m) == SenderActionData(recipientId, "typing_off")
  {
    SenderAction(recipientId, TypingOff)
  }

  function AccountLinkJson(url: string): Json {
    JObj(map["type" := JStr("account_link"), "url" := JStr(url)])
  }

  function AccountLinkingMessage(serverUrl: string, recipientId: string): (m: OutboundMessage)
    ensures Encode(m) == MessageData(recipientId, AttachmentBody("template", JObj(map[
              "template_type" := JStr("button"), "text" := JStr("Welcome. Link your account."),
              "buttons" := JArr([AccountLinkJson(serverUrl + "/authorize")])])))
  {
    var bs := [AccountLinkButton(serverUrl + "/authorize")];
    assert EncodeButtons(bs) == [EncodeButton(bs[0])] + EncodeButtons([]);
    assert EncodeButtons(bs) == [AccountLinkJson(serverUrl + "/authorize")];
    ButtonTemplate(recipientId, "Welcome. Link your account.", bs)
  }

  /** `promoteAccountLinking`: the prompt sent when the user lookup fails. */
  function LinkingPrompt(serverUrl: string, facebookUserId: string): (m: OutboundMessage)
    ensures Encode(m) == MessageData(facebookUserId, AttachmentBody("template", JObj(map[
              "template_type" := JStr("button"), "text" := JStr("Link to your Robinhood account and start trading"),
              "buttons" := JArr([AccountLinkJson(serverUrl + "authorize?userID=" + facebookUserId)])])))
  {
    var bs := [AccountLinkButton(serverUrl + "authorize?userID=" + facebookUserId)];
    assert EncodeButtons(bs) == [EncodeButton(bs[0])] + EncodeButtons([]);
    assert EncodeButtons(bs) == [AccountLinkJson(serverUrl + "authorize?userID=" + facebookUserId)];
    ButtonMessage(facebookUserId, "Link to your Robinhood account and start trading", bs)
  }

  /** The linking prompt is a one-button template whose `account_link` URL is the server URL
      directly followed by `authorize?userID=` and the sender id, with no slash inserted; the
      sender id can be read back from the URL. */
  lemma LinkingPromptPayload(serverUrl: string, id: string)
    ensures var j := Encode(LinkingPrompt(serverUrl, id));
            var payload := Field(Field(Field(j, "message").value, "attachment").value, "payload").value;
            && StrField(payload, "template_type") == Some("button")
            && Field(payload, "buttons") == Some(JArr([JObj(map["type" := JStr("account_link"),
                                                                "url" := JStr(serverUrl + "authorize?userID=" + id)])]))
    ensures var url := LinkingPrompt(serverUrl, id).buttons[0].url;
            |url| == |serverUrl| + 17 + |id| && url[..|serverUrl|] == serverUrl
            && url[|serverUrl|..|serverUrl| + 17] == "authorize?userID=" && url[|serverUrl| + 17..] == id
  {
    var url := serverUrl + "authorize?userID=" + id;
    assert |"authorize?userID="| == 17;
    assert url[..|serverUrl|] == serverUrl;
    assert url[|serverUrl|..|serverUrl| + 17] == "authorize?userID=";
    assert url[|serverUrl| + 17..] == id;
    var m := LinkingPrompt(serverUrl, id);
    var bs := [AccountLinkButton(serverUrl + "authorize?userID=" + id)];
    assert EncodeButtons(bs) == [EncodeButton(bs[0])] + EncodeButtons([]);
    var payload := JObj(map["template_type" := JStr("button"), "text" := JStr(m.text), "buttons" := JArr(EncodeButtons(bs))]);
    var attachment := JObj(map["type" := JStr("template"), "payload" := payload]);
    var body := JObj(map["attachment" := attachment]);
    assert EncodeBody(m) == body;
    assert Field(Encode(m), "message") == Some(body);
    assert Field(body, "attachment") == Some(attachment);
    assert Field(attachment, "payload") == Some(payload);
    assert EncodeButtons(bs) == [JObj(map["type" := JStr("account_link"), "url" := JStr(url)])];
    assert StrField(payload, "template_type") == Some("button");
  }

  /** Different senders get different linking URLs. */
  lemma LinkingPromptInjective(serverUrl: string, a: string, b: string)
    requires LinkingPrompt(serverUrl, a).buttons == LinkingPrompt(serverUrl, b).buttons
    ensures a == b
  {
    LinkingPromptPayload(serverUrl, a);
    LinkingPromptPayload(serverUrl, b);
  }
}
