# Messenger trading bot controller, modelled in Dafny

This project models `MessengerController`, the class behind a Facebook Messenger chat bot that
quotes and trades stocks. The model covers:

- the `GET /webhook` subscription handshake;
- the `x-hub-signature` check on every callback;
- the `POST /webhook` batch loop, which classifies each messaging event by its first present field;
- `receivedMessage`, the router: an ordered table of eleven case-insensitive command patterns
  (ten anchored at both ends, `/^vis/i` only at the start), where the first match wins, six
  trading handlers first look the user up, and unmatched text gets a fallback reply;
- the `send*` builders that shape Send API payloads.

`callSendAPI` is modelled as appending to the controller's `outbox`. Every asynchronous call a
handler starts is appended to its `requests` log: the user lookup, the brokerage quote, the news
score.

Modules:

- `Wrappers`: `Option`.
- `Strings`:
  - ASCII case folding, which is what a `/i` regular expression without the `u` flag does on these patterns;
  - the greedy digit run;
  - `split('=')` and `join`.
- `Webhook`: the handshake and the signature decision. HMAC-SHA1 is a function parameter.
- `Events`: the callback envelope and the classification chain.
- `Commands`:
  - the eleven hand-written matchers, with a declarative reference definition;
  - the handler table and first-match search;
  - the reply texts.
- `SendApi`:
  - the outbound messages;
  - their JSON encoding, together with a decoder that inverts it;
  - the fixed payload builders.
- `Messenger`:
  - the pure specification of what an event, an entry or a batch sends and starts;
  - the `MessengerController` class, whose methods update `outbox` and `requests` and are proved against that specification.

All source references are to `controllers/messenger.controller.js`.

Where the code and the prose description of the system disagree, the model follows the code:

- An event that has none of the six fields is only logged. An event field counts as present
  when it is truthy, so `postback: true`, `read: 1` or `delivery: {}` are dispatched and handled
  without error: their sub-fields are only read and logged. A `message` without a truthy `text`
  (including `message: 1`) gets "Ha?" (line 283). The events that do throw are listed under
  "Left out".
- `findUser` resolves whenever the database query succeeds, whether or not a record was found
  (line 241). Only a database error rejects. A rejection sends the linking prompt. In both cases the
  continuation calls `append` on the captures array, which arrays do not have, so no gated action
  ever runs (lines 490-495). Each lookup settles once.
- When `object` is not `"page"` the handler sends no response at all. This is modelled as status `None`.

## Model

| member | source | states |
|---|---|---|
| Strings.DigitRun | controllers/messenger.controller.js:304 | the length of the longest all-digit prefix: everything before it is a digit, and the next character, if any, is not |
| Strings.DigitRunOf | controllers/messenger.controller.js:304 | a digit string followed by the end or by a non-digit is exactly the run, so `[0-9]+` before a required space has a single possible capture |
| Strings.DigitRunIgnoresCase | controllers/messenger.controller.js:304 | case-folding a text leaves its digit run unchanged |
| Strings.SplitOn | controllers/messenger.controller.js:192 | `split('=')` yields at least one field and no field contains the separator |
| Strings.JoinSplitOn | controllers/messenger.controller.js:192 | joining the fields of a split with the separator gives back the original string |
| Strings.JoinWith | controllers/messenger.controller.js:384 | JS `join` (also used at line 450): the parts with the separator between consecutive ones, empty for no parts |
| Strings.SplitOnFirst | controllers/messenger.controller.js:192-194 | splitting `m + "=" + rest` where `m` has no `=` yields `m` followed by the fields of `rest` |
| Webhook.Param | controllers/messenger.controller.js:43-46 | a query parameter, absent (`undefined`) when the key is missing |
| Webhook.Handshake | controllers/messenger.controller.js:42-51 | accepted (status 200 with `hub.challenge`) exactly when `hub.mode` is "subscribe" and `hub.verify_token` equals the configured token, an unset token matching an absent query value; 403 otherwise |
| Webhook.HandshakeWithToken | controllers/messenger.controller.js:43-50 | for a concrete query, accepted with its challenge iff the mode is "subscribe" and the presented token is the configured one |
| Webhook.HandshakeWithoutToken | controllers/messenger.controller.js:43-46 | with no token configured, a subscribe request that presents no token is accepted and one that presents any token is rejected |
| Webhook.SecondField | controllers/messenger.controller.js:192-194 | `elements[1]`: absent when the header has no `=`, and never containing `=` |
| Webhook.VerifyRequestSignature | controllers/messenger.controller.js:184-204 | an absent or empty header is never rejected; a present one is rejected exactly when its second `=` field is missing or differs from the hex HMAC of the raw body under the app secret |
| Webhook.SecondFieldOf | controllers/messenger.controller.js:192-194 | the second field of `scheme=field`, and of `scheme=field=rest`, is `field` |
| Webhook.SecondFieldMissing | controllers/messenger.controller.js:194-201 | a present header without `=` is always rejected |
| Webhook.MethodFieldIgnored | controllers/messenger.controller.js:193 | the part before the first `=` never influences the result |
| Webhook.PlatformHeader | controllers/messenger.controller.js:192-202 | `sha1=<hex>` is verified iff `hex` is the expected digest and rejected otherwise |
| Events.Classify | controllers/messenger.controller.js:74-88 | an event that is not Unknown carries the field of its kind, and it is Unknown exactly when it carries none of the six fields |
| Events.FirstCarried | controllers/messenger.controller.js:74-88 | the first kind of a precedence list that the event carries is one of the list or Unknown |
| Events.FirstCarriedAt | controllers/messenger.controller.js:74-88 | the first carried kind is the i-th of a duplicate-free list iff the event carries it and none of the earlier ones |
| Events.FirstCarriedNone | controllers/messenger.controller.js:86-88 | an event carrying none of the listed kinds is Unknown |
| Events.ClassifyIsFirstCarried | controllers/messenger.controller.js:74-88 | the `if/else if` chain picks the first present field in the order optin, message, delivery, postback, read, account_linking |
| Events.ClassifyPrecedence | controllers/messenger.controller.js:74-88 | an event is classified as the i-th kind iff it carries that field and none of the earlier ones |
| Events.ClassifyUnknown | controllers/messenger.controller.js:86-88 | an event is Unknown iff it carries none of the six fields |
| Commands.Match | controllers/messenger.controller.js:304-477 | a successful match has as many parameters as its pattern has groups and the text starts with the pattern's keyword, ignoring case |
| Commands.MatchAccepts | controllers/messenger.controller.js:304-477 | the hand-written matcher returns `params` iff the text is the keyword (up to ASCII case) followed by capture groups of the anchored pattern equal to `params`, the buy/sell count being a maximal digit run followed by a space and a name of `[0-9a-zA-Z ]` |
| Commands.MatchFollowsLead | controllers/messenger.controller.js:304-477 | a text matches a pattern only if it begins with the pattern's keyword up to case |
| Commands.LeadMismatch | controllers/messenger.controller.js:304-477 | a text whose prefix differs from the keyword does not match |
| Commands.DollarAndCountFormsDisjoint | controllers/messenger.controller.js:304-332 | a text the unit form of buy or sell accepts is never accepted by the `$` form |
| Commands.OrderHandlersDisjoint | controllers/messenger.controller.js:304-332 | the four buy/sell patterns accept pairwise disjoint texts |
| Commands.HandlersDisjoint | controllers/messenger.controller.js:300-481 | no text matches two different handlers of the table |
| Commands.CountNameIgnoresCase | controllers/messenger.controller.js:304-332 | the count-space-name tail of a buy/sell pattern matches in two texts equal up to case alike, with captures equal up to case |
| Commands.OrderIgnoresCase | controllers/messenger.controller.js:304-332 | two texts equal up to ASCII case both match a buy/sell pattern or neither does, and their captures are equal up to case |
| Commands.PhraseIgnoresCase | controllers/messenger.controller.js:390-456 | the same for `price of` and `news of` and their captured name |
| Commands.MatchIgnoresCase | controllers/messenger.controller.js:304-477 | two texts equal up to ASCII case match the same patterns, with captures equal up to case |
| Commands.FirstMatch | controllers/messenger.controller.js:485-502 | for any handler table, the first handler from a position on whose pattern matches, with its captures, and none earlier matches; None exactly when none matches |
| Commands.FindHandler | controllers/messenger.controller.js:485-502 | the `for...of` loop with early return finds exactly the first matching handler |
| Commands.Route | controllers/messenger.controller.js:283-503 | no text or an empty text short-circuits; otherwise the first matching handler runs with its captures as parameters, or the text is unsupported |
| Commands.RouteIsFirstMatch | controllers/messenger.controller.js:485-502 | a routed text runs handler i with params exactly when handler i matches with params and no earlier handler matches |
| Commands.RouteUnsupported | controllers/messenger.controller.js:485-503 | a non-empty text no handler matches is unsupported |
| Commands.RouteOfHandler | controllers/messenger.controller.js:485-502 | since handlers are disjoint, a text accepted by handler i with params routes to handler i with these params |
| Commands.FirstMatchIgnoresCase | controllers/messenger.controller.js:485-502 | the first matching handler is the same for texts that differ only in case |
| Commands.RouteIgnoresCase | controllers/messenger.controller.js:283-503 | texts that differ only in case take the same route: the same handler, with parameters equal up to case |
| Commands.GatedHandlers | controllers/messenger.controller.js:300-350 | handlers 0-5, exactly the trading actions, look the user up; handlers 6-10 do not |
| Commands.ArityAgrees | controllers/messenger.controller.js:300-481 | every action receives as many parameters as its pattern captures |
| Commands.BuyExample | controllers/messenger.controller.js:303-306 | "buy 100 Apple" runs handler 0 with ["100", "Apple"], whose template reads "Bought 100 shares of Apple" |
| Commands.PriceOfRoutes | controllers/messenger.controller.js:390 | `price of` in any case followed by a name runs handler 7 with exactly that name |
| Commands.GatedReply | controllers/messenger.controller.js:305-350 | the reply each trading action would send once it ran: every trading action except `buy $` has one, no other action has one |
| Commands.FallbackText | controllers/messenger.controller.js:503 | the fallback reply is the fixed opening, the user text verbatim, then the fixed closing, with the text recoverable as the middle slice |
| Commands.FallbackTextInjective | controllers/messenger.controller.js:503 | different unsupported texts get different fallback replies |
| Commands.StocksMessage | controllers/messenger.controller.js:383-385 | the `stocks` reply: the stock lines joined with blank lines |
| Commands.StocksMessageText | controllers/messenger.controller.js:353-385 | the `stocks` reply is each of the six codes over its name, in table order, separated by blank lines |
| Commands.HelpLinesText | controllers/messenger.controller.js:404-450 | the help list is the ten `cmd => message` lines in list order |
| Commands.HelpMessage | controllers/messenger.controller.js:448-451 | the `help` reply: the help lines joined with blank lines |
| Commands.HelpMessageText | controllers/messenger.controller.js:404-451 | the `help` reply is those ten lines separated by blank lines |
| Commands.StocksRoutes | controllers/messenger.controller.js:354 | `stocks` in any case runs the stock-list handler with no captures |
| Commands.HelpRoutes | controllers/messenger.controller.js:404 | `help` in any case runs the help handler with no captures |
| Commands.VisualizeRoutes | controllers/messenger.controller.js:477 | any text beginning with `vis` in any case runs the image handler with no captures |
| Commands.StockLines | controllers/messenger.controller.js:383-384 | one line per stock, its code, a newline and its name, in order |
| Commands.HelpLines | controllers/messenger.controller.js:448-450 | one line per help entry, `cmd => message`, in order |
| Commands.HelpCoversHandlers | controllers/messenger.controller.js:405-447 | the help list documents each handler except `help` once |
| Commands.ExampleOrderRoutes | controllers/messenger.controller.js:406-422 | an example of the form keyword, amount, space, name routes to its buy/sell handler with those captures |
| Commands.ExamplePhraseRoutes | controllers/messenger.controller.js:430-437 | an example of the form keyword, name routes to its phrase handler with that name |
| Commands.HelpCommandsRoute | controllers/messenger.controller.js:405-447 | every example command of the help text is routed to the handler it describes |
| SendApi.Encode | controllers/messenger.controller.js:600-975 | every payload has `recipient: {id}`; a sender action carries `sender_action` and no `message`, every other payload a `message`; a text message carries the developer metadata |
| SendApi.ButtonsRoundTrip | controllers/messenger.controller.js:728-745 | decoding encoded buttons gives them back |
| SendApi.ElementsRoundTrip | controllers/messenger.controller.js:751-796 | decoding encoded generic-template elements gives them back |
| SendApi.QuickRepliesRoundTrip | controllers/messenger.controller.js:868-896 | decoding encoded quick replies gives them back |
| SendApi.MediaRoundTrip | controllers/messenger.controller.js:600-704 | an image, audio, video or file attachment decodes to itself |
| SendApi.ButtonTemplateRoundTrip | controllers/messenger.controller.js:728-745 | a button template decodes to itself |
| SendApi.GenericTemplateRoundTrip | controllers/messenger.controller.js:751-796 | a generic template decodes to itself |
| SendApi.QuickReplyRoundTrip | controllers/messenger.controller.js:868-896 | a quick-reply message decodes to itself |
| SendApi.RoundTrip | controllers/messenger.controller.js:600-975 | every outbound message decodes back from its JSON payload |
| SendApi.EncodeInjective | controllers/messenger.controller.js:600-975 | different outbound messages never produce the same payload |
| SendApi.TextMessage | controllers/messenger.controller.js:710-722 | the payload is `recipient: {id}` with a `message` of the text and the developer metadata |
| SendApi.ImageMessage | controllers/messenger.controller.js:600-616 | an `image` attachment whose url is the server URL then `/image.png` |
| SendApi.GifMessage | controllers/messenger.controller.js:622-638 | an attachment of type `image` (not `gif`) whose url is the server URL then `/assets/instagram_logo.gif` |
| SendApi.AudioMessage | controllers/messenger.controller.js:644-660 | an `audio` attachment of `/assets/sample.mp3` under the server URL |
| SendApi.VideoMessage | controllers/messenger.controller.js:666-682 | a `video` attachment of `/assets/allofus480.mov` under the server URL |
| SendApi.FileMessage | controllers/messenger.controller.js:688-704 | a `file` attachment of `/assets/test.txt` under the server URL |
| SendApi.ButtonMessage | controllers/messenger.controller.js:728-745 | a `button` template attachment carrying the text and the encoded buttons |
| SendApi.GenericMessage | controllers/messenger.controller.js:751-796 | a `generic` template with the two fixed elements (rift and touch), their urls, images and buttons |
| SendApi.QuickReplyMessage | controllers/messenger.controller.js:868-896 | the fixed question with the three `text` quick replies Action, Comedy and Drama and their payloads |
| SendApi.ReadReceipt | controllers/messenger.controller.js:902-913 | only `recipient: {id}` and `sender_action: "mark_seen"` |
| SendApi.TypingOnMessage | controllers/messenger.controller.js:919-930 | only `recipient: {id}` and `sender_action: "typing_on"` |
| SendApi.TypingOffMessage | controllers/messenger.controller.js:937-948 | only `recipient: {id}` and `sender_action: "typing_off"` |
| SendApi.AccountLinkingMessage | controllers/messenger.controller.js:954-975 | a `button` template "Welcome. Link your account." with one `account_link` button to the server URL then `/authorize` |
| SendApi.LinkingPrompt | controllers/messenger.controller.js:250-261 | the prompt sent on a rejected lookup: a button message with the fixed text and one `account_link` button |
| SendApi.LinkingPromptPayload | controllers/messenger.controller.js:250-261 | the linking prompt is a button template with the fixed text and one `account_link` button whose url is the server URL, then `authorize?userID=` with no slash inserted, then the sender id |
| SendApi.LinkingPromptInjective | controllers/messenger.controller.js:250-261 | prompts for different senders differ |
| Messenger.ActionReaction | controllers/messenger.controller.js:353-481 | an ungated action has exactly one effect, and it starts a call exactly for `price of` and `news of` |
| Messenger.HandlerReaction | controllers/messenger.controller.js:487-499 | a routed handler has exactly one effect: handlers 0-5 start exactly the user lookup with their captures and send nothing; handlers 6-10 never start one |
| Messenger.MessageReaction | controllers/messenger.controller.js:277-504 | every message has exactly one effect; a routed trading handler (0-5) sends nothing and starts exactly the user lookup for its captures, and no other message starts one |
| Messenger.EventReaction | controllers/messenger.controller.js:74-88 | only authentication ("Authentication successful"), message and postback ("Postback called") events send anything, only message events start calls, and a message event has exactly one effect |
| Messenger.PostReaction | controllers/messenger.controller.js:61-99 | a non-page body does nothing; a page body is handled as all its events in entry-then-event order |
| Messenger.EventsReaction | controllers/messenger.controller.js:73-89 | the inner `forEach`: the events of one entry handled one after the other, in order |
| Messenger.BatchReaction | controllers/messenger.controller.js:68-92 | the outer `forEach`: the entries of one batch handled one after the other, in order |
| Messenger.EventsReactionAppend | controllers/messenger.controller.js:73-89 | the events of a concatenation are handled as the first part, then the second |
| Messenger.BatchIsEventsInOrder | controllers/messenger.controller.js:68-90 | a batch is handled as every event of every entry in entry-then-event order |
| Messenger.UnknownEventSkipped | controllers/messenger.controller.js:86-88 | an event with none of the six fields changes nothing, wherever it sits in a batch |
| Messenger.RouteRunsAction | controllers/messenger.controller.js:485-499 | a text routed to an ungated handler gets exactly that handler's action applied to its captures |
| Messenger.StocksReply | controllers/messenger.controller.js:353-387 | `stocks` in any case gets exactly the stock list as one text reply |
| Messenger.HelpReply | controllers/messenger.controller.js:403-453 | `help` in any case gets exactly the help list as one text reply |
| Messenger.VisualizeReply | controllers/messenger.controller.js:476-480 | any text beginning with `vis` in any case gets exactly the image |
| Messenger.PriceOfReply | controllers/messenger.controller.js:389-399 | `price of <name>` in any case sends nothing and starts exactly the quote call for that name |
| Messenger.NewsOfReply | controllers/messenger.controller.js:455-475 | `news of <name>` in any case sends nothing and starts exactly the news-score call for that name |
| Messenger.NoTextReply | controllers/messenger.controller.js:283-286 | a message without text gets exactly "Ha?" and starts nothing |
| Messenger.UnmatchedReply | controllers/messenger.controller.js:485-503 | a text no handler matches gets exactly the fallback text and nothing else |
| Messenger.MessengerController.constructor | controllers/messenger.controller.js:23-35 | the controller starts with its app secret, validation token and server URL, an empty outbox, no requests and no settled lookups |
| Messenger.MessengerController.GetWebhook | controllers/messenger.controller.js:42-51 | the controller's handshake with its configured token |
| Messenger.MessengerController.CheckSignature | controllers/messenger.controller.js:184-204 | the controller's signature check with its app secret |
| Messenger.MessengerController.CallSendAPI | controllers/messenger.controller.js:982-1005 | appends the payload to the outbox and nothing else |
| Messenger.MessengerController.Start | controllers/messenger.controller.js:235-246 | appends one asynchronous call (a user lookup, a quote or a news score) to the request log and sends nothing |
| Messenger.MessengerController.RunAction | controllers/messenger.controller.js:353-481 | an ungated action (a trading action is refused) appends what `ActionReaction` specifies |
| Messenger.MessengerController.ReceivedMessage | controllers/messenger.controller.js:277-504 | appends exactly what `MessageReaction` specifies for the message's text |
| Messenger.MessengerController.CompleteUserLookup | controllers/messenger.controller.js:489-495 | only a started, not yet settled lookup can settle, and it is then marked settled; a rejected lookup appends exactly the linking prompt for its sender, a resolved one appends nothing |
| Messenger.MessengerController.DispatchEvent | controllers/messenger.controller.js:74-88 | appends exactly what `EventReaction` specifies for the event |
| Messenger.MessengerController.ReceiveEntry | controllers/messenger.controller.js:68-89 | handles every event of an entry in order |
| Messenger.MessengerController.PostWebhook | controllers/messenger.controller.js:61-99 | status 200 iff the object is "page", with every event dispatched in order; otherwise no status and nothing dispatched |

## Left out

- `models/user.model.js` declares a schema and has no logic. The user lookup is a `FindUser` log entry, and its outcome is a parameter of `CompleteUserLookup`.
- The HTTP layer is not modelled: Express routing, `res.*` calls and the request made by `callSendAPI` (lines 982-1005), including the page access token and the response logging. A call is an append to the outbox.
- The `/authorize` page rendering (lines 107-122), `signIn` and `/robinhood/signin` (lines 124-174) are not modelled. They are template rendering, a foreign brokerage login and a database update.
- HMAC-SHA1 (RFC 2104 over the SHA-1 of FIPS 180-4) comes from Node's `crypto`. It is the uninterpreted parameter `hmacSha1Hex`.
- Webhook.VerifyRequestSignature: a thrown error is modelled as the result `Invalid`. An unset app secret, which makes `createHmac` itself throw, is not modelled.
- Messenger.MessengerController.CompleteUserLookup: the continuation after the lookup is not modelled beyond the linking prompt, because the missing `append` makes it fail as written. No "user found, then the action runs" property is stated.
- The bodies of the foreign actions are not modelled: `orders`, `place_buy_order`, `place_sell_order`, the brokerage quote (lines 392-397) and the news score (lines 458-473). `price of` and `news of` become `QuoteData` and `NewsScore` log entries holding the captured name; the quote's upper-casing of the name is not modelled. The replies those calls would send are not modelled because they depend on foreign results and floating-point thresholds. The `news of` replies also use the undefined `senderId` (line 461).
- Commands.GatedReply: the `buy $` action reads the undeclared `numOfShares` (line 314) before replying, so it has no reply. The other gated templates are only reachable if the broken continuation were fixed.
- The receipt template `sendReceiptMessage` (lines 802-862) is not modelled. It uses `Math.random` for the order number and floating-point prices.
- The gif, audio, video, file, generic-template, quick-reply, read-receipt, typing and `sendAccountLinking` builders are modelled with their exact payloads, but no handler sends them, so no controller method calls them.
- All `console.*` logging is left out.
- There is no general regular-expression engine. The eleven patterns are hand-written matchers. Characters are Dafny `char`s, not UTF-16 code units. The patterns are ASCII, so this does not change what matches.
- JSON objects are maps, so key order in the payload literals is not modelled.
- The events that throw inside the loop are not modelled; every modelled event has a sender id and fields of the shapes the handlers read. Such a throw ends the request with no 200 sent. They are:
  - an event that reaches a `received*` handler without `sender` or `recipient` (lines 215-216, 278-279, 515-516, 542-543, 566-567, 586-587);
  - a truthy `message.text` that is not a string, on which `match` fails (line 486);
  - a truthy `delivery.mids` that is not an array (line 523);
  - a page body without `entry`, or an entry without `messaging` (lines 68, 73).
