/** The webhook envelope and the classification of each messaging event by the first field it
    carries. */
module Events {
  import opened Wrappers

  datatype Optin = Optin(ref: string)
  /** A received message; `text` is None when the message has no (or an empty) text. */
  datatype Message = Message(mid: string, text: Option<string>)
  datatype Delivery = Delivery(mids: seq<string>, watermark: int)
  datatype Postback = Postback(payload: string)
  datatype Read = Read(watermark: int, sequence: int)
  datatype AccountLinking = AccountLinking(status: string, authorizationCode: string)

  /** One element of `pageEntry.messaging`. Each optional field is None when the property is
      absent or holds a falsy value. */
  datatype MessagingEvent = MessagingEvent(
    senderId: string,
    recipientId: string,
    timestamp: int,
    optin: Option<Optin>,
    message: Option<Message>,
    delivery: Option<Delivery>,
    postback: Option<Postback>,
    read: Option<Read>,
    accountLinking: Option<AccountLinking>)

  datatype Entry = Entry(id: string, time: int, messaging: seq<MessagingEvent>)

  /** The parsed body of `POST /webhook`. */
  datatype Envelope = Envelope(objectKind: string, entry: seq<Entry>)

  /** Which `received*` handler an event goes to. */
  datatype EventKind = Authentication | MessageReceived | DeliveryConfirmation | PostbackReceived
                     | MessageRead | AccountLink | Unknown

  /** The order in which the dispatcher tests the discriminating fields. */
  const Precedence: seq<EventKind> :=
    [Authentication, MessageReceived, DeliveryConfirmation, PostbackReceived, MessageRead, AccountLink]

  /** The event carries the field that selects kind `k`. */
  predicate Carries(e: MessagingEvent, k: EventKind) {
    match k
    case Authentication => e.optin.Some?
    case MessageReceived => e.message.Some?
    case DeliveryConfirmation => e.delivery.Some?
    case PostbackReceived => e.postback.Some?
    case MessageRead => e.read.Some?
    case AccountLink => e.accountLinking.Some?
    case Unknown => false
  }

  /** The `if / else if` chain of the POST handler: the chosen handler's field is present, and
      no handler is chosen only when none of the six fields is. */
  function Classify(e: MessagingEvent): (k: EventKind)
    ensures k != Unknown ==> Carries(e, k)
    ensures k == Unknown <==> (e.optin.None? && e.message.None? && e.delivery.None? && e.postback.None?
                               && e.read.None? && e.accountLinking.None?)
  {
    if e.optin.Some? then Authentication
    else if e.message.Some? then MessageReceived
    else if e.delivery.Some? then DeliveryConfirmation
    else if e.postback.Some? then PostbackReceived
    else if e.read.Some? then MessageRead
    else if e.accountLinking.Some? then AccountLink
    else Unknown
  }

  /** Reference definition: the first kind in `kinds` whose field the event carries. */
  function FirstCarried(e: MessagingEvent, kinds: seq<EventKind>): (k: EventKind)
    ensures k == Unknown || k in kinds
  {
    if kinds == [] then Unknown
    else if Carries(e, kinds[0]) then kinds[0]
    else FirstCarried(e, kinds[1..])
  }

  predicate Distinct(kinds: seq<EventKind>) {
    forall a, b :: 0 <= a < b < |kinds| ==> kinds[a] != kinds[b]
  }

  /** In a list of distinct kinds, kind i is the first carried one exactly when the event
      carries it and none of the kinds before it. */
  lemma {:induction false} FirstCarriedAt(e: MessagingEvent, kinds: seq<EventKind>, i: nat)
    requires i < |kinds| && Distinct(kinds) && Unknown !in kinds
    ensures FirstCarried(e, kinds) == kinds[i]
        <==> Carries(e, kinds[i]) && forall j :: 0 <= j < i ==> !Carries(e, kinds[j])
  {
    if i == 0 {
      assert kinds[0] !in kinds[1..] by {
        forall j | 0 <= j < |kinds[1..]| ensures kinds[1..][j] != kinds[0] {
          assert kinds[1..][j] == kinds[j + 1];
        }
      }
    } else {
      var tail := kinds[1..];
      assert Distinct(tail) by {
        forall a, b | 0 <= a < b < |tail| ensures tail[a] != tail[b] {
          assert tail[a] == kinds[a + 1] && tail[b] == kinds[b + 1];
        }
      }
      assert kinds[i] == tail[i - 1];
      assert kinds[0] != kinds[i];
      FirstCarriedAt(e, tail, i - 1);
      if Carries(e, kinds[i]) && forall j :: 0 <= j < i ==> !Carries(e, kinds[j]) {
        assert !Carries(e, kinds[0]);
        forall j | 0 <= j < i - 1 ensures !Carries(e, tail[j]) {
          assert tail[j] == kinds[j + 1];
        }
      }
      if FirstCarried(e, kinds) == kinds[i] {
        assert !Carries(e, kinds[0]);
        forall j | 0 <= j < i ensures !Carries(e, kinds[j]) {
          if j > 0 { assert kinds[j] == tail[j - 1]; }
        }
      }
    }
  }

  /** No kind is carried exactly when the result is Unknown. */
  lemma {:induction false} FirstCarriedNone(e: MessagingEvent, kinds: seq<EventKind>)
    requires Unknown !in kinds
    ensures FirstCarried(e, kinds) == Unknown <==> forall j :: 0 <= j < |kinds| ==> !Carries(e, kinds[j])
  {
    if kinds != [] {
      assert kinds[0] != Unknown;
      assert Unknown !in kinds[1..];
      FirstCarriedNone(e, kinds[1..]);
      forall j | 0 < j < |kinds| ensures kinds[j] == kinds[1..][j - 1] { }
    }
  }

  lemma FirstCarriedCons(e: MessagingEvent, k: EventKind, kinds: seq<EventKind>)
    ensures FirstCarried(e, [k] + kinds) == if Carries(e, k) then k else FirstCarried(e, kinds)
  {
    assert ([k] + kinds)[1..] == kinds;
  }

  /** The chain is the precedence list read from the left. */
  lemma ClassifyIsFirstCarried(e: MessagingEvent)
    ensures Classify(e) == FirstCarried(e, Precedence)
  {
    var p5 := [AccountLink];
    var p4 := [MessageRead] + p5;
    var p3 := [PostbackReceived] + p4;
    var p2 := [DeliveryConfirmation] + p3;
    var p1 := [MessageReceived] + p2;
    assert Precedence == [Authentication] + p1;
    FirstCarriedCons(e, AccountLink, []);
    assert p5 == [AccountLink] + [];
    FirstCarriedCons(e, MessageRead, p5);
    FirstCarriedCons(e, PostbackReceived, p4);
    FirstCarriedCons(e, DeliveryConfirmation, p3);
    FirstCarriedCons(e, MessageReceived, p2);
    FirstCarriedCons(e, Authentication, p1);
  }

  /** An event is routed to the i-th kind of the precedence list exactly when it carries that
      kind's field and none of the fields before it. */
  lemma ClassifyPrecedence(e: MessagingEvent, i: nat)
    requires i < |Precedence|
    ensures Classify(e) == Precedence[i]
        <==> Carries(e, Precedence[i]) && forall j :: 0 <= j < i ==> !Carries(e, Precedence[j])
  {
    ClassifyIsFirstCarried(e);
    FirstCarriedAt(e, Precedence, i);
  }

  /** An event with none of the six fields reaches no handler (it is only logged). */
  lemma ClassifyUnknown(e: MessagingEvent)
    ensures Classify(e) == Unknown <==> forall j :: 0 <= j < |Precedence| ==> !Carries(e, Precedence[j])
  {
    ClassifyIsFirstCarried(e);
    FirstCarriedNone(e, Precedence);
  }
}
