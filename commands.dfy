/** The command router of `receivedMessage`: an ordered table of case-insensitive patterns (ten
    anchored at both ends, the `vis` one only at the start), the first match wins, and the fixed
    reply texts. */
module Commands {
  import opened Wrappers
  import opened Strings

  /** The four shapes the eleven regular expressions of the table take. Every `word` and `lead`
      is lower-case ASCII. */
  datatype Pattern =
    | Exactly(word: string)     // /^word$/i
    | StartsWith(word: string)  // /^word/i, not anchored at the end
    | Phrase(lead: string)      // /^lead([0-9a-zA-Z ]+)$/i
    | Order(lead: string)       // /^lead([0-9]+) ([0-9a-zA-Z ]+)$/i

  /** What a handler's action does. */
  datatype Action = BuyShares | BuyWorth | SellShares | SellWorth | ListOrders | CancelOrder
                  | ShowStocks | PriceOf | ShowHelp | NewsOf | Visualize

  /** One element of the `handlers` array: `getsUser` is whether it has a `getUser` lookup. */
  datatype Handler = Handler(command: Pattern, getsUser: bool, action: Action)

  const Handlers: seq<Handler> := [
    Handler(Order("buy "), true, BuyShares),
    Handler(Order("buy $"), true, BuyWorth),
    Handler(Order("sell "), true, SellShares),
    Handler(Order("sell $"), true, SellWorth),
    Handler(Exactly("list"), true, ListOrders),
    Handler(Exactly("cancel"), true, CancelOrder),
    Handler(Exactly("stocks"), false, ShowStocks),
    Handler(Phrase("price of "), false, PriceOf),
    Handler(Exactly("help"), false, ShowHelp),
    Handler(Phrase("news of "), false, NewsOf),
    Handler(StartsWith("vis"), false, Visualize)
  ]

  /** The literal text a pattern starts with. */
  function Lead(p: Pattern): string {
    match p
    case Exactly(w) => w
    case StartsWith(w) => w
    case Phrase(l) => l
    case Order(l) => l
  }

  /** The number of capture groups. */
  function Arity(p: Pattern): nat {
    match p
    case Exactly(_) => 0
    case StartsWith(_) => 0
    case Phrase(_) => 1
    case Order(_) => 2
  }

  /** `^word` followed by what `rest` accepts: the text begins with the lead, up to case. */
  predicate HasLead(text: string, lead: string) {
    |lead| <= |text| && FoldEq(text[..|lead|], lead)
  }

  /** The groups of `^lead([0-9a-zA-Z ]+)$`. */
  function MatchPhrase(lead: string, text: string): Option<seq<string>> {
    if |lead| < |text| && HasLead(text, lead) && AllNameChars(text[|lead|..]) then
      Some([text[|lead|..]])
    else None
  }

  /** The groups of `([0-9]+) ([0-9a-zA-Z ]+)$` read from the start of `rest`: the greedy digit
      run must be followed by the space, so backtracking into it can never help. */
  function MatchCountName(rest: string): Option<seq<string>> {
    var n := DigitRun(rest);
    if 0 < n && n + 1 < |rest| && rest[n] == ' ' && AllNameChars(rest[n + 1..]) then
      Some([rest[..n], rest[n + 1..]])
    else None
  }

  /** The groups of `^lead([0-9]+) ([0-9a-zA-Z ]+)$`. */
  function MatchOrder(lead: string, text: string): Option<seq<string>> {
    if |lead| < |text| && HasLead(text, lead) then MatchCountName(text[|lead|..]) else None
  }

  /** Matching a handler's pattern against the text and keeping only the capture groups, without
      the whole match: the groups when the pattern matches. Captures keep the case of the text. */
  function Match(p: Pattern, text: string): (r: Option<seq<string>>)
    ensures r.Some? ==> |r.value| == Arity(p)
    ensures r.Some? ==> HasLead(text, Lead(p))
  {
    match p
    case Exactly(w) => if FoldEq(text, w) then Some([]) else None
    case StartsWith(w) => if HasLead(text, w) then Some([]) else None
    case Phrase(lead) => MatchPhrase(lead, text)
    case Order(lead) => MatchOrder(lead, text)
  }

  /** Reference definition of a match: the text is the lead (in any case) followed by the
      captures, each of the character class its group requires. */
  predicate Accepts(p: Pattern, text: string, params: seq<string>) {
    match p
    case Exactly(w) => params == [] && FoldEq(text, w)
    case StartsWith(w) => params == [] && HasLead(text, w)
    case Phrase(lead) =>
      && |params| == 1 && params[0] != [] && AllNameChars(params[0])
      && HasLead(text, lead)
      && text[|lead|..] == params[0]
    case Order(lead) =>
      && |params| == 2 && params[0] != [] && AllDigits(params[0])
      && params[1] != [] && AllNameChars(params[1])
      && HasLead(text, lead)
      && text[|lead|..] == params[0] + " " + params[1]
  }

  /** The matcher finds exactly the decompositions the reference definition allows; in
      particular an order's share count is never split, since a space must follow it. */
  lemma MatchAccepts(p: Pattern, text: string, params: seq<string>)
    ensures Match(p, text) == Some(params) <==> Accepts(p, text, params)
  {
    match p
    case Exactly(_) =>
    case StartsWith(_) =>
    case Phrase(lead) =>
      if Accepts(p, text, params) {
        assert params == [params[0]];
      }
    case Order(lead) =>
      if Match(p, text) == Some(params) {
        var rest := text[|lead|..];
        var n := DigitRun(rest);
        assert rest == rest[..n] + " " + rest[n + 1..];
      }
      if Accepts(p, text, params) {
        var rest := text[|lead|..];
        assert rest == params[0] + (" " + params[1]);
        DigitRunOf(params[0], " " + params[1]);
        var n := DigitRun(rest);
        assert n == |params[0]|;
        assert rest[n] == ' ';
        assert rest[..n] == params[0];
        assert rest[n + 1..] == params[1];
        assert params == [params[0], params[1]];
      }
  }

  /** A match agrees, up to case, with the pattern's lead at every position of the lead. */
  lemma MatchFollowsLead(p: Pattern, text: string, k: nat)
    requires Match(p, text).Some? && k < |Lead(p)|
    ensures Fold(text[k]) == Fold(Lead(p)[k])
  {
    assert text[..|Lead(p)|][k] == text[k];
  }

  /** The dollar form of an order never matches a text the share-count form matches. */
  lemma DollarAndCountFormsDisjoint(lead: string, text: string)
    requires MatchOrder(lead, text).Some?
    ensures MatchOrder(lead + "$", text).None?
  {
    var rest := text[|lead|..];
    assert DigitRun(rest) > 0;
    assert rest[0] == text[|lead|];
    assert IsDigit(text[|lead|]);
    assert (lead + "$")[|lead|] == '$';
    if |lead + "$"| <= |text| {
      assert text[..|lead + "$"|][|lead|] == text[|lead|];
    }
  }

  /** A pattern does not match a text whose k-th character differs, up to case, from the lead's. */
  lemma LeadMismatch(p: Pattern, text: string, k: nat)
    requires k < |Lead(p)| && k < |text| && Fold(text[k]) != Fold(Lead(p)[k])
    ensures Match(p, text).None?
  {
    if |Lead(p)| <= |text| {
      assert text[..|Lead(p)|][k] == text[k];
    }
  }

  /** The two `buy` handlers and the two `sell` handlers are mutually exclusive, whichever
      matches first. */
  lemma OrderHandlersDisjoint(text: string)
    ensures !(Match(Handlers[0].command, text).Some? && Match(Handlers[1].command, text).Some?)
    ensures !(Match(Handlers[2].command, text).Some? && Match(Handlers[3].command, text).Some?)
  {
    assert "buy " + "$" == "buy $" && "sell " + "$" == "sell $";
    assert Handlers[0].command == Order("buy ") && Handlers[1].command == Order("buy $");
    assert Handlers[2].command == Order("sell ") && Handlers[3].command == Order("sell $");
    if MatchOrder("buy ", text).Some? {
      DollarAndCountFormsDisjoint("buy ", text);
    }
    if MatchOrder("sell ", text).Some? {
      DollarAndCountFormsDisjoint("sell ", text);
    }
  }

  /** A proof aid for `HandlersDisjoint`: the first two letters of each handler's keyword, in
      table order, so that `FirstLetters[i]` and `SecondLetters[i]` are `Lead(Handlers[i].command)[0]`
      and `[1]` (checked by `HandlerInitials`). Only the two `buy` and the two `sell` handlers
      share both letters. */
  const FirstLetters := "bbsslcsphnv"
  const SecondLetters := "uueeiatreei"

  lemma HandlerInitials(i: nat)
    requires i < |Handlers|
    ensures |Lead(Handlers[i].command)| >= 2
    ensures Lead(Handlers[i].command)[0] == FirstLetters[i] && Lead(Handlers[i].command)[1] == SecondLetters[i]
    ensures 'a' <= FirstLetters[i] <= 'z' && 'a' <= SecondLetters[i] <= 'z'
  {
  }

  lemma InitialsDiffer(i: nat, j: nat)
    requires i < |Handlers| && j < |Handlers| && i != j
    requires !(i < 2 && j < 2) && !(2 <= i < 4 && 2 <= j < 4)
    ensures FirstLetters[i] != FirstLetters[j] || SecondLetters[i] != SecondLetters[j]
  {
  }

  /** No text matches two different handlers of the table, so the order of the table never
      decides which handler runs. */
  lemma HandlersDisjoint(text: string, i: nat, j: nat)
    requires i < |Handlers| && j < |Handlers| && i != j
    requires Match(Handlers[i].command, text).Some?
    ensures Match(Handlers[j].command, text).None?
  {
    if (i < 2 && j < 2) || (2 <= i < 4 && 2 <= j < 4) {
      OrderHandlersDisjoint(text);
    } else {
      var p, q := Handlers[i].command, Handlers[j].command;
      HandlerInitials(i);
      HandlerInitials(j);
      InitialsDiffer(i, j);
      MatchFollowsLead(p, text, 0);
      MatchFollowsLead(p, text, 1);
      if FirstLetters[i] != FirstLetters[j] {
        LeadMismatch(q, text, 0);
      } else {
        LeadMismatch(q, text, 1);
      }
    }
  }

  predicate AllFoldEq(a: seq<string>, b: seq<string>) {
    |a| == |b| && forall i :: 0 <= i < |a| ==> FoldEq(a[i], b[i])
  }

  /** Texts equal up to case agree on whether they are made of `[0-9a-zA-Z ]` only. */
  lemma NameCharsIgnoreCase(a: string, b: string)
    requires FoldEq(a, b)
    ensures AllNameChars(a) == AllNameChars(b)
  {
    forall i | 0 <= i < |a| ensures IsNameChar(a[i]) == IsNameChar(b[i]) {
      FoldKeepsClasses(a[i], b[i]);
    }
  }

  lemma FoldEqSlices(a: string, b: string, i: nat, j: nat)
    requires FoldEq(a, b) && i <= j <= |a|
    ensures FoldEq(a[i..j], b[i..j])
  {
    forall k | 0 <= k < j - i ensures Fold(a[i..j][k]) == Fold(b[i..j][k]) {
      assert a[i..j][k] == a[i + k] && b[i..j][k] == b[i + k];
    }
  }

  lemma CountNameIgnoresCase(r1: string, r2: string)
    requires FoldEq(r1, r2)
    ensures MatchCountName(r1).Some? == MatchCountName(r2).Some?
    ensures MatchCountName(r1).Some? ==> AllFoldEq(MatchCountName(r1).value, MatchCountName(r2).value)
  {
    DigitRunIgnoresCase(r1, r2);
    var d := DigitRun(r1);
    if d + 1 < |r1| {
      FoldEqSlices(r1, r2, d + 1, |r1|);
      assert r1[d + 1..] == r1[d + 1..|r1|] && r2[d + 1..] == r2[d + 1..|r2|];
      NameCharsIgnoreCase(r1[d + 1..], r2[d + 1..]);
      assert Fold(r1[d]) == Fold(r2[d]);
      FoldEqSlices(r1, r2, 0, d);
      assert r1[..d] == r1[0..d] && r2[..d] == r2[0..d];
    }
  }

  lemma OrderIgnoresCase(lead: string, t1: string, t2: string)
    requires FoldEq(t1, t2)
    ensures MatchOrder(lead, t1).Some? == MatchOrder(lead, t2).Some?
    ensures MatchOrder(lead, t1).Some? ==> AllFoldEq(MatchOrder(lead, t1).value, MatchOrder(lead, t2).value)
  {
    var n := |lead|;
    if n < |t1| {
      FoldEqSlices(t1, t2, 0, n);
      assert t1[..n] == t1[0..n] && t2[..n] == t2[0..n];
      FoldEqSlices(t1, t2, n, |t1|);
      assert t1[n..] == t1[n..|t1|] && t2[n..] == t2[n..|t2|];
      CountNameIgnoresCase(t1[n..], t2[n..]);
    }
  }

  lemma PhraseIgnoresCase(lead: string, t1: string, t2: string)
    requires FoldEq(t1, t2)
    ensures MatchPhrase(lead, t1).Some? == MatchPhrase(lead, t2).Some?
    ensures MatchPhrase(lead, t1).Some? ==> AllFoldEq(MatchPhrase(lead, t1).value, MatchPhrase(lead, t2).value)
  {
    var n := |lead|;
    if n < |t1| {
      FoldEqSlices(t1, t2, 0, n);
      assert t1[..n] == t1[0..n] && t2[..n] == t2[0..n];
      FoldEqSlices(t1, t2, n, |t1|);
      assert t1[n..] == t1[n..|t1|] && t2[n..] == t2[n..|t2|];
      NameCharsIgnoreCase(t1[n..], t2[n..]);
    }
  }

  /** Matching is case-insensitive: texts equal up to case match the same patterns, with
      captures equal up to case. */
  lemma MatchIgnoresCase(p: Pattern, t1: string, t2: string)
    requires FoldEq(t1, t2)
    ensures Match(p, t1).Some? == Match(p, t2).Some?
    ensures Match(p, t1).Some? ==> AllFoldEq(Match(p, t1).value, Match(p, t2).value)
  {
    match p
    case Exactly(w) =>
    case StartsWith(w) =>
      if |w| <= |t1| {
        FoldEqSlices(t1, t2, 0, |w|);
        assert t1[..|w|] == t1[0..|w|] && t2[..|w|] == t2[0..|w|];
      }
    case Phrase(lead) => PhraseIgnoresCase(lead, t1, t2);
    case Order(lead) => OrderIgnoresCase(lead, t1, t2);
  }

  /** Where the first handler that matches, and its captures. */
  datatype Hit = Hit(index: nat, params: seq<string>)

  /** The first handler of `table` at or after `from` whose pattern matches. */
  function FirstMatch(table: seq<Handler>, text: string, from: nat): (r: Option<Hit>)
    requires from <= |table|
    ensures r.Some? ==> from <= r.value.index < |table|
                        && Match(table[r.value.index].command, text) == Some(r.value.params)
                        && forall j :: from <= j < r.value.index ==> Match(table[j].command, text).None?
    ensures r.None? ==> forall j :: from <= j < |table| ==> Match(table[j].command, text).None?
    decreases |table| - from
  {
    if from == |table| then None
    else
      match Match(table[from].command, text)
      case Some(params) => Some(Hit(from, params))
      case None => FirstMatch(table, text, from + 1)
  }

  /** The scan over the handler table that stops at the first handler whose pattern matches. */
  method FindHandler(text: string) returns (hit: Option<Hit>)
    ensures hit == FirstMatch(Handlers, text, 0)
  {
    for i := 0 to |Handlers|
      invariant FirstMatch(Handlers, text, 0) == FirstMatch(Handlers, text, i)
    {
      var results := Match(Handlers[i].command, text);
      if results.Some? {
        return Some(Hit(i, results.value));
      }
    }
    return None;
  }

  /** How `receivedMessage` treats a message's text. */
  datatype Routing = NoText | Run(index: nat, params: seq<string>) | Unsupported(text: string)

  /** A missing or empty text is answered before any handler is tried; otherwise the first
      matching handler runs, or none does. */
  function Route(text: Option<string>): (r: Routing)
    ensures r.NoText? <==> text.None? || text.value == ""
    ensures r.Run? ==> r.index < |Handlers| && |r.params| == Arity(Handlers[r.index].command)
    ensures r.Unsupported? ==> r.text == text.value
  {
    if text.None? || text.value == "" then NoText
    else
      match FirstMatch(Handlers, text.value, 0)
      case Some(hit) => Run(hit.index, hit.params)
      case None => Unsupported(text.value)
  }

  /** A non-empty text runs handler i with params exactly when handler i is the first that matches. */
  lemma RouteIsFirstMatch(text: string, i: nat, params: seq<string>)
    requires text != "" && i < |Handlers|
    ensures Route(Some(text)) == Run(i, params)
        <==> Match(Handlers[i].command, text) == Some(params)
             && forall j :: 0 <= j < i ==> Match(Handlers[j].command, text).None?
  {
  }

  /** A non-empty text is unsupported exactly when no handler matches it. */
  lemma RouteUnsupported(text: string)
    requires text != ""
    ensures Route(Some(text)) == Unsupported(text)
        <==> forall j :: 0 <= j < |Handlers| ==> Match(Handlers[j].command, text).None?
  {
  }

  /** A text of the form handler i describes runs handler i with exactly those captures. */
  lemma RouteOfHandler(text: string, i: nat, params: seq<string>)
    requires text != "" && i < |Handlers| && Accepts(Handlers[i].command, text, params)
    ensures Route(Some(text)) == Run(i, params)
  {
    MatchAccepts(Handlers[i].command, text, params);
    forall j | 0 <= j < i ensures Match(Handlers[j].command, text).None? {
      HandlersDisjoint(text, i, j);
    }
    RouteIsFirstMatch(text, i, params);
  }

  /** Texts equal up to case select the same handler of any table, with captures equal up to case. */
  lemma {:induction false} FirstMatchIgnoresCase(table: seq<Handler>, t1: string, t2: string, from: nat)
    requires FoldEq(t1, t2) && from <= |table|
    ensures FirstMatch(table, t1, from).Some? == FirstMatch(table, t2, from).Some?
    ensures FirstMatch(table, t1, from).Some? ==>
              FirstMatch(table, t1, from).value.index == FirstMatch(table, t2, from).value.index
              && AllFoldEq(FirstMatch(table, t1, from).value.params, FirstMatch(table, t2, from).value.params)
    decreases |table| - from
  {
    if from < |table| {
      MatchIgnoresCase(table[from].command, t1, t2);
      FirstMatchIgnoresCase(table, t1, t2, from + 1);
    }
  }

  /** Routing is case-insensitive: `BUY 10 aapl` and `buy 10 aapl` go the same way. */
  lemma RouteIgnoresCase(t1: string, t2: string)
    requires FoldEq(t1, t2)
    ensures Route(Some(t1)).NoText? == Route(Some(t2)).NoText?
    ensures Route(Some(t1)).Unsupported? == Route(Some(t2)).Unsupported?
    ensures Route(Some(t1)).Run? ==>
              (Route(Some(t2)).Run? && Route(Some(t1)).index == Route(Some(t2)).index
               && AllFoldEq(Route(Some(t1)).params, Route(Some(t2)).params))
  {
    FirstMatchIgnoresCase(Handlers, t1, t2, 0);
  }

  /** The six trading actions, the ones that need the user's linked account. */
  predicate IsTrading(a: Action) {
    a.BuyShares? || a.BuyWorth? || a.SellShares? || a.SellWorth? || a.ListOrders? || a.CancelOrder?
  }

  /** The handlers with a user lookup are exactly the first six, the trading ones. */
  lemma GatedHandlers(i: nat)
    requires i < |Handlers|
    ensures Handlers[i].getsUser <==> i < 6
    ensures Handlers[i].getsUser <==> IsTrading(Handlers[i].action)
  {
  }

  /** The text sent when no handler matches. */
  const FallbackOpen := "I haven't supported '"
  const FallbackClose := "' yet. Please reply 'help' to check all the commands available."

  /** The text sent when no handler matches: the user's text, verbatim, between the quotes. */
  function FallbackText(text: string): (s: string)
    ensures |s| == |FallbackOpen| + |text| + |FallbackClose|
    ensures s[..|FallbackOpen|] == FallbackOpen && s[|FallbackOpen| + |text|..] == FallbackClose
    ensures s[|FallbackOpen|..|FallbackOpen| + |text|] == text
  {
    FallbackOpen + text + FallbackClose
  }

  /** Different unsupported texts get different fallback replies. */
  lemma FallbackTextInjective(a: string, b: string)
    requires FallbackText(a) == FallbackText(b)
    ensures a == b
  {
    var n := |FallbackOpen|;
    assert a == FallbackText(a)[n..n + |a|];
    assert b == FallbackText(b)[n..n + |b|];
  }

  /** The number of arguments each action receives. */
  function ParamCount(a: Action): nat {
    match a
    case BuyShares => 2
    case BuyWorth => 2
    case SellShares => 2
    case SellWorth => 2
    case PriceOf => 1
    case NewsOf => 1
    case _ => 0
  }

  /** Every handler's action receives as many arguments as its pattern has groups. */
  lemma ArityAgrees(i: nat)
    requires i < |Handlers|
    ensures Arity(Handlers[i].command) == ParamCount(Handlers[i].action)
  {
  }

  /** The reply text the action of a gated handler would send once it runs. The `buy $` action
      reads the undeclared `numOfShares` before its reply, so it never sends one. */
  function GatedReply(a: Action, params: seq<string>): (r: Option<string>)
    requires |params| == ParamCount(a)
    ensures r.Some? <==> IsTrading(a) && !a.BuyWorth?
  {
    match a
    case BuyShares => Some("Bought " + params[0] + " shares of " + params[1])
    case SellShares => Some("Sold " + params[0] + " shares of " + params[1])
    case SellWorth => Some("Sold 20 shares of " + params[1] + " worth $" + params[0])
    case ListOrders => Some("List all orders")
    case CancelOrder => Some("100 units Apple purchase order is canceled")
    case _ => None
  }

  /** `buy 100 Apple` runs the first handler with `["100", "Apple"]`, whose reply is
      `Bought 100 shares of Apple`. */
  lemma BuyExample()
    ensures Route(Some("buy 100 Apple")) == Run(0, ["100", "Apple"])
    ensures GatedReply(Handlers[0].action, ["100", "Apple"]) == Some("Bought 100 shares of Apple")
  {
    var text := "buy 100 Apple";
    assert text[..4] == "buy ";
    assert text[4..] == "100" + " " + "Apple";
    assert Handlers[0] == Handler(Order("buy "), true, BuyShares);
    RouteOfHandler(text, 0, ["100", "Apple"]);
    var params := ["100", "Apple"];
    assert params[0] == "100" && params[1] == "Apple";
    assert "Bought " + "100" + " shares of " + "Apple" == "Bought 100 shares of Apple";
    assert GatedReply(BuyShares, params) == Some("Bought " + "100" + " shares of " + "Apple");
  }

  /** `price of <name>` asks for the price of exactly that name, whatever its case. */
  lemma PriceOfRoutes(lead: string, name: string)
    requires FoldEq(lead, "price of ") && name != "" && AllNameChars(name)
    ensures Route(Some(lead + name)) == Run(7, [name])
  {
    var text := lead + name;
    assert text[..|lead|] == lead && text[|lead|..] == name;
    RouteOfHandler(text, 7, [name]);
  }

  /** `stocks`, in any case, runs the stock-list handler. */
  lemma StocksRoutes(text: string)
    requires FoldEq(text, "stocks")
    ensures Route(Some(text)) == Run(6, [])
  {
    RouteOfHandler(text, 6, []);
  }

  /** `help`, in any case, runs the help handler. */
  lemma HelpRoutes(text: string)
    requires FoldEq(text, "help")
    ensures Route(Some(text)) == Run(8, [])
  {
    RouteOfHandler(text, 8, []);
  }

  /** Any text that begins with `vis`, in any case, runs the image handler. */
  lemma VisualizeRoutes(text: string)
    requires HasLead(text, "vis")
    ensures Route(Some(text)) == Run(10, [])
  {
    RouteOfHandler(text, 10, []);
  }

  datatype Stock = Stock(name: string, code: string)

  const StockNames: seq<Stock> := [
    Stock("Apple Inc", "APPL"),
    Stock("Microsoft Corp", "MSFT"),
    Stock("Facebook Inc", "FB"),
    Stock("International Business Machines", "IBM"),
    Stock("Alphabet Class C", "GOOGL"),
    Stock("Salesforce.Com Inc", "CRM")
  ]

  /** The reply of `stocks`: the stock lines joined with blank lines. */
  function StocksMessage(): string {
    JoinWith(StockLines(StockNames), "\n\n")
  }

  /** The reply of `stocks` is each code over its name, in table order, separated by blank lines. */
  lemma StocksMessageText()
    ensures StocksMessage() == "APPL" + "\n" + "Apple Inc" + "\n\n"
               + ("MSFT" + "\n" + "Microsoft Corp" + "\n\n"
               + ("FB" + "\n" + "Facebook Inc" + "\n\n"
               + ("IBM" + "\n" + "International Business Machines" + "\n\n"
               + ("GOOGL" + "\n" + "Alphabet Class C" + "\n\n"
               + ("CRM" + "\n" + "Salesforce.Com Inc")))))
  {
    var lines := StockLines(StockNames);
    assert lines == ["APPL" + "\n" + "Apple Inc", "MSFT" + "\n" + "Microsoft Corp", "FB" + "\n" + "Facebook Inc",
                     "IBM" + "\n" + "International Business Machines", "GOOGL" + "\n" + "Alphabet Class C",
                     "CRM" + "\n" + "Salesforce.Com Inc"];
    var sep := "\n\n";
    assert JoinWith(lines[5..], sep) == lines[5];
    assert JoinWith(lines[4..], sep) == lines[4] + sep + JoinWith(lines[5..], sep);
    assert JoinWith(lines[3..], sep) == lines[3] + sep + JoinWith(lines[4..], sep);
    assert JoinWith(lines[2..], sep) == lines[2] + sep + JoinWith(lines[3..], sep);
    assert JoinWith(lines[1..], sep) == lines[1] + sep + JoinWith(lines[2..], sep);
    assert JoinWith(lines, sep) == lines[0] + sep + JoinWith(lines[1..], sep);
  }

  /** Each stock as its code, a line break and its name. */
  function StockLines(stocks: seq<Stock>): (lines: seq<string>)
    ensures |lines| == |stocks|
    ensures forall i :: 0 <= i < |stocks| ==> lines[i] == stocks[i].code + "\n" + stocks[i].name
  {
    if stocks == [] then [] else [stocks[0].code + "\n" + stocks[0].name] + StockLines(stocks[1..])
  }

  datatype HelpEntry = HelpEntry(cmd: string, message: string)

  const HelpCommands: seq<HelpEntry> := [
    HelpEntry("buy 100 APPL", "Buy 100 units Apple stock"),
    HelpEntry("buy $100 APPL", "Buy Apple stocks worth 100 dollars"),
    HelpEntry("sell 100 APPL", "Sell 100 units Apple stock"),
    HelpEntry("sell $100 APPL", "Sell Apple stocks worth 100 dollars"),
    HelpEntry("list", "List all the orders placed"),
    HelpEntry("stocks", "List stock code for popular tech companies"),
    HelpEntry("price of APPL", "Get the current stock price for Apple"),
    HelpEntry("news of APPL", "Show news and the probability of making profit for given stock"),
    HelpEntry("vis APPL", "Visualize the change of profits and investments"),
    HelpEntry("cancel", "Cancel the last order")
  ]

  /** The reply of `help`: the help lines joined with blank lines. */
  function HelpMessage(): string {
    JoinWith(HelpLines(HelpCommands), "\n\n")
  }

  /** The ten lines of the help list, in order; the help reply joins them with blank lines. */
  lemma HelpLinesText()
    ensures HelpLines(HelpCommands) == ["buy 100 APPL" + " => " + "Buy 100 units Apple stock",
                                         "buy $100 APPL" + " => " + "Buy Apple stocks worth 100 dollars",
                                         "sell 100 APPL" + " => " + "Sell 100 units Apple stock",
                                         "sell $100 APPL" + " => " + "Sell Apple stocks worth 100 dollars",
                                         "list" + " => " + "List all the orders placed",
                                         "stocks" + " => " + "List stock code for popular tech companies",
                                         "price of APPL" + " => " + "Get the current stock price for Apple",
                                         "news of APPL" + " => " + "Show news and the probability of making profit for given stock",
                                         "vis APPL" + " => " + "Visualize the change of profits and investments",
                                         "cancel" + " => " + "Cancel the last order"]
  {
    var h := HelpCommands;
    var lines := HelpLines(h);
    assert lines == [h[0].cmd + " => " + h[0].message, h[1].cmd + " => " + h[1].message,
                     h[2].cmd + " => " + h[2].message, h[3].cmd + " => " + h[3].message,
                     h[4].cmd + " => " + h[4].message, h[5].cmd + " => " + h[5].message,
                     h[6].cmd + " => " + h[6].message, h[7].cmd + " => " + h[7].message,
                     h[8].cmd + " => " + h[8].message, h[9].cmd + " => " + h[9].message];
  }

  /** The reply of `help` is one `cmd => message` line per command, in list order, separated by
      blank lines. */
  lemma HelpMessageText()
    ensures HelpMessage() == "buy 100 APPL" + " => " + "Buy 100 units Apple stock" + "\n\n"
               + ("buy $100 APPL" + " => " + "Buy Apple stocks worth 100 dollars" + "\n\n"
               + ("sell 100 APPL" + " => " + "Sell 100 units Apple stock" + "\n\n"
               + ("sell $100 APPL" + " => " + "Sell Apple stocks worth 100 dollars" + "\n\n"
               + ("list" + " => " + "List all the orders placed" + "\n\n"
               + ("stocks" + " => " + "List stock code for popular tech companies" + "\n\n"
               + ("price of APPL" + " => " + "Get the current stock price for Apple" + "\n\n"
               + ("news of APPL" + " => " + "Show news and the probability of making profit for given stock" + "\n\n"
               + ("vis APPL" + " => " + "Visualize the change of profits and investments" + "\n\n"
               + ("cancel" + " => " + "Cancel the last order")))))))))
  {
    var lines := HelpLines(HelpCommands);
    HelpLinesText();
    var sep := "\n\n";
    assert JoinWith(lines[9..], sep) == lines[9];
    assert JoinWith(lines[8..], sep) == lines[8] + sep + JoinWith(lines[9..], sep);
    assert JoinWith(lines[7..], sep) == lines[7] + sep + JoinWith(lines[8..], sep);
    assert JoinWith(lines[6..], sep) == lines[6] + sep + JoinWith(lines[7..], sep);
    assert JoinWith(lines[5..], sep) == lines[5] + sep + JoinWith(lines[6..], sep);
    assert JoinWith(lines[4..], sep) == lines[4] + sep + JoinWith(lines[5..], sep);
    assert JoinWith(lines[3..], sep) == lines[3] + sep + JoinWith(lines[4..], sep);
    assert JoinWith(lines[2..], sep) == lines[2] + sep + JoinWith(lines[3..], sep);
    assert JoinWith(lines[1..], sep) == lines[1] + sep + JoinWith(lines[2..], sep);
    assert JoinWith(lines, sep) == lines[0] + sep + JoinWith(lines[1..], sep);
  }

  /** Each help entry as its command, an arrow and its description. */
  function HelpLines(commands: seq<HelpEntry>): (lines: seq<string>)
    ensures |lines| == |commands|
    ensures forall i :: 0 <= i < |commands| ==> lines[i] == commands[i].cmd + " => " + commands[i].message
  {
    if commands == [] then [] else [commands[0].cmd + " => " + commands[0].message] + HelpLines(commands[1..])
  }

  /** The handler each `help` line documents, in the order of the help list. */
  const Documented: seq<nat> := [0, 1, 2, 3, 4, 6, 7, 9, 10, 5]

  /** The help text documents every handler except `help` itself, each once. */
  lemma HelpCoversHandlers()
    ensures forall h :: 0 <= h < |Handlers| && h != 8 ==> h in Documented
    ensures 8 !in Documented && |Documented| == |HelpCommands|
    ensures forall a, b :: 0 <= a < b < |Documented| ==> Documented[a] != Documented[b]
  {
  }

  /** An example order command: `lead` then a share count or amount, a space and a name. */
  lemma ExampleOrderRoutes(text: string, lead: string, h: nat, amount: string, name: string)
    requires h < |Handlers| && Handlers[h].command == Order(lead)
    requires text == lead + amount + " " + name && amount != "" && AllDigits(amount) && name != "" && AllNameChars(name)
    ensures Route(Some(text)) == Run(h, [amount, name])
  {
    assert text[..|lead|] == lead && text[|lead|..] == amount + " " + name;
    RouteOfHandler(text, h, [amount, name]);
  }

  /** An example phrase command: `lead` then a name. */
  lemma ExamplePhraseRoutes(text: string, lead: string, h: nat, name: string)
    requires h < |Handlers| && Handlers[h].command == Phrase(lead)
    requires text == lead + name && name != "" && AllNameChars(name)
    ensures Route(Some(text)) == Run(h, [name])
  {
    assert text[..|lead|] == lead && text[|lead|..] == name;
    RouteOfHandler(text, h, [name]);
  }

  /** Every example command of the help text is understood by the handler it documents. */
  lemma HelpCommandsRoute(i: nat)
    requires i < |HelpCommands|
    ensures Route(Some(HelpCommands[i].cmd)).Run?
    ensures Route(Some(HelpCommands[i].cmd)).index == Documented[i]
  {
    var text := HelpCommands[i].cmd;
    var h := Documented[i];
    if i == 0 {
      ExampleOrderRoutes(text, "buy ", h, "100", "APPL");
    } else if i == 1 {
      ExampleOrderRoutes(text, "buy $", h, "100", "APPL");
    } else if i == 2 {
      ExampleOrderRoutes(text, "sell ", h, "100", "APPL");
    } else if i == 3 {
      ExampleOrderRoutes(text, "sell $", h, "100", "APPL");
    } else if i == 6 {
      ExamplePhraseRoutes(text, "price of ", h, "APPL");
    } else if i == 7 {
      ExamplePhraseRoutes(text, "news of ", h, "APPL");
    } else if i == 8 {
      assert text[..3] == "vis";
      RouteOfHandler(text, h, []);
    } else {
      assert Handlers[h].command == Exactly(text);
      RouteOfHandler(text, h, []);
    }
  }
}
