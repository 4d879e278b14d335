/**
  The WhatsApp conversation engine: the webhook verification handshake, the
  order-text parser, and the command dispatch of an incoming message, which
  reads and writes the user's session.

  An order typed in the chat is posted to the bot's own order endpoint; the
  answer that endpoint gives is a parameter here (`ApiOutcome`), in the terms
  of the order-creation model.
 */
module Conversation {
  import opened JsText
  import OrderCreation
  import opened RedisSessions

  /* ---------------- webhook verification ---------------- */

  /** The answer to `GET /webhook`. */
  datatype VerifyAnswer = Verified(challenge: Option<string>) | Forbidden

  /**
    The subscription handshake: 200 with the challenge when the mode is
    "subscribe" and the token equals the configured one, 403 otherwise.
    Absent query values and an unset `VERIFY_TOKEN` are `None`, compared as
    JavaScript compares `undefined`.
   */
  function VerifyWebhook(mode: Option<string>, token: Option<string>, challenge: Option<string>,
                         verifyToken: Option<string>): (a: VerifyAnswer)
    ensures a.Verified? <==> mode == Some("subscribe") && token == verifyToken
    ensures a.Verified? ==> a.challenge == challenge
  {
    if mode == Some("subscribe") && token == verifyToken then Verified(challenge) else Forbidden
  }

  /**
    With a token configured, a request without the right token is refused;
    with none configured, a request that omits the token is accepted.
   */
  lemma VerifyWebhookTokenCases(challenge: Option<string>, configured: string, sent: Option<string>)
    ensures sent != Some(configured) ==> VerifyWebhook(Some("subscribe"), sent, challenge, Some(configured)) == Forbidden
    ensures VerifyWebhook(Some("subscribe"), None, challenge, None) == Verified(challenge)
  {
  }

  /* ---------------- parseOrderText ---------------- */

  /** One item the parser recognises: `{ name, quantity }`. */
  datatype ParsedItem = ParsedItem(name: string, quantity: int)

  /**
    One comma-separated segment: trimmed, split on single spaces; the first
    token is read by `parseInt`, the remaining tokens joined with one space
    are the name. Kept only with a non-empty name and a positive quantity.
   */
  function ParseSegment(segment: string): (r: Option<ParsedItem>)
    ensures r.Some? ==> r.value.name != "" && r.value.quantity > 0
  {
    var tokens := Split(Trim(segment), ' ');
    var name := Join(tokens[1..], " ");
    var qty := ParseInt(tokens[0]);
    if name != "" && qty.Some? && qty.value > 0 then Some(ParsedItem(name, qty.value)) else None
  }

  /** `parseOrderText`: the recognised items of the comma-separated segments. */
  function ParseOrderText(text: string): (items: seq<ParsedItem>)
    ensures |items| <= |Split(text, ',')|
    ensures forall i :: 0 <= i < |items| ==> items[i].name != "" && items[i].quantity > 0
  {
    FilterMapValues(Split(text, ','), ParseSegment);
    FilterMap(Split(text, ','), ParseSegment)
  }

  /** The `forEach` loop of `parseOrderText`: each segment's item, when recognised, is pushed in turn. */
  method ParseOrder(text: string) returns (result: seq<ParsedItem>)
    ensures result == ParseOrderText(text)
  {
    var segments := Split(text, ',');
    result := [];
    var i := 0;
    while i < |segments|
      invariant 0 <= i <= |segments|
      invariant result == FilterMap(segments[..i], ParseSegment)
    {
      var item := ParseSegment(segments[i]);
      assert FilterMap(segments[..i + 1], ParseSegment) == result + (if item.Some? then [item.value] else []) by {
        FilterMapStep(segments, i, ParseSegment);
      }
      if item.Some? {
        result := result + [item.value];
      }
      i := i + 1;
    }
    assert segments[..i] == segments;
  }

  /** Every element `FilterMap` produces is a value `f` gave. */
  lemma FilterMapValues<A, B>(xs: seq<A>, f: A -> Option<B>)
    ensures forall k :: 0 <= k < |FilterMap(xs, f)| ==> exists i :: 0 <= i < |xs| && f(xs[i]) == Some(FilterMap(xs, f)[k])
  {
    FilterMapLength(xs, f);
    FilterMapAt(xs, f);
    forall k | 0 <= k < |FilterMap(xs, f)|
      ensures exists i :: 0 <= i < |xs| && f(xs[i]) == Some(FilterMap(xs, f)[k])
    {
      var i := Kept(xs, f)[k];
      assert f(xs[i]) == Some(FilterMap(xs, f)[k]);
    }
  }

  /**
    The items come from distinct segments, in segment order, and every
    segment the parser recognises contributes its item.
   */
  lemma ParseOrderTextInOrder(text: string)
    ensures var items, parts, ks := ParseOrderText(text), Split(text, ','), Kept(Split(text, ','), ParseSegment);
            && |items| == |ks|
            && (forall k :: 0 <= k < |ks| ==> ks[k] < |parts| && ParseSegment(parts[ks[k]]) == Some(items[k]))
            && Increasing(ks)
            && (forall i :: 0 <= i < |parts| && ParseSegment(parts[i]).Some? ==> i in ks)
  {
    var parts := Split(text, ',');
    FilterMapLength(parts, ParseSegment);
    FilterMapAt(parts, ParseSegment);
    KeptIncreasing(parts, ParseSegment);
    KeptComplete(parts, ParseSegment);
  }

  /**
    A recognised segment reads as quantity token, one space, name: the token
    holds no space, its `parseInt` is the quantity, and the name is all of
    the trimmed segment after that first space.
   */
  lemma ParseSegmentShape(segment: string)
    requires ParseSegment(segment).Some?
    ensures var t, item := Trim(segment), ParseSegment(segment).value;
            exists k :: 0 <= k < |t| && t[k] == ' ' && ' ' !in t[..k]
                        && ParseInt(t[..k]) == Some(item.quantity) && item.name == t[k + 1..]
  {
    var t := Trim(segment);
    var parts := Split(t, ' ');
    SplitFirst(t, ' ');
    var k := |parts[0]|;
    assert t[..k] == parts[0];
    assert t[k + 1..] == Join(parts[1..], " ");
  }

  /** A segment "<n> <name>" with a positive `n` gives the item (name, n); with `n` = 0 it gives nothing. */
  lemma ParseSegmentOfNumeral(n: nat, name: string)
    requires name != [] && !IsWhitespace(name[|name| - 1])
    ensures ParseSegment(IntToString(n) + " " + name) == if n > 0 then Some(ParsedItem(name, n)) else None
  {
    var q := IntToString(n);
    var s := q + " " + name;
    assert q != [] && '0' <= q[0] <= '9' && ' ' !in q;
    assert s[0] == q[0] && s[|s| - 1] == name[|name| - 1];
    TrimOfTrimmed(s);
    assert s == q + [' '] + name;
    SplitAfterFirst(q, ' ', name);
    JoinSplit(name, ' ');
    ParseIntOfIntToString(n);
  }

  /** A segment without a space has no name, so it gives nothing. */
  lemma ParseSegmentWithoutSpace(segment: string)
    requires segment != [] && !IsWhitespace(segment[0]) && !IsWhitespace(segment[|segment| - 1])
    requires ' ' !in segment
    ensures ParseSegment(segment) == None
  {
    TrimOfTrimmed(segment);
    SplitNoSeparator(segment, ' ');
  }

  /** Text without a comma is a single segment. */
  lemma ParseOneSegment(t: string)
    requires ',' !in t
    ensures ParseOrderText(t) == if ParseSegment(t).Some? then [ParseSegment(t).value] else []
  {
    SplitNoSeparator(t, ',');
    assert [t][1..] == [];
  }

  /** The segment before the first comma is parsed on its own, and the rest of the text after it. */
  lemma ParseMoreSegments(a: string, b: string)
    requires ',' !in a
    ensures ParseOrderText(a + "," + b) == ParseOrderText(a) + ParseOrderText(b)
  {
    SplitAfterFirst(a, ',', b);
    ParseOneSegment(a);
    FilterMapAppend([a], Split(b, ','), ParseSegment);
  }

  /** A blank in front of a segment is trimmed away. */
  lemma ParseSegmentLeadingBlank(s: string)
    ensures ParseSegment(" " + s) == ParseSegment(s)
  {
    assert Trim(" " + s) == Trim(s) by {
      assert (" " + s)[1..] == s;
    }
  }

  /** Text with a comma is the text before its first comma, the comma, and the rest. */
  lemma FirstComma(s: string) returns (a: string, b: string)
    requires ',' in s
    ensures s == a + "," + b && ',' !in a
  {
    var parts := Split(s, ',');
    SplitFirst(s, ',');
    a, b := parts[0], Join(parts[1..], ",");
  }

  /** A blank in front of the whole text changes nothing. */
  lemma ParseOrderTextLeadingBlank(s: string)
    ensures ParseOrderText(" " + s) == ParseOrderText(s)
  {
    if ',' !in s {
      assert ',' !in " " + s;
      ParseOneSegment(s);
      ParseOneSegment(" " + s);
      ParseSegmentLeadingBlank(s);
    } else {
      var a, b := FirstComma(s);
      LeadingBlankBeforeComma(a, b);
    }
  }

  lemma LeadingBlankBeforeComma(a: string, b: string)
    requires ',' !in a
    ensures ParseOrderText(" " + (a + "," + b)) == ParseOrderText(a + "," + b)
  {
    assert " " + (a + "," + b) == (" " + a) + "," + b;
    assert ',' !in " " + a;
    ParseMoreSegments(a, b);
    ParseMoreSegments(" " + a, b);
    ParseOneSegment(a);
    ParseOneSegment(" " + a);
    ParseSegmentLeadingBlank(a);
  }

  /** An item the order format can carry: a positive quantity, and a name with no comma that does not end in a blank. */
  predicate Writable(item: ParsedItem) {
    item.quantity > 0 && item.name != [] && ',' !in item.name && !IsWhitespace(item.name[|item.name| - 1])
  }

  /** One item as the bot's prompt writes it: "2 apples". */
  function SegmentText(item: ParsedItem): string {
    IntToString(item.quantity) + " " + item.name
  }

  /** Items written in the format the bot's prompt asks for: "2 apples, 1 milk". */
  function FormatOrderText(items: seq<ParsedItem>): string
    requires items != []
  {
    if |items| == 1 then SegmentText(items[0]) else SegmentText(items[0]) + ", " + FormatOrderText(items[1..])
  }

  /** One writable item, written out, is a single segment that parses back to that item. */
  lemma ParseSegmentText(x: ParsedItem)
    requires Writable(x)
    ensures ',' !in SegmentText(x) && ParseOrderText(SegmentText(x)) == [x]
  {
    var seg := SegmentText(x);
    var digits := IntToString(x.quantity);
    assert ',' !in seg by {
      assert seg == digits + " " + x.name;
      assert forall i :: 0 <= i < |digits| ==> '0' <= digits[i] <= '9';
    }
    ParseSegmentOfNumeral(x.quantity, x.name);
    ParseOneSegment(seg);
  }

  /** Beyond its first item, the format is the first segment, a comma, a blank and the rest. */
  lemma FormatOrderTextCons(items: seq<ParsedItem>)
    requires |items| > 1
    ensures FormatOrderText(items) == SegmentText(items[0]) + "," + (" " + FormatOrderText(items[1..]))
  {
    CommaBlank(SegmentText(items[0]), FormatOrderText(items[1..]));
  }

  lemma CommaBlank(a: string, r: string)
    ensures a + ", " + r == a + "," + (" " + r)
  {
    assert ", " == "," + " ";
  }

  /** An order written in the prompted format is parsed back to exactly its items, in order. */
  lemma {:induction false} ParseFormatOrderText(items: seq<ParsedItem>)
    requires items != [] && forall i :: 0 <= i < |items| ==> Writable(items[i])
    ensures ParseOrderText(FormatOrderText(items)) == items
    decreases |items|
  {
    ParseSegmentText(items[0]);
    if |items| > 1 {
      assert forall i :: 0 <= i < |items[1..]| ==> Writable(items[1..][i]) by {
        assert forall i :: 0 <= i < |items[1..]| ==> items[1..][i] == items[i + 1];
      }
      ParseFormatOrderText(items[1..]);
      ParseFormatOrderTextStep(items);
    } else {
      assert items == [items[0]];
    }
  }

  /** The first segment and the rest of the format parse on their own, and their items join up. */
  lemma ParseFormatOrderTextStep(items: seq<ParsedItem>)
    requires |items| > 1
    requires ',' !in SegmentText(items[0]) && ParseOrderText(SegmentText(items[0])) == [items[0]]
    requires ParseOrderText(FormatOrderText(items[1..])) == items[1..]
    ensures ParseOrderText(FormatOrderText(items)) == items
  {
    var seg := SegmentText(items[0]);
    var rest := FormatOrderText(items[1..]);
    calc {
      ParseOrderText(FormatOrderText(items));
      { FormatOrderTextCons(items); }
      ParseOrderText(seg + "," + (" " + rest));
      { ParseMoreSegments(seg, " " + rest); }
      ParseOrderText(seg) + ParseOrderText(" " + rest);
      { ParseOrderTextLeadingBlank(rest); }
      [items[0]] + items[1..];
      items;
    }
  }

  /* ---------------- message dispatch ---------------- */

  /** An incoming message: the sender, the text body if any, and the contact's profile name (or `null`). */
  datatype Inbound = Inbound(from: string, textBody: Option<string>, contactName: JsValue)

  /** `entry[0].changes[0].value.messages`: a status webhook carries no message. */
  datatype Payload = NoMessage | Message(message: Inbound)

  /** What the order endpoint did with the bot's request: its answer, or a failure to reach it. */
  datatype ApiOutcome = ApiThrew | ApiAnswered(response: OrderCreation.CreateOrderResponse)

  /** The `name, price` rows of the product list, or the query's error. */
  datatype ProductsOutcome = ProductsError | ProductRows(rows: seq<(string, int)>)

  /** The bot's replies, by kind, with the data each one shows. */
  datatype Reply =
    | Greeting
    | Help
    | OrderPrompt
    | OrderNotUnderstood
    | OrderPlaced(orderId: int, total: int, lines: seq<OrderCreation.OrderLine>)
    | OrderFailed(error: OrderCreation.OrderError)
    | OrderUnavailable
    | StatusPlaceholder
    | ProductList(rows: seq<(string, int)>)
    | NoProducts
    | ProductsUnavailable
    | NotUnderstood(text: Option<string>)

  /** What the dispatch does to the sender's session. */
  datatype SessionOp = KeepSession | StartAwaiting | ClearSession

  /** One dispatch: the reply sent (none when the handler throws), the session change, and the order request posted. */
  datatype Step = Step(reply: Option<Reply>, op: SessionOp, request: Option<OrderCreation.OrderBody>)

  /** `message.text && message.text.body?.trim().toLowerCase()`. */
  function NormalizeText(body: Option<string>): (text: Option<string>)
    ensures text.Some? <==> body.Some?
    ensures text.Some? ==> text.value == ToLower(Trim(body.value))
    ensures text.Some? ==> forall i :: 0 <= i < |text.value| ==> !('A' <= text.value[i] <= 'Z')
    ensures text.Some? && text.value != [] ==> !IsWhitespace(text.value[0]) && !IsWhitespace(text.value[|text.value| - 1])
  {
    match body
    case None => None
    case Some(b) => Some(ToLower(Trim(b)))
  }

  /** `userSession?.state === "awaiting_order_items"`. */
  predicate IsAwaiting(session: JsValue) {
    session.JsObject? && Field(session.fields, "state") == JsString("awaiting_order_items")
  }

  /** The texts matched before the session is looked at. */
  predicate IsLeadingCommand(text: string) {
    text == "hi" || text == "hello" || text == "help" || text == "order"
  }

  /** The body the bot posts to the order endpoint: name-based items, the sender's number, the contact name. */
  function OrderRequest(items: seq<ParsedItem>, from: string, contactName: JsValue): (body: OrderCreation.OrderBody)
    ensures body.items.ItemsArray? && |body.items.items| == |items|
    ensures forall i :: 0 <= i < |items| ==>
              body.items.items[i] == OrderCreation.ItemRequest(JsString(items[i].name), JsUndefined, JsNumber(items[i].quantity))
    ensures body.customerPhone == JsString(from) && body.customerName == contactName
  {
    var requests := seq(|items|, i requires 0 <= i < |items| =>
                          OrderCreation.ItemRequest(JsString(items[i].name), JsUndefined, JsNumber(items[i].quantity)));
    OrderCreation.OrderBody(OrderCreation.ItemsArray(requests), JsString(from), contactName)
  }

  /** The reply to an order attempt: the confirmation when the endpoint answers 201, its error otherwise. */
  function OrderReply(api: ApiOutcome): (reply: Reply)
    ensures reply.OrderPlaced? <==> api.ApiAnswered? && api.response.Created?
    ensures reply.OrderUnavailable? <==> api.ApiThrew?
    ensures reply.OrderFailed? ==> api.ApiAnswered? && api.response.Rejected? && reply.error == api.response.error
    ensures reply.OrderPlaced? ==> reply.orderId == api.response.orderId && reply.total == api.response.total
                                   && reply.lines == api.response.items
  {
    match api
    case ApiThrew => OrderUnavailable
    case ApiAnswered(response) =>
      if response.Created? then OrderPlaced(response.orderId, response.total, response.items)
      else OrderFailed(response.error)
  }

  /** The product list when the query succeeds with rows, a notice when it has none, an apology on error. */
  function ProductsReply(products: ProductsOutcome): (reply: Reply)
    ensures reply == ProductsUnavailable <==> products.ProductsError?
    ensures reply == NoProducts <==> products == ProductRows([])
    ensures reply.ProductList? ==> products == ProductRows(reply.rows) && reply.rows != []
  {
    match products
    case ProductsError => ProductsUnavailable
    case ProductRows(rows) => if rows == [] then NoProducts else ProductList(rows)
  }

  /**
    The dispatch chain of `POST /webhook`: greetings, help and "order" come
    first; then a user awaiting items has any other text taken as an order
    attempt, after which the session is cleared; then "status", "products",
    and the fallback. Without a text body, an awaiting user makes the parser
    throw: nothing is sent and the session stays.
   */
  function Dispatch(text: Option<string>, session: JsValue, from: string, contactName: JsValue,
                    api: ApiOutcome, products: ProductsOutcome): (r: Step)
    ensures r.op == StartAwaiting <==> text == Some("order")
    ensures r.op == ClearSession <==> IsAwaiting(session) && text.Some? && !IsLeadingCommand(text.value)
    ensures r.request.Some? <==> r.op == ClearSession && ParseOrderText(text.value) != []
    ensures r.request.Some? ==> r.request.value == OrderRequest(ParseOrderText(text.value), from, contactName)
                                && r.reply == Some(OrderReply(api))
    ensures r.reply.None? <==> IsAwaiting(session) && text.None?
    ensures text == Some("hi") || text == Some("hello") ==> r.reply == Some(Greeting)
    ensures text == Some("help") ==> r.reply == Some(Help)
    ensures text == Some("order") ==> r.reply == Some(OrderPrompt)
    ensures r.op == ClearSession && r.request.None? ==> r.reply == Some(OrderNotUnderstood)
    ensures !IsAwaiting(session) && text == Some("status") ==> r.reply == Some(StatusPlaceholder)
    ensures !IsAwaiting(session) && text == Some("products") ==> r.reply == Some(ProductsReply(products))
    ensures !IsAwaiting(session) && (text.None? || !(IsLeadingCommand(text.value) || text.value in {"status", "products"}))
            ==> r.reply == Some(NotUnderstood(text))
  {
    if text == Some("hi") || text == Some("hello") then Step(Some(Greeting), KeepSession, None)
    else if text == Some("help") then Step(Some(Help), KeepSession, None)
    else if text == Some("order") then Step(Some(OrderPrompt), StartAwaiting, None)
    else if IsAwaiting(session) then
      if text.None? then Step(None, KeepSession, None)
      else
        var items := ParseOrderText(text.value);
        if items == [] then Step(Some(OrderNotUnderstood), ClearSession, None)
        else Step(Some(OrderReply(api)), ClearSession, Some(OrderRequest(items, from, contactName)))
    else if text == Some("status") then Step(Some(StatusPlaceholder), KeepSession, None)
    else if text == Some("products") then Step(Some(ProductsReply(products)), KeepSession, None)
    else Step(Some(NotUnderstood(text)), KeepSession, None)
  }

  /** The leading commands answer the same whatever the session holds. */
  lemma LeadingCommandsIgnoreSession(text: string, s1: JsValue, s2: JsValue, from: string, contactName: JsValue,
                                     api: ApiOutcome, products: ProductsOutcome)
    requires IsLeadingCommand(text)
    ensures Dispatch(Some(text), s1, from, contactName, api, products) == Dispatch(Some(text), s2, from, contactName, api, products)
  {
  }

  /** "order" always prompts for the items and starts the wait. */
  lemma OrderCommandStartsWait(session: JsValue, from: string, contactName: JsValue,
                               api: ApiOutcome, products: ProductsOutcome)
    ensures Dispatch(Some("order"), session, from, contactName, api, products) == Step(Some(OrderPrompt), StartAwaiting, None)
  {
  }

  /** While items are awaited, any text but a leading command is an order attempt that ends the wait. */
  lemma AwaitingTakesOrder(text: string, session: JsValue, from: string, contactName: JsValue,
                           api: ApiOutcome, products: ProductsOutcome)
    requires IsAwaiting(session) && !IsLeadingCommand(text)
    ensures var items := ParseOrderText(text);
            Dispatch(Some(text), session, from, contactName, api, products)
            == if items == [] then Step(Some(OrderNotUnderstood), ClearSession, None)
               else Step(Some(OrderReply(api)), ClearSession, Some(OrderRequest(items, from, contactName)))
  {
  }

  /**
    While items are awaited, a single word other than the leading commands
    ("status" and "products" among them) is a failed order attempt, and the
    wait ends.
   */
  lemma AwaitingSwallowsWords(word: string, session: JsValue, from: string, contactName: JsValue,
                              api: ApiOutcome, products: ProductsOutcome)
    requires IsAwaiting(session) && !IsLeadingCommand(word)
    requires word != [] && !IsWhitespace(word[0]) && !IsWhitespace(word[|word| - 1])
    requires ' ' !in word && ',' !in word
    ensures Dispatch(Some(word), session, from, contactName, api, products) == Step(Some(OrderNotUnderstood), ClearSession, None)
  {
    ParseSegmentWithoutSpace(word);
    ParseOneSegment(word);
  }

  /**
    Every item the bot posts is looked up by name. Once the endpoint applies
    `parseInt(quantity) || 1`, a parsed quantity below 10^21 is kept, and a
    larger one, printed in exponent notation, shrinks to its leading digit.
   */
  lemma OrderRequestItemsResolveByName(items: seq<ParsedItem>, from: string, contactName: JsValue, catalog: seq<OrderCreation.Product>)
    requires forall i :: 0 <= i < |items| ==> items[i].name != "" && items[i].quantity > 0
    ensures var body := OrderRequest(items, from, contactName);
            forall i :: 0 <= i < |items| ==>
              var item := body.items.items[i];
              && OrderCreation.Resolve(item, catalog) == (match OrderCreation.FindByName(catalog, Trim(items[i].name))
                                                          case None => Failure(OrderCreation.ProductNameNotFound(items[i].name))
                                                          case Some(p) => Success(p))
              && OrderCreation.EffectiveQuantity(item.quantity)
                 == if items[i].quantity < ExponentThreshold then items[i].quantity else LeadingDigit(items[i].quantity) as int
  {
    forall i | 0 <= i < |items|
      ensures OrderCreation.EffectiveQuantity(JsNumber(items[i].quantity))
              == if items[i].quantity < ExponentThreshold then items[i].quantity else LeadingDigit(items[i].quantity) as int
    {
      OrderCreation.QuantityOfNumber(items[i].quantity);
    }
  }

  /** A customer who orders "1000000000000000000000 apples" has one apple priced at the endpoint. */
  lemma HugeCountArrivesAsOne(name: string, from: string, contactName: JsValue)
    requires name != [] && !IsWhitespace(name[|name| - 1])
    ensures var parsed := ParseSegment(IntToString(ExponentThreshold) + " " + name);
            && parsed == Some(ParsedItem(name, ExponentThreshold))
            && OrderCreation.EffectiveQuantity(OrderRequest([parsed.value], from, contactName).items.items[0].quantity) == 1
  {
    ParseSegmentOfNumeral(ExponentThreshold, name);
    OrderCreation.HugeQuantities();
  }

  /** The session the bot stores when the user says "order". */
  lemma AwaitingSessionIsAwaiting()
    ensures IsAwaiting(AwaitingSession) && Truthy(AwaitingSession)
  {
  }

  /** The session change of one dispatch: nothing, storing the awaiting state, or deleting the session. */
  method ApplySessionOp(store: RedisSessionService, from: string, op: SessionOp, setFails: bool, delFails: bool)
    modifies store`redis, store`fallbackSessions, store`timers
    ensures op == KeepSession ==> unchanged(store)
    ensures op == StartAwaiting && !setFails ==> IsAwaiting(store.SessionOf(from, false))
    ensures op == StartAwaiting && setFails ==> IsAwaiting(store.SessionOf(from, true))
    ensures op == ClearSession && !delFails ==> store.SessionOf(from, false) == JsNull
    ensures op == ClearSession && delFails ==>
              && store.redis == old(store.redis) && store.SessionOf(from, true) == JsNull
              && (store.isConnected ==> store.SessionOf(from, false) == old(store.SessionOf(from, false)))
    ensures forall u, f :: u != from ==> store.SessionOf(u, f) == old(store.SessionOf(u, f))
  {
    match op {
      case KeepSession =>
      case StartAwaiting =>
        store.SetSession(from, AwaitingSession, setFails);
      case ClearSession =>
        store.DeleteSession(from, delFails);
    }
  }

  /**
    `POST /webhook`: read the sender's session, dispatch, apply the session
    change, and acknowledge with 200 whatever happened. `getFails`,
    `setFails` and `delFails` say whether the Redis command of each session
    call throws. When the Redis `DEL` throws, only the fallback entry is
    removed: the Redis key survives, and the user is still awaiting items.
   */
  method HandleIncomingMessage(store: RedisSessionService, payload: Payload,
                               getFails: bool, setFails: bool, delFails: bool,
                               api: ApiOutcome, products: ProductsOutcome)
    returns (reply: Option<Reply>, request: Option<OrderCreation.OrderBody>, ack: int)
    modifies store`redis, store`fallbackSessions, store`timers
    ensures ack == 200
    ensures payload.NoMessage? ==> reply.None? && request.None? && unchanged(store)
    ensures payload.Message? ==>
              var m := payload.message;
              var step := Dispatch(NormalizeText(m.textBody), old(store.SessionOf(m.from, getFails)),
                                   m.from, m.contactName, api, products);
              && reply == step.reply && request == step.request
              && (step.op == KeepSession ==> unchanged(store))
              && (step.op == StartAwaiting && !setFails ==> IsAwaiting(store.SessionOf(m.from, false)))
              && (step.op == StartAwaiting && setFails ==> IsAwaiting(store.SessionOf(m.from, true)))
              && (step.op == ClearSession && !delFails ==> store.SessionOf(m.from, false) == JsNull)
              && (step.op == ClearSession && delFails ==>
                    && store.redis == old(store.redis) && store.SessionOf(m.from, true) == JsNull
                    && (store.isConnected ==> store.SessionOf(m.from, false) == old(store.SessionOf(m.from, false))))
              && (forall u, f :: u != m.from ==> store.SessionOf(u, f) == old(store.SessionOf(u, f)))
  {
    ack := 200;
    if payload.NoMessage? {
      return None, None, ack;
    }
    var m := payload.message;
    var text := NormalizeText(m.textBody);
    var session := store.GetSession(m.from, getFails);
    var step := Dispatch(text, session, m.from, m.contactName, api, products);
    ApplySessionOp(store, m.from, step.op, setFails, delFails);
    reply, request := step.reply, step.request;
  }


  /**
    A user on the in-memory fallback says "order", then sends `orderText`:
    the prompt, then the order attempt's reply, after which the user has no
    session any more.
   */
  method OrderConversation(from: string, orderText: string, api: ApiOutcome) returns (first: Option<Reply>, second: Option<Reply>, after: JsValue)
    requires !IsLeadingCommand(ToLower(Trim(orderText)))
    ensures first == Some(OrderPrompt)
    ensures second == Some(if ParseOrderText(ToLower(Trim(orderText))) == [] then OrderNotUnderstood else OrderReply(api))
    ensures after == JsNull
  {
    var store := new RedisSessionService(None, 0);
    var request, ack;
    assert NormalizeText(Some("order")) == Some("order") by {
      TrimOfTrimmed("order");
      ToLowerOfLower("order");
    }
    OrderCommandStartsWait(store.SessionOf(from, false), from, JsNull, api, ProductsError);
    first, request, ack := HandleIncomingMessage(store, Message(Inbound(from, Some("order"), JsNull)),
                                                 false, false, false, api, ProductsError);
    AwaitingTakesOrder(ToLower(Trim(orderText)), store.SessionOf(from, false), from, JsNull, api, ProductsError);
    second, request, ack := HandleIncomingMessage(store, Message(Inbound(from, Some(orderText), JsNull)),
                                                  false, false, false, api, ProductsError);
    after := store.GetSession(from, false);
  }
}
