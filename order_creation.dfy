/**
  The order-submission endpoint of the order controller: item validation,
  product resolution, the quantity default, line and order totals, the
  order and order-item rows written, and the best-effort CRM and webhook
  fan-out that follows a successful insert.

  Prices are integers in minor units (the catalogue stores `DECIMAL(10,2)`).
  The product table is the sequence `catalog`, in the order the database
  returns its rows.
 */
module OrderCreation {
  import opened JsText

  datatype Product = Product(id: int, name: string, price: int)

  /** One element of `items` in the request body: `{ name?, product_id?, quantity? }`. */
  datatype ItemRequest = ItemRequest(name: JsValue, productId: JsValue, quantity: JsValue)

  /** `req.body.items`: absent (or falsy), present but not an array, or an array. */
  datatype ItemsField = ItemsAbsent | ItemsNotArray | ItemsArray(items: seq<ItemRequest>)

  datatype OrderBody = OrderBody(items: ItemsField, customerPhone: JsValue, customerName: JsValue)

  datatype OrderError =
    | ItemsRequired                        // 400 "Items are required"
    | ProductNameNotFound(name: string)    // 400 "Product '<name>' not found. ..."
    | ProductIdNotFound(productId: JsValue) // 400 "Product with ID <id> not found"
    | ItemWithoutReference                 // 400 "Each item must have either 'name' or 'product_id'"
    | InternalError                        // 500: `item.name.trim()` on a name that is not a string throws
    | OrderInsertFailed(message: string)   // 500 "Failed to create order: ..."
    | ItemsInsertFailed(message: string)   // 500 "Failed to create order items: ..."

  function ErrorStatus(e: OrderError): int {
    match e
    case InternalError => 500
    case OrderInsertFailed(_) => 500
    case ItemsInsertFailed(_) => 500
    case _ => 400
  }

  /** One entry of `orderItems`: `{ product_id, product_name, quantity, unit_price, total_price }`. */
  datatype OrderLine = OrderLine(productId: int, productName: string, quantity: int, unitPrice: int, totalPrice: int)

  /** The row inserted into `orders`. */
  datatype OrderRow = OrderRow(userId: int, totalAmount: int, status: string)

  /** A row inserted into `order_items`; its `price` column receives the line total. */
  datatype OrderItemRow = OrderItemRow(orderId: int, productId: int, quantity: int, price: int)

  datatype InsertOutcome = Inserted(orderId: int) | InsertFailed(message: string)
  datatype WriteOutcome = Written | WriteFailed(message: string)

  datatype CreateOrderResponse =
    | Rejected(status: int, error: OrderError)
    | Created(orderId: int, total: int, items: seq<OrderLine>)  // 201

  /** A call into the CRM client, in the order the controller makes them. */
  datatype CrmCall =
    | UpsertContact(phone: JsValue, name: JsValue)
    | CreateDeal(orderId: int, contactId: Option<int>)
    | SendWebhook(url: string)

  /**
    What the CRM side does: the contact the upsert yields (`null` as `None`)
    and, if one of the calls throws, its position among the calls made.
   */
  datatype CrmOutcome = CrmOutcome(contact: Option<int>, throwsAt: Option<nat>)

  /** Everything the endpoint writes or calls besides its answer. */
  datatype Effects = Effects(orderRow: Option<OrderRow>, itemRows: Option<seq<OrderItemRow>>, crmCalls: seq<CrmCall>)

  const NoEffects := Effects(None, None, [])

  /** The bot user that owns orders placed without authentication. */
  const BotUserId := 2

  /** `String(v)`, which `parseInt` applies to its argument first. */
  function JsToString(v: JsValue): string {
    match v
    case JsUndefined => "undefined"
    case JsNull => "null"
    case JsBool(b) => if b then "true" else "false"
    case JsNumber(n) => NumberToString(n)
    case JsString(s) => s
    case JsObject(_) => "[object Object]"
  }

  /** `parseInt(item.quantity) || 1`: NaN and zero fall back to 1, every other reading is kept. */
  function EffectiveQuantity(q: JsValue): (n: int)
    ensures n != 0
  {
    match ParseInt(JsToString(q))
    case None => 1
    case Some(k) => if k == 0 then 1 else k
  }

  /**
    A numeric quantity below 10^21 in magnitude is kept as it is, except
    zero, which becomes 1; a larger one is printed in exponent notation and
    only its leading digit, with its sign, is read back.
   */
  lemma QuantityOfNumber(n: int)
    ensures EffectiveQuantity(JsNumber(n)) == if n == 0 then 1
                                             else if -ExponentThreshold < n < ExponentThreshold then n
                                             else if n < 0 then -(LeadingDigit(Magnitude(n)) as int)
                                             else LeadingDigit(Magnitude(n)) as int
  {
    ParseIntOfNumberToString(n);
  }

  /** A quantity of 10^21 ("1e+21") is read as 1, and one of 2.5 × 10^21 ("2.5e+21") as 2. */
  lemma HugeQuantities()
    ensures EffectiveQuantity(JsNumber(ExponentThreshold)) == 1
    ensures EffectiveQuantity(JsNumber(25 * Pow10(20))) == 2
  {
    Pow10OfThreshold();
    LeadingDigitOfShifted(1, 21);
    QuantityOfNumber(ExponentThreshold);
    var x := 25 * Pow10(20);
    LeadingDigitOfShifted(25, 20);
    assert LeadingDigit(25) == 2;
    assert x >= ExponentThreshold;
    QuantityOfNumber(x);
  }


  /** A missing quantity, or one with no leading digits, becomes 1. */
  lemma QuantityDefaults()
    ensures EffectiveQuantity(JsUndefined) == 1
    ensures EffectiveQuantity(JsNull) == 1
    ensures EffectiveQuantity(JsString("two")) == 1
    ensures EffectiveQuantity(JsString("")) == 1
  {
    ParseIntOfNonNumeric("undefined");
    ParseIntOfNonNumeric("null");
    ParseIntOfNonNumeric("two");
    assert TrimStart("") == "";
  }

  predicate IsPrefix(p: string, s: string) {
    |p| <= |s| && s[..|p|] == p
  }

  /** `needle` occurs somewhere in `hay`. */
  predicate Contains(hay: string, needle: string)
    decreases |hay|
  {
    IsPrefix(needle, hay) || (hay != [] && Contains(hay[1..], needle))
  }

  /** A pattern longer than the text occurs nowhere in it. */
  lemma {:induction false} ContainsNeedsRoom(hay: string, needle: string)
    ensures Contains(hay, needle) ==> |needle| <= |hay|
    decreases |hay|
  {
    if hay != [] {
      ContainsNeedsRoom(hay[1..], needle);
    }
  }

  /**
    `ilike("name", "%" + pattern + "%")`, read as a case-insensitive substring
    match: the pattern's own `%`, `_` and `\` are taken literally here, while
    the database treats them as wildcards and escapes.
   */
  predicate NameMatches(productName: string, pattern: string) {
    Contains(ToLower(productName), ToLower(pattern))
  }

  /** The match ignores the case of the pattern. */
  lemma NameMatchesIgnoresCase(productName: string, pattern: string)
    ensures NameMatches(productName, ToLower(pattern)) == NameMatches(productName, pattern)
  {
    ToLowerIdempotent(pattern);
  }

  /** `.ilike(...).limit(1)`: the first product, in row order, whose name contains the pattern. */
  function FindByName(catalog: seq<Product>, pattern: string): (r: Option<Product>)
    ensures r.None? <==> forall i :: 0 <= i < |catalog| ==> !NameMatches(catalog[i].name, pattern)
    ensures r.Some? ==> exists i :: 0 <= i < |catalog| && catalog[i] == r.value
                                   && NameMatches(r.value.name, pattern)
                                   && forall j :: 0 <= j < i ==> !NameMatches(catalog[j].name, pattern)
  {
    if catalog == [] then None
    else if NameMatches(catalog[0].name, pattern) then Some(catalog[0])
    else
      var r := FindByName(catalog[1..], pattern);
      assert forall i :: 1 <= i < |catalog| ==> catalog[i] == catalog[1..][i - 1];
      r
  }

  /** `.eq("id", v)` compares the id column with a number or with its decimal text. */
  predicate IdMatches(v: JsValue, id: int) {
    v == JsNumber(id) || v == JsString(IntToString(id))
  }

  function RowsWithId(catalog: seq<Product>, v: JsValue): (rows: seq<Product>)
    ensures forall p :: p in rows <==> p in catalog && IdMatches(v, p.id)
  {
    if catalog == [] then []
    else (if IdMatches(v, catalog[0].id) then [catalog[0]] else []) + RowsWithId(catalog[1..], v)
  }

  /** `.eq("id", v).single()`: succeeds only when exactly one row matches. */
  function FindById(catalog: seq<Product>, v: JsValue): (r: Option<Product>)
    ensures r.Some? <==> |RowsWithId(catalog, v)| == 1
    ensures r.Some? ==> r.value == RowsWithId(catalog, v)[0] && r.value in catalog && IdMatches(v, r.value.id)
  {
    var rows := RowsWithId(catalog, v);
    if |rows| == 1 then Some(rows[0]) else None
  }

  /**
    How one item is resolved: a truthy `name` with no truthy `product_id` is
    looked up by its trimmed name; otherwise a truthy `product_id` is looked
    up by id; an item with neither is refused.
   */
  function Resolve(item: ItemRequest, catalog: seq<Product>): (r: Result<Product, OrderError>)
    ensures r.Success? ==> r.value in catalog
    ensures r == Failure(ItemWithoutReference) <==> !Truthy(item.name) && !Truthy(item.productId)
    ensures Truthy(item.name) && !Truthy(item.productId) && item.name.JsString? ==>
              if FindByName(catalog, Trim(item.name.s)).Some?
              then r == Success(FindByName(catalog, Trim(item.name.s)).value)
              else r == Failure(ProductNameNotFound(item.name.s))
    ensures r.Failure? ==> r.error.ProductNameNotFound? || r.error.ProductIdNotFound?
                           || r.error.InternalError? || r.error.ItemWithoutReference?
    ensures r.Failure? && r.error.ProductNameNotFound? ==>
              item.name == JsString(r.error.name) && !Truthy(item.productId)
              && FindByName(catalog, Trim(r.error.name)).None?
    ensures r.Failure? && r.error.ProductIdNotFound? ==>
              r.error.productId == item.productId && Truthy(item.productId) && FindById(catalog, item.productId).None?
    ensures r.Failure? && r.error.InternalError? ==>
              Truthy(item.name) && !Truthy(item.productId) && !item.name.JsString?
  {
    if Truthy(item.name) && !Truthy(item.productId) then
      if !item.name.JsString? then Failure(InternalError)
      else
        match FindByName(catalog, Trim(item.name.s))
        case None => Failure(ProductNameNotFound(item.name.s))
        case Some(p) => Success(p)
    else if Truthy(item.productId) then
      match FindById(catalog, item.productId)
      case None => Failure(ProductIdNotFound(item.productId))
      case Some(p) => Success(p)
    else Failure(ItemWithoutReference)
  }

  /** A truthy `product_id` wins over the name, whatever the name says. */
  lemma ProductIdTakesPrecedence(item: ItemRequest, catalog: seq<Product>)
    requires Truthy(item.productId)
    ensures Resolve(item, catalog) == match FindById(catalog, item.productId)
                                      case None => Failure(ProductIdNotFound(item.productId))
                                      case Some(p) => Success(p)
  {
  }

  /** A name of blanks is truthy, trims to "", and the pattern "%%" matches the first product. */
  lemma BlankNameMatchesFirstProduct(item: ItemRequest, catalog: seq<Product>)
    requires item.name.JsString? && item.name.s != [] && !Truthy(item.productId)
    requires forall i :: 0 <= i < |item.name.s| ==> IsWhitespace(item.name.s[i])
    requires catalog != []
    ensures Resolve(item, catalog) == Success(catalog[0])
  {
    TrimOfBlank(item.name.s);
    assert IsPrefix(ToLower(""), ToLower(catalog[0].name));
  }

  /** `{ product_id, product_name, quantity, unit_price, total_price }` for one resolved item. */
  function LineFor(p: Product, quantity: JsValue): (line: OrderLine)
    ensures line.productId == p.id && line.productName == p.name && line.unitPrice == p.price
    ensures line.quantity == EffectiveQuantity(quantity)
    ensures line.totalPrice == line.unitPrice * line.quantity
  {
    var q := EffectiveQuantity(quantity);
    OrderLine(p.id, p.name, q, p.price, p.price * q)
  }

  /** The sum of the line totals, accumulated from the first line to the last. */
  function SumTotals(lines: seq<OrderLine>): int {
    if lines == [] then 0 else SumTotals(lines[..|lines| - 1]) + lines[|lines| - 1].totalPrice
  }

  /**
    When every quantity is positive and no unit price is negative, the order
    total is never negative. The `price` column does not itself forbid a
    negative price.
   */
  lemma {:induction false} SumTotalsNonNegative(lines: seq<OrderLine>)
    requires forall i :: 0 <= i < |lines| ==> lines[i].quantity > 0 && lines[i].totalPrice == lines[i].unitPrice * lines[i].quantity
    requires forall i :: 0 <= i < |lines| ==> lines[i].unitPrice >= 0
    ensures SumTotals(lines) >= 0
  {
    if lines != [] {
      SumTotalsNonNegative(lines[..|lines| - 1]);
    }
  }

  /** `req.user?.id`, falling back to the bot user when it is missing or falsy. */
  function OwnerOf(authUserId: Option<int>): int {
    if authUserId.Some? && authUserId.value != 0 then authUserId.value else BotUserId
  }

  /** `EXTERNAL_WEBHOOKS?.split(",") || []`, keeping the trimmed non-blank entries. */
  function WebhookTargets(env: Option<string>): seq<string> {
    match env
    case None => []
    case Some(s) => FilterMap(Split(s, ','), WebhookTarget)
  }

  function WebhookTarget(segment: string): (r: Option<string>)
    ensures r.Some? ==> r.value != "" && r.value == Trim(segment)
  {
    var t := Trim(segment);
    if t != "" then Some(t) else None
  }

  /**
    The webhook targets are the trimmed non-blank comma-separated entries of
    the setting, one per entry at most, in the order they are written.
   */
  lemma WebhookTargetsInOrder(env: string)
    ensures var targets, parts, ks := WebhookTargets(Some(env)), Split(env, ','), Kept(Split(env, ','), WebhookTarget);
            && |targets| == |ks|
            && (forall k :: 0 <= k < |ks| ==> ks[k] < |parts| && targets[k] == Trim(parts[ks[k]]) && targets[k] != "")
            && Increasing(ks)
            && (forall i :: 0 <= i < |parts| && Trim(parts[i]) != "" ==> i in ks)
  {
    var parts := Split(env, ',');
    FilterMapLength(parts, WebhookTarget);
    FilterMapAt(parts, WebhookTarget);
    KeptIncreasing(parts, WebhookTarget);
    KeptComplete(parts, WebhookTarget);
  }

  /**
    The CRM calls the controller would make for a created order: none without
    a customer phone; otherwise the contact upsert, the deal (linked to the
    contact when one came back), and one webhook per configured target.
   */
  function PlannedCrmCalls(orderId: int, phone: JsValue, name: JsValue, contact: Option<int>, env: Option<string>): seq<CrmCall> {
    if !Truthy(phone) then []
    else
      var targets := WebhookTargets(env);
      [UpsertContact(phone, name), CreateDeal(orderId, contact)] + WebhookCalls(targets)
  }

  function WebhookCalls(urls: seq<string>): (calls: seq<CrmCall>)
    ensures |calls| == |urls| && forall i :: 0 <= i < |urls| ==> calls[i] == SendWebhook(urls[i])
  {
    seq(|urls|, i requires 0 <= i < |urls| => SendWebhook(urls[i]))
  }

  /**
    The calls of a sequence of awaited calls that are made when the one at
    `failAt` throws: that one is made and every later one is skipped.
   */
  function UpTo<T>(xs: seq<T>, failAt: Option<nat>): (r: seq<T>)
    ensures |r| <= |xs| && r == xs[..|r|]
    ensures failAt.None? ==> r == xs
    ensures failAt.Some? && failAt.value < |xs| ==> |r| == failAt.value + 1
  {
    if failAt.Some? && failAt.value < |xs| then xs[..failAt.value + 1] else xs
  }

  /**
    The webhook loop: each comma-separated entry that is not blank once
    trimmed is posted to, in order, until a post throws.
   */
  method NotifyWebhooks(segments: seq<string>, failAt: Option<nat>) returns (sent: seq<string>)
    ensures sent == UpTo(FilterMap(segments, WebhookTarget), failAt)
  {
    sent := [];
    var i := 0;
    assert segments[..0] == [];
    while i < |segments|
      invariant 0 <= i <= |segments|
      invariant sent == FilterMap(segments[..i], WebhookTarget)
      invariant failAt.None? || failAt.value >= |sent|
    {
      var target := WebhookTarget(segments[i]);
      if target.Some? {
        assert FilterMap(segments[..i + 1], WebhookTarget) == sent + [target.value] by {
          FilterMapStep(segments, i, WebhookTarget);
        }
        sent := sent + [target.value];
        if failAt.Some? && failAt.value == |sent| - 1 {
          assert sent == UpTo(FilterMap(segments, WebhookTarget), failAt) by {
            FilterMapPrefix(segments, i + 1, WebhookTarget);
          }
          return;
        }
      } else {
        assert FilterMap(segments[..i + 1], WebhookTarget) == sent by {
          FilterMapStep(segments, i, WebhookTarget);
        }
      }
      i := i + 1;
    }
    assert segments[..i] == segments;
  }

  /**
    The CRM block of `createOrder`: the contact upsert, the deal, then the
    webhook loop over the comma-separated setting. An exception anywhere ends
    the block and is swallowed.
   */
  method SyncCrm(orderId: int, phone: JsValue, name: JsValue, crm: CrmOutcome, env: Option<string>)
    returns (calls: seq<CrmCall>)
    ensures calls == UpTo(PlannedCrmCalls(orderId, phone, name, crm.contact, env), crm.throwsAt)
  {
    if !Truthy(phone) {
      return [];
    }
    if crm.throwsAt == Some(0) {
      return [UpsertContact(phone, name)];
    }
    if crm.throwsAt == Some(1) {
      return [UpsertContact(phone, name), CreateDeal(orderId, crm.contact)];
    }
    var segments := if env.Some? then Split(env.value, ',') else [];
    var failAt := if crm.throwsAt.Some? then Some(crm.throwsAt.value - 2) else None;
    var sent := NotifyWebhooks(segments, failAt);
    calls := [UpsertContact(phone, name), CreateDeal(orderId, crm.contact)] + WebhookCalls(sent);
    CrmCallsAfterDeal(orderId, phone, name, crm, env, sent);
  }

  lemma CrmCallsAfterDeal(orderId: int, phone: JsValue, name: JsValue, crm: CrmOutcome, env: Option<string>, sent: seq<string>)
    requires Truthy(phone) && crm.throwsAt != Some(0) && crm.throwsAt != Some(1)
    requires sent == UpTo(WebhookTargets(env), if crm.throwsAt.Some? then Some(crm.throwsAt.value - 2) else None)
    ensures [UpsertContact(phone, name), CreateDeal(orderId, crm.contact)] + WebhookCalls(sent)
            == UpTo(PlannedCrmCalls(orderId, phone, name, crm.contact, env), crm.throwsAt)
  {
    var targets := WebhookTargets(env);
    var planned := PlannedCrmCalls(orderId, phone, name, crm.contact, env);
    var made := [UpsertContact(phone, name), CreateDeal(orderId, crm.contact)] + WebhookCalls(sent);
    var expected := UpTo(planned, crm.throwsAt);
    assert |made| == |expected|;
    forall k | 0 <= k < |made|
      ensures made[k] == expected[k]
    {
      if k >= 2 {
        assert made[k] == SendWebhook(sent[k - 2]);
      }
    }
  }

  lemma PlannedShape(orderId: int, phone: JsValue, name: JsValue, contact: Option<int>, env: Option<string>)
    requires Truthy(phone)
    ensures var planned, targets := PlannedCrmCalls(orderId, phone, name, contact, env), WebhookTargets(env);
            && |planned| == 2 + |targets|
            && planned[0] == UpsertContact(phone, name) && planned[1] == CreateDeal(orderId, contact)
            && forall k :: 0 <= k < |targets| ==> planned[2 + k] == SendWebhook(targets[k])
  {
    var targets := WebhookTargets(env);
    var head := [UpsertContact(phone, name), CreateDeal(orderId, contact)];
    assert PlannedCrmCalls(orderId, phone, name, contact, env) == head + WebhookCalls(targets);
    CallsAfterHead(head, targets);
  }

  /** Two calls first, then one webhook call per target, in order. */
  lemma CallsAfterHead(head: seq<CrmCall>, targets: seq<string>)
    requires |head| == 2
    ensures var planned := head + WebhookCalls(targets);
            && |planned| == 2 + |targets| && planned[0] == head[0] && planned[1] == head[1]
            && forall k :: 0 <= k < |targets| ==> planned[2 + k] == SendWebhook(targets[k])
  {
    var calls := WebhookCalls(targets);
    var planned := head + calls;
    forall k | 0 <= k < |targets|
      ensures planned[2 + k] == SendWebhook(targets[k])
    {
      assert planned[2 + k] == calls[k];
    }
  }

  /** One iteration of the item loop: the item's line, or why the request is refused. */
  function ResolveLine(item: ItemRequest, catalog: seq<Product>): Result<OrderLine, OrderError> {
    match Resolve(item, catalog)
    case Failure(e) => Failure(e)
    case Success(p) => Success(LineFor(p, item.quantity))
  }

  /** The item loop as a specification: the lines for `items` in order, or the first item's failure. */
  function ResolveAll(items: seq<ItemRequest>, catalog: seq<Product>): Result<seq<OrderLine>, OrderError> {
    Traverse(items, item => ResolveLine(item, catalog))
  }

  /**
    The item loop succeeds exactly when every item resolves, and then has
    one line per item, in order, priced from that item's product and quantity.
   */
  lemma ResolveAllSuccess(items: seq<ItemRequest>, catalog: seq<Product>)
    ensures ResolveAll(items, catalog).Success? <==> forall i :: 0 <= i < |items| ==> Resolve(items[i], catalog).Success?
    ensures ResolveAll(items, catalog).Success? ==>
              var lines := ResolveAll(items, catalog).value;
              |lines| == |items|
              && forall i :: 0 <= i < |items| ==> lines[i] == LineFor(Resolve(items[i], catalog).value, items[i].quantity)
  {
    TraverseSuccess(items, item => ResolveLine(item, catalog));
  }

  /** A failing item loop reports the error of the first item that does not resolve. */
  lemma ResolveAllFailure(items: seq<ItemRequest>, catalog: seq<Product>)
    requires ResolveAll(items, catalog).Failure?
    ensures exists i :: 0 <= i < |items|
              && Resolve(items[i], catalog) == Failure(ResolveAll(items, catalog).error)
              && forall j :: 0 <= j < i ==> Resolve(items[j], catalog).Success?
  {
    TraverseFailure(items, item => ResolveLine(item, catalog));
  }

  /** The `order_items` rows: one per line, whose `price` is the line total. */
  function ItemRows(orderId: int, lines: seq<OrderLine>): (rows: seq<OrderItemRow>)
    ensures |rows| == |lines|
    ensures forall i :: 0 <= i < |lines| ==>
              rows[i] == OrderItemRow(orderId, lines[i].productId, lines[i].quantity, lines[i].totalPrice)
  {
    seq(|lines|, i requires 0 <= i < |lines| => OrderItemRow(orderId, lines[i].productId, lines[i].quantity, lines[i].totalPrice))
  }

  /** `items` is a non-empty array. */
  predicate HasItems(body: OrderBody) {
    body.items.ItemsArray? && body.items.items != []
  }

  /**
    The loop of `createOrder` over the requested items: resolve each in turn,
    keeping the running total, and stop at the first failure.
   */
  method ResolveItems(items: seq<ItemRequest>, catalog: seq<Product>)
    returns (resolved: Result<seq<OrderLine>, OrderError>, total: int)
    ensures resolved == ResolveAll(items, catalog)
    ensures resolved.Success? ==> total == SumTotals(resolved.value)
  {
    total := 0;
    var lines: seq<OrderLine> := [];
    var i := 0;
    while i < |items|
      invariant 0 <= i <= |items|
      invariant ResolveAll(items[..i], catalog) == Success(lines)
      invariant total == SumTotals(lines)
    {
      assert items[..i + 1][..i] == items[..i];
      match Resolve(items[i], catalog) {
        case Failure(e) =>
          assert ResolveAll(items[..i + 1], catalog) == Failure(e);
          assert ResolveAll(items, catalog) == Failure(e) by {
            TraverseFromPrefix(items, i + 1, item => ResolveLine(item, catalog));
          }
          return Failure(e), total;
        case Success(product) =>
          var line := LineFor(product, items[i].quantity);
          total := total + line.totalPrice;
          assert (lines + [line])[..|lines|] == lines;
          lines := lines + [line];
      }
      i := i + 1;
    }
    assert items[..i] == items;
    resolved := Success(lines);
  }

  /**
    `createOrder`: check the items, resolve every item against the catalogue
    (stopping at the first that fails), insert the order and its items, run
    the best-effort CRM block, and answer 201. The answer depends on the
    inserts and never on the CRM outcome.
   */
  method CreateOrder(body: OrderBody, catalog: seq<Product>, authUserId: Option<int>,
                     orderInsert: InsertOutcome, itemsInsert: WriteOutcome,
                     crm: CrmOutcome, env: Option<string>)
    returns (resp: CreateOrderResponse, effects: Effects)
    ensures !HasItems(body) ==> resp == Rejected(400, ItemsRequired) && effects == NoEffects
    ensures HasItems(body) && ResolveAll(body.items.items, catalog).Failure? ==>
              var e := ResolveAll(body.items.items, catalog).error;
              resp == Rejected(ErrorStatus(e), e) && effects == NoEffects
    ensures HasItems(body) && ResolveAll(body.items.items, catalog).Success? ==>
              var lines := ResolveAll(body.items.items, catalog).value;
              var total := SumTotals(lines);
              && effects.orderRow == Some(OrderRow(OwnerOf(authUserId), total, "pending"))
              && (orderInsert.InsertFailed? ==>
                    resp == Rejected(500, OrderInsertFailed(orderInsert.message))
                    && effects.itemRows.None? && effects.crmCalls == [])
              && (orderInsert.Inserted? ==>
                    && effects.itemRows == Some(ItemRows(orderInsert.orderId, lines))
                    && (itemsInsert.WriteFailed? ==>
                          resp == Rejected(500, ItemsInsertFailed(itemsInsert.message)) && effects.crmCalls == [])
                    && (itemsInsert.Written? ==>
                          resp == Created(orderInsert.orderId, total, lines)
                          && effects.crmCalls == UpTo(PlannedCrmCalls(orderInsert.orderId, body.customerPhone,
                                                                           body.customerName, crm.contact, env),
                                                           crm.throwsAt)))
  {
    if !HasItems(body) {
      return Rejected(400, ItemsRequired), NoEffects;
    }
    var resolved, total := ResolveItems(body.items.items, catalog);
    if resolved.Failure? {
      return Rejected(ErrorStatus(resolved.error), resolved.error), NoEffects;
    }
    var lines := resolved.value;
    var row := OrderRow(OwnerOf(authUserId), total, "pending");
    if orderInsert.InsertFailed? {
      return Rejected(500, OrderInsertFailed(orderInsert.message)), Effects(Some(row), None, []);
    }
    var rows := ItemRows(orderInsert.orderId, lines);
    if itemsInsert.WriteFailed? {
      return Rejected(500, ItemsInsertFailed(itemsInsert.message)), Effects(Some(row), Some(rows), []);
    }
    var calls := SyncCrm(orderInsert.orderId, body.customerPhone, body.customerName, crm, env);
    resp := Created(orderInsert.orderId, total, lines);
    effects := Effects(Some(row), Some(rows), calls);
  }

  /** "bananas" is looked up by name and found after "milk", which does not match. */
  lemma BananasResolve()
    ensures ResolveAll([ItemRequest(JsString("bananas"), JsUndefined, JsNumber(3))],
                       [Product(1, "milk", 6000), Product(4, "bananas", 4000)])
            == Success([OrderLine(4, "bananas", 3, 4000, 12000)])
    ensures SumTotals([OrderLine(4, "bananas", 3, 4000, 12000)]) == 12000
  {
    var catalog := [Product(1, "milk", 6000), Product(4, "bananas", 4000)];
    var item := ItemRequest(JsString("bananas"), JsUndefined, JsNumber(3));
    var line := OrderLine(4, "bananas", 3, 4000, 12000);
    BananasLine();
    var f := (x: ItemRequest) => ResolveLine(x, catalog);
    assert f(item) == Success(line);
    assert [item][..0] == [];
    assert Traverse([item], f) == Success([] + [line]);
    assert [] + [line] == [line];
    assert [line][..0] == [];
  }

  lemma BananasLine()
    ensures ResolveLine(ItemRequest(JsString("bananas"), JsUndefined, JsNumber(3)),
                        [Product(1, "milk", 6000), Product(4, "bananas", 4000)])
            == Success(OrderLine(4, "bananas", 3, 4000, 12000))
  {
    var item := ItemRequest(JsString("bananas"), JsUndefined, JsNumber(3));
    var catalog := [Product(1, "milk", 6000), Product(4, "bananas", 4000)];
    assert Resolve(item, catalog) == Success(Product(4, "bananas", 4000)) by {
      BananasFound();
      assert Truthy(item.name) && !Truthy(item.productId);
    }
    assert EffectiveQuantity(JsNumber(3)) == 3 by { QuantityOfNumber(3); }
  }

  lemma BananasFound()
    ensures FindByName([Product(1, "milk", 6000), Product(4, "bananas", 4000)], Trim("bananas")) == Some(Product(4, "bananas", 4000))
  {
    var catalog := [Product(1, "milk", 6000), Product(4, "bananas", 4000)];
    TrimOfTrimmed("bananas");
    LowerBananas();
    ContainsNeedsRoom(ToLower("milk"), "bananas");
    assert IsPrefix("bananas", "bananas");
    assert catalog[1..] == [catalog[1]];
  }

  lemma LowerBananas()
    ensures ToLower("bananas") == "bananas"
  {
    ToLowerOfLower("bananas");
  }

  /**
    An order for three "bananas" at 40.00 from a customer with no phone: one
    line of 120.00, the bot user owns the order, the `order_items` row
    carries the line total, and no CRM call is made.
   */
  method BananasOrder() returns (resp: CreateOrderResponse, effects: Effects)
    ensures resp == Created(7, 12000, [OrderLine(4, "bananas", 3, 4000, 12000)])
    ensures effects == Effects(Some(OrderRow(BotUserId, 12000, "pending")),
                               Some([OrderItemRow(7, 4, 3, 12000)]), [])
  {
    var catalog := [Product(1, "milk", 6000), Product(4, "bananas", 4000)];
    var item := ItemRequest(JsString("bananas"), JsUndefined, JsNumber(3));
    BananasResolve();
    resp, effects := CreateOrder(OrderBody(ItemsArray([item]), JsUndefined, JsString("Asha")), catalog, None,
                                 Inserted(7), Written, CrmOutcome(None, None), None);
    assert ItemRows(7, [OrderLine(4, "bananas", 3, 4000, 12000)]) == [OrderItemRow(7, 4, 3, 12000)];
    assert PlannedCrmCalls(7, JsUndefined, JsString("Asha"), None, None) == [];
  }
}
