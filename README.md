# WhatsApp order bot: a Dafny model of its order and conversation core

This project models the core of a WhatsApp ordering bot and proves
properties about it. A customer chats with the bot, which keeps a short
conversation session per phone number. When the customer types an order
such as "2 apples, 1 milk", the bot parses it and posts it to the order
endpoint. That endpoint validates the items, prices them against the
product catalogue and stores the order. Field agents then record a
delivery photo, a customer signature and a KYC form through a progressive
web app. The order's status is derived from those three actions, and the
dashboard counts orders by status.

Modules, one per source file of the core:

- `OrderLifecycle` covers `controllers/orderController.js`: the in-memory
  action flags, `calculateOrderStatus` and the three capture handlers.
- `OrderCreation` covers `controllers/orderController.js`: `createOrder`,
  meaning item validation, product resolution, the quantity default,
  totals, the rows written, and the CRM and webhook fan-out.
- `Conversation` covers `index.js`: the webhook handshake,
  `parseOrderText`, and the message dispatch over the session store.
- `RedisSessions` covers `services/redisSessionService.js`: Redis with an
  in-memory fallback, key prefixing, and clean-up timers.
- `MemorySessions` covers `services/memorySessionService.js`: the
  `Map`-backed store.
- `OrderStatusService` covers `services/orderStatusService.js`: the
  status allow-list, the deal-stage table, and the update endpoint.
- `TokenManager` covers `services/tokenManager.js`: token expiry, status,
  the renewal reminder, and the refresh guard.
- `Dashboard` covers `pwa/src/pages/Dashboard.tsx`: the stats `reduce` and
  `getStatusColor`.
- `JsText` holds the JavaScript semantics these files rely on: truthiness,
  `trim`, ASCII `toLowerCase`, `split`, `join`, `String(n)` and
  `parseInt`.

How the model stands in for the outside world:

- Money is an integer in minor units. The catalogue stores prices as
  `DECIMAL(10,2)`.
- Database, CRM, HTTP and Redis replies are parameters. Each is an outcome
  datatype with its success and error cases.
- The clock is an explicit millisecond counter.
- Each Redis command takes a flag that says whether it throws.
- The Redis connection flag is set from outside, as the client's event
  handlers set it.

Where the code and its description differ, the model follows the code:

- `parseInt(q) || 1` keeps a negative quantity.
- The `order_items.price` column receives the line total, not the unit
  price.
- A message without a text body from a user who is awaiting items makes
  `parseOrderText` throw. The error is caught, nothing is sent, and the
  session stays.
- A Redis `setEx` that throws stores the session in the fallback with no
  clean-up timer.
- `refreshToken` resolves to `undefined` when the exchange answers without
  an `access_token`.
- With no `VERIFY_TOKEN` configured, a verification request that omits
  the token is accepted.
- The session is meant to be cleared after an order attempt, but
  `deleteSession` falls back to the in-memory map when the Redis `DEL`
  throws. The Redis key survives, so the user is still awaiting items and
  their next message is again read as an order.
- A JSON quantity of 10^21 or more is turned into text in exponent form
  ("1e+21"), and `parseInt` reads only its leading digit.

## Model

| member | source | states |
|---|---|---|
| OrderLifecycle.CompletedActions | controllers/orderController.js:32 | the number of set flags is at most three |
| OrderLifecycle.CalculateOrderStatus | controllers/orderController.js:28-43 | pending iff no flag is set; completed iff all three are set; delivered iff photo and signature are set without KYC; in progress iff some flag is set but not both photo and signature |
| OrderLifecycle.WithFlag | controllers/orderController.js:20-25 | the named flag takes the value and the other two flags keep theirs |
| OrderLifecycle.StatusMonotone | controllers/orderController.js:28-43 | setting more flags never lowers the status in the order pending < in_progress < delivered < completed |
| OrderLifecycle.RecordIdempotent | controllers/orderController.js:20-25 | recording the same action twice leaves the same flags as recording it once |
| OrderLifecycle.RecordAll | controllers/orderController.js:20-25 | after a run of handlers, a flag is set iff it was set before or its action is in the run |
| OrderLifecycle.RecordAllExtends | controllers/orderController.js:20-25 | the flags after a prefix of the run are a subset of the flags after the whole run |
| OrderLifecycle.StatusNeverRegresses | controllers/orderController.js:20-43 | along any sequence of agent actions, the status after a shorter prefix ranks no higher than after a longer one |
| OrderLifecycle.PhotoSignatureKycScenario | controllers/orderController.js:28-43 | photo then signature gives delivered; adding KYC gives completed |
| OrderLifecycle.RecordGrows | controllers/orderController.js:20-25 | setting one flag keeps every order and never clears a flag |
| OrderLifecycle.AgentActionStore.constructor | controllers/orderController.js:5 | the action map starts empty |
| OrderLifecycle.AgentActionStore.GetAgentActions | controllers/orderController.js:8-17 | a known order's flags come back unchanged with the map untouched; an unseen order gets all-false flags, which are inserted |
| OrderLifecycle.AgentActionStore.UpdateAgentAction | controllers/orderController.js:20-25 | the order's record becomes its old record (or all-false) with exactly the named flag set to the value; other orders are unchanged |
| OrderLifecycle.RecordAction | controllers/orderController.js:350-351 | the action's flag is set, the map only grows, and the answer and update carry the status computed from the new flags |
| OrderLifecycle.SaveDeliveryPhoto | controllers/orderController.js:337-384 | no photo data gives 400 and leaves the map untouched; otherwise the photo flag is set and the answer carries the new status whatever the database replies |
| OrderLifecycle.SaveCustomerSignature | controllers/orderController.js:387-437 | a missing signature or customer name gives 400 with the map untouched; otherwise the signature flag is set and the update stores the customer name |
| OrderLifecycle.SaveKycData | controllers/orderController.js:440-490 | a missing full name or phone number gives 400 with the map untouched; otherwise the KYC flag is set and the update stores the form |
| OrderLifecycle.DeliveryWalkthrough | controllers/orderController.js:337-490 | photo, signature and KYC give delivered then completed, even when every database update fails; a repeated photo keeps completed |
| OrderCreation.EffectiveQuantity | controllers/orderController.js:95 | the effective quantity is never zero |
| OrderCreation.QuantityOfNumber | controllers/orderController.js:95 | a numeric quantity below 10^21 in magnitude is kept, negative ones included, except 0, which becomes 1; from 10^21 on `String(n)` is in exponent form and only its leading digit, with its sign, is read |
| OrderCreation.HugeQuantities | controllers/orderController.js:95 | a quantity of 10^21 is read as 1, and one of 2.5 × 10^21 as 2 |
| OrderCreation.QuantityDefaults | controllers/orderController.js:95 | a missing, null, non-numeric or empty quantity becomes 1 |
| OrderCreation.ContainsNeedsRoom | controllers/orderController.js:66 | a pattern longer than a name never matches it |
| OrderCreation.NameMatchesIgnoresCase | controllers/orderController.js:66 | the name match ignores the pattern's case |
| OrderCreation.FindByName | controllers/orderController.js:63-74 | not found iff no product name contains the pattern case-insensitively; otherwise the first matching product in row order |
| OrderCreation.RowsWithId | controllers/orderController.js:77-81 | exactly the catalogue rows whose id equals the given value |
| OrderCreation.FindById | controllers/orderController.js:77-88 | `.single()` finds a product iff exactly one catalogue row has the id, and then it is that row |
| OrderCreation.Resolve | controllers/orderController.js:58-93 | a resolved product is in the catalogue; a string name without a truthy product_id resolves to the first product whose name contains the trimmed name, case-insensitively (FindByName), and to the "not found" error when there is none; neither name nor id gives the "name or product_id" error; a name-based failure means the trimmed name matched no product, an id-based one that the id did not match exactly one row; an internal error only for a truthy name that is not a string, on which `trim` throws |
| OrderCreation.ProductIdTakesPrecedence | controllers/orderController.js:61-88 | a truthy product id is resolved by id, whatever the name says |
| OrderCreation.BlankNameMatchesFirstProduct | controllers/orderController.js:61-74 | a name made of blanks trims to an empty pattern, which resolves to the first product |
| OrderCreation.LineFor | controllers/orderController.js:95-105 | a line carries the product's id, name and price, the effective quantity, and total = unit price × quantity |
| OrderCreation.SumTotalsNonNegative | controllers/orderController.js:96-97 | with positive quantities and no negative unit price, the order total is not negative |
| OrderCreation.WebhookTarget | controllers/orderController.js:186-190 | a webhook target is a non-empty trimmed entry |
| OrderCreation.WebhookTargetsInOrder | controllers/orderController.js:184-192 | the targets are exactly the non-blank trimmed comma entries, one per entry at most, in the order written |
| OrderCreation.WebhookCalls | controllers/orderController.js:185-191 | one webhook post per target, in order |
| OrderCreation.UpTo | controllers/orderController.js:165-200 | the awaited calls made are a prefix of those planned: all of them when none throws, and up to and including the one that throws otherwise |
| OrderCreation.NotifyWebhooks | controllers/orderController.js:184-192 | the loop posts to the targets in order and stops after the post that throws |
| OrderCreation.SyncCrm | controllers/orderController.js:165-200 | the calls made are the planned calls up to and including the one that throws |
| OrderCreation.CrmCallsAfterDeal | controllers/orderController.js:165-192 | contact upsert, deal, then the webhook posts made, are the attempted prefix of the plan |
| OrderCreation.PlannedShape | controllers/orderController.js:166-192 | with a phone, the plan is the contact upsert, then the deal linked to the contact that came back, then one post per target |
| OrderCreation.CallsAfterHead | controllers/orderController.js:166-192 | after the two CRM calls come the webhook posts, one per target, in order |
| OrderCreation.ResolveAllSuccess | controllers/orderController.js:57-106 | the item loop succeeds iff every item resolves, and then yields one priced line per item, in order |
| OrderCreation.ResolveAllFailure | controllers/orderController.js:57-93 | a failing item loop reports the error of the first item that does not resolve |
| OrderCreation.ItemRows | controllers/orderController.js:136-141 | one `order_items` row per line, whose price is the line total |
| OrderCreation.ResolveItems | controllers/orderController.js:57-106 | the item loop computes the item-loop specification, and on success the running total is the sum of the line totals |
| OrderCreation.CreateOrder | controllers/orderController.js:45-213 | missing or empty items, or the first unresolvable item, give 400 with nothing written; otherwise the pending order row, owned by user 2 when unauthenticated, carries the sum of the line totals; an insert failure gives 500; success gives 201 whatever the CRM does |
| OrderCreation.BananasResolve | controllers/orderController.js:57-106 | three "bananas" resolve past "milk" to one line of 3 × 40.00 |
| OrderCreation.BananasLine | controllers/orderController.js:95-105 | the bananas line is priced 3 × 40.00 = 120.00 |
| OrderCreation.BananasFound | controllers/orderController.js:63-74 | "bananas" is found by name after the non-matching "milk" |
| OrderCreation.BananasOrder | controllers/orderController.js:45-213 | the order is created for the bot user, the item row carries the line total, and with no phone no CRM call is made |
| Conversation.VerifyWebhook | index.js:53-62 | 200 with the challenge iff the mode is "subscribe" and the token equals the configured one; 403 otherwise |
| Conversation.VerifyWebhookTokenCases | index.js:57 | a wrong or missing token is refused when one is configured; an omitted token is accepted when none is configured |
| Conversation.ParseSegment | index.js:204-207 | a segment yields an item only with a non-empty name and a positive quantity |
| Conversation.ParseOrderText | index.js:200-210 | at most one item per comma segment, each with a non-empty name and a positive quantity |
| Conversation.FilterMapValues | index.js:203-208 | every item produced comes from one of the segments |
| Conversation.ParseOrder | index.js:200-210 | the `forEach` loop yields exactly the recognised items of the segments, in order |
| Conversation.ParseOrderTextInOrder | index.js:201-208 | item k is the parse of segment ks[k], the ks increase, and every segment that parses is among them |
| Conversation.ParseSegmentShape | index.js:204-205 | a recognised item's quantity is parseInt of the first space-separated token, and its name is the remaining tokens joined with one space |
| Conversation.ParseSegmentOfNumeral | index.js:203-207 | "n name" gives (name, n) for n > 0, and nothing for n = 0 |
| Conversation.ParseSegmentWithoutSpace | index.js:204-207 | a segment with no space, such as "apples", has no name and gives nothing |
| Conversation.ParseOneSegment | index.js:201 | text without a comma is parsed as one segment |
| Conversation.ParseMoreSegments | index.js:201-208 | parsing "a,b" gives the items of a followed by the items of b |
| Conversation.ParseSegmentLeadingBlank | index.js:201 | a leading blank in a segment is trimmed away |
| Conversation.FirstComma | index.js:201 | text with a comma splits at its first comma |
| Conversation.ParseOrderTextLeadingBlank | index.js:201 | a leading blank before the whole text changes nothing |
| Conversation.LeadingBlankBeforeComma | index.js:201 | a leading blank before a first segment changes nothing |
| Conversation.ParseSegmentText | index.js:204-207 | one item written as "n name" parses back to that item |
| Conversation.FormatOrderTextCons | index.js:201 | after its first item, the prompted format is that item's segment, a comma, a blank and the rest |
| Conversation.CommaBlank | index.js:201 | ", " joins the same as "," followed by a blank |
| Conversation.ParseFormatOrderText | index.js:200-210 | an order written in the prompted format "2 apples, 1 milk" parses back to exactly its items, in order |
| Conversation.NormalizeText | index.js:75 | a text body is trimmed and lower-cased, so it has no surrounding whitespace and no ASCII capital; no body stays absent |
| Conversation.OrderRequest | index.js:117-121 | the posted body holds one name-based item per parsed item, the sender as phone, and the contact name |
| Conversation.Dispatch | index.js:83-168 | "hi"/"hello" greet and "help" lists the commands whatever the session; "order" prompts and starts the wait iff the text is "order"; the session is cleared iff the user was awaiting and sent a non-leading text; an order is posted iff that text parses to items, and an empty parse gets the "couldn't understand" reply; not awaiting, "status" gets the placeholder, "products" the product reply, and anything else the "didn't understand" reply; no reply iff awaiting without a text body |
| Conversation.OrderReply | index.js:124-142 | the order is reported placed iff the endpoint answered with a created order, with its id, total and lines; failed with the endpoint's error iff it refused; and the apology iff the call threw |
| Conversation.ProductsReply | index.js:150-166 | the apology iff the query failed, the "no products" notice iff it returned no rows, and otherwise the list of the rows returned |
| Conversation.LeadingCommandsIgnoreSession | index.js:83-93 | hi, hello, help and order answer the same whatever the session holds |
| Conversation.OrderCommandStartsWait | index.js:88-93 | "order" always prompts and starts the wait |
| Conversation.AwaitingTakesOrder | index.js:94-146 | while awaiting, any non-leading text is one order attempt that ends the wait, and an empty parse posts nothing |
| Conversation.AwaitingSwallowsWords | index.js:94-146 | while awaiting, a single word such as "status" or "products" is a failed order attempt that ends the wait |
| Conversation.OrderRequestItemsResolveByName | index.js:117-121 | each posted item is resolved by its name; a parsed quantity below 10^21 is kept at the order endpoint, and a larger one becomes its leading digit |
| Conversation.HugeCountArrivesAsOne | index.js:117-121 | "1000000000000000000000 apples" parses to that count, and the order endpoint reads it as 1 |
| Conversation.AwaitingSessionIsAwaiting | index.js:90-94 | the session stored on "order" is truthy and reads as awaiting |
| Conversation.ApplySessionOp | index.js:92-146 | the session is kept, set to awaiting, or deleted; a delete whose Redis command throws removes only the fallback entry, so the Redis value survives; other users are unchanged |
| Conversation.HandleIncomingMessage | index.js:65-179 | acknowledges 200; the reply and posted order are those of the dispatch on the stored session; the session is set, cleared or kept as the dispatch says, except that a throwing Redis `DEL` leaves the Redis session, still awaiting; other users' sessions are unchanged |
| Conversation.OrderConversation | index.js:83-146 | "order" then an order text gives the prompt, then the order attempt's reply, after which the user has no session |
| RedisSessions.SessionKey | services/redisSessionService.js:67 | a key is "session:" followed by the user id |
| RedisSessions.StripKeyPrefix | services/redisSessionService.js:172 | stripping the prefix gives the id whose key it was |
| RedisSessions.StripSessionKey | services/redisSessionService.js:172 | prefixing then stripping gives back the user id |
| RedisSessions.SessionKeyInjective | services/redisSessionService.js:67 | different users have different keys |
| RedisSessions.DueMembers | services/redisSessionService.js:100-103 | a user is due at t iff one of their timers fires by t |
| RedisSessions.Pending | services/redisSessionService.js:100-103 | no more timers stay pending than were scheduled |
| RedisSessions.PendingMembers | services/redisSessionService.js:100-103 | a timer stays pending iff it was scheduled and fires after t |
| RedisSessions.RedisSessionService.constructor | services/redisSessionService.js:8-18 | not connected, no sessions, and `REDIS_URL` or the local default |
| RedisSessions.RedisSessionService.SetConnected | services/redisSessionService.js:37-50 | the connection flag takes the value the ready, error or end handler gives it |
| RedisSessions.RedisSessionService.GetSession | services/redisSessionService.js:64-81 | the live Redis value when connected and the command succeeds; otherwise the fallback value or null, and non-null iff the fallback holds a truthy value |
| RedisSessions.RedisSessionService.SetSession | services/redisSessionService.js:86-110 | connected: the key is written with a 30-minute expiry; not connected: the fallback entry and a 30-minute timer; a failing command: the fallback entry with no timer; other users are unchanged |
| RedisSessions.RedisSessionService.DeleteSession | services/redisSessionService.js:115-132 | the key or the fallback entry is removed, so a later read gives null; other users are unchanged |
| RedisSessions.RedisSessionService.HasSession | services/redisSessionService.js:137-145 | true iff reading the session gives non-null |
| RedisSessions.RedisSessionService.ExtendSession | services/redisSessionService.js:150-163 | only a live key, when connected, gets 30 fresh minutes; nothing else changes and every read is unchanged |
| RedisSessions.RedisSessionService.GetActiveSessions | services/redisSessionService.js:168-180 | connected: exactly the users with a live key; fallback: the fallback's keys; a failing command: none |
| RedisSessions.RedisSessionService.GetStatus | services/redisSessionService.js:196-202 | the connection flag, the number of fallback entries even when connected, and the URL |
| RedisSessions.RedisSessionService.AdvanceClock | services/redisSessionService.js:100-103 | the timers due by t fire and delete their users' fallback entries; the rest stay pending |
| RedisSessions.FireTimers | services/redisSessionService.js:100-103 | the callbacks in scheduling order delete exactly the due users and keep the rest pending |
| RedisSessions.PrefixStep | services/redisSessionService.js:100-103 | one more timer extends the pending list and the due set by that timer alone |
| RedisSessions.PendingAppend | services/redisSessionService.js:100-103 | the pending timers of a longer list are those of the shorter list plus the new one if it is not due |
| RedisSessions.DueAppend | services/redisSessionService.js:100-103 | the due users of a longer list are those of the shorter list plus the new timer's user if it is due |
| RedisSessions.NoneDue | services/redisSessionService.js:100-103 | timers that all fire after t stay pending and delete nothing |
| RedisSessions.FirstOfTwoDue | services/redisSessionService.js:100-103 | of two timers, only the first is due between their firing times |
| RedisSessions.FallbackRoundTrip | services/redisSessionService.js:64-145 | in fallback mode a session is read back and present, and after a delete it reads as null and is not counted |
| RedisSessions.TimerNotCancelled | services/redisSessionService.js:100-103 | a session set again after 20 minutes is deleted by the first set's timer at 30 minutes |
| RedisSessions.FailedSetNeverExpires | services/redisSessionService.js:105-109 | a set whose command throws is stored in the fallback and still read back hours later |
| RedisSessions.RedisExtendKeepsAlive | services/redisSessionService.js:150-175 | a key extended at 20 minutes is still read and listed, without its prefix, at 40 minutes |
| RedisSessions.RedisKeyExpires | services/redisSessionService.js:86-94 | a key is neither read nor listed once its 30 minutes have passed |
| MemorySessions.MemorySessionService.constructor | services/memorySessionService.js:4 | the map starts empty |
| MemorySessions.MemorySessionService.SetSession | services/memorySessionService.js:7-11 | the value replaces any earlier one, a new key goes last in insertion order, other users are unchanged, and the answer is true |
| MemorySessions.MemorySessionService.GetSession | services/memorySessionService.js:13-16 | the stored value, or null when it is missing or falsy |
| MemorySessions.MemorySessionService.DeleteSession | services/memorySessionService.js:18-21 | true iff the user had an entry; the entry is gone, the insertion order of the rest is kept, and other users are unchanged |
| MemorySessions.MemorySessionService.ClearAllSessions | services/memorySessionService.js:29-32 | the map is empty and every read gives null |
| MemorySessions.MemorySessionService.GetAllSessions | services/memorySessionService.js:24-26 | one pair per stored key (the pairs themselves are stated by AllSessionsListing) |
| MemorySessions.AllSessionsListing | services/memorySessionService.js:24-26 | the listing holds every stored pair exactly once, in first-insertion order |
| MemorySessions.RemoveKey | services/memorySessionService.js:20 | removing a key keeps exactly the other keys |
| MemorySessions.RemoveKeyMembers | services/memorySessionService.js:20 | removing a key keeps the others distinct |
| MemorySessions.ReadWriteScenario | services/memorySessionService.js:7-21 | a set value reads back; a falsy value reads as null; the first delete is true and the second false |
| MemorySessions.ListingScenario | services/memorySessionService.js:7-26 | an overwrite keeps a key's first-insertion position in the listing |
| MemorySessions.ClearScenario | services/memorySessionService.js:24-32 | after clearing, nothing is read back or listed |
| OrderStatusService.DealStage | services/orderStatusService.js:38 | a listed status maps to its table stage; any other maps to "qualifiedtoprospect" |
| OrderStatusService.AllowListMatchesTable | services/orderStatusService.js:29-36 | the allow-list and the stage table name the same six statuses |
| OrderStatusService.DealStagesDistinct | services/orderStatusService.js:29-38 | distinct accepted statuses have distinct stages |
| OrderStatusService.FallbackStageReachedBy | services/orderStatusService.js:38 | the fallback stage is reached iff the status is "pending" or not in the allow-list |
| OrderStatusService.DerivedStatusesAgainstAllowList | services/orderStatusService.js:75-84 | of the statuses the agent flow derives, only pending and delivered are accepted; the others map to the fallback stage |
| OrderStatusService.UpdateOrderStatus | services/orderStatusService.js:7-65 | success iff the database returns the row; a failure carries the database message; the CRM lookup runs iff the update succeeded, the CRM is configured and a phone is given |
| OrderStatusService.CrmErrorsAreContained | services/orderStatusService.js:41-57 | a throwing CRM lookup never changes the result |
| OrderStatusService.HandleStatusUpdate | services/orderStatusService.js:70-100 | 400 with no write iff the status is not in the allow-list; 500 with the error iff the update fails; otherwise 200 naming the order and status |
| OrderStatusService.AgentStatusesRefused | services/orderStatusService.js:84-88 | setting "in_progress" or "completed" is refused with 400 |
| TokenManager.CeilDiv | services/tokenManager.js:116-118 | the quotient rounded up: (q − 1)·d < x ≤ q·d |
| TokenManager.ExpiryOf | services/tokenManager.js:18-19 | an expiry is recorded iff `expires_at` is present and non-zero, as `expires_at` × 1000 ms |
| TokenManager.WhatsAppTokenManager.constructor | services/tokenManager.js:5-13 | the three settings are read and no expiry is known |
| TokenManager.WhatsAppTokenManager.InitializeTokenInfo | services/tokenManager.js:15-32 | a truthy `expires_at` is recorded in ms and the reminder is scheduled; otherwise nothing is recorded |
| TokenManager.TimerDelay | services/tokenManager.js:86-93 | `setTimeout` fires after the requested delay iff it lies in 1 .. 2^31 − 1 ms; a longer one fires after 1 ms |
| TokenManager.WhatsAppTokenManager.RenewalReminder | services/tokenManager.js:78-94 | a reminder is requested iff more than 5 days remain, and the delay requested ends exactly 5 days before expiry |
| TokenManager.WhatsAppTokenManager.ScheduledReminder | services/tokenManager.js:78-94 | a timer is set iff a reminder is requested; it fires after the delay `setTimeout` honours, which is 5 days before expiry iff the requested delay is at most 2^31 − 1 ms |
| TokenManager.WhatsAppTokenManager.ScheduleRenewalReminder | services/tokenManager.js:78-94 | the delay passed to `setTimeout` is the renewal reminder's, and the timer fires when ScheduledReminder says |
| TokenManager.WhatsAppTokenManager.IsTokenExpiringSoon | services/tokenManager.js:96-104 | expiring soon iff an expiry is known and the days left, rounded up as the status counts them, are at most the threshold |
| TokenManager.WhatsAppTokenManager.GetTokenStatus | services/tokenManager.js:106-139 | permanent with no days iff there is no expiry; expired with 0 iff no time is left; expiring soon iff at most 7 days are left; active otherwise; days is the time left rounded up to whole days |
| TokenManager.WhatsAppTokenManager.RefreshToken | services/tokenManager.js:47-76 | a request is made iff app id and secret are both set; without one, or when the request fails, the answer is false; a token in the reply is returned; no token gives undefined |
| TokenManager.PermanentTokenNeverExpiring | services/tokenManager.js:96-113 | with no expiry, the status is permanent and the token is never expiring soon |
| TokenManager.StatusAgreesWithExpiringSoon | services/tokenManager.js:96-139 | expiring-soon and expired statuses pass the default 7-day test, and active fails it |
| TokenManager.ThreeDaysLeft | services/tokenManager.js:15-139 | three days before expiry the token is expiring soon with 3 days left and no reminder |
| TokenManager.TenDaysLeft | services/tokenManager.js:15-139 | ten days before expiry the token is active with 10 days left and a reminder in 5 days |
| TokenManager.LongTokensRemindAtOnce | services/tokenManager.js:84-93 | with more than 5 days plus 2^31 − 1 ms left, the requested delay exceeds 2^31 − 1 ms and the reminder fires after 1 ms, long before 5 days ahead of expiry |
| TokenManager.SixtyDaysLeft | services/tokenManager.js:15-139 | a 60-day token is active with 60 days left, and its reminder fires after 1 ms |
| TokenManager.RearmingDelays | services/tokenManager.js:84-93 | the corrected schedule only asks `setTimeout` for delays it honours |
| TokenManager.RearmingFiresOnTime | services/tokenManager.js:84-93 | the corrected chain of timers fires its last exactly the requested time later |
| TokenManager.CorrectedReminderOnTime | services/tokenManager.js:78-94 | with the corrected schedule the reminder fires exactly 5 days before expiry |
| Dashboard.BucketOf | pwa/src/pages/Dashboard.tsx:42-54 | after lower-casing, pending; in_progress or processing; completed or delivered; else none |
| Dashboard.CountIn | pwa/src/pages/Dashboard.tsx:39-58 | a bucket never counts more orders than there are |
| Dashboard.StatsOf | pwa/src/pages/Dashboard.tsx:39-58 | total is the number of orders, each counter is its bucket's count, and the three counters never exceed the total |
| Dashboard.BucketsPartition | pwa/src/pages/Dashboard.tsx:42-54 | the four bucket counts add up to the number of orders |
| Dashboard.StatsWithinTotal | pwa/src/pages/Dashboard.tsx:39-58 | pending, in-progress, completed and unknown statuses add up to the total |
| Dashboard.ComputeStats | pwa/src/pages/Dashboard.tsx:39-58 | the `reduce` computes the stats of the whole list |
| Dashboard.StatusColor | pwa/src/pages/Dashboard.tsx:68-81 | the badge colour is the colour of the status's bucket |
| Dashboard.ColorMatchesBucket | pwa/src/pages/Dashboard.tsx:68-81 | two statuses share a colour iff they share a bucket |
| Dashboard.BucketIgnoresCase | pwa/src/pages/Dashboard.tsx:42 | a status and its lower-cased form fall in the same bucket |
| Dashboard.DerivedStatusBuckets | pwa/src/pages/Dashboard.tsx:42-54 | every status the agent flow derives is counted, in the bucket its name suggests |
| JsText.OrNull | services/memorySessionService.js:15 | a truthy value is kept, a falsy one becomes null |
| JsText.Trim | index.js:201 | the result is no longer than the input and neither starts nor ends with whitespace |
| JsText.TrimIsSlice | index.js:201 | the trim is a slice of the input with only whitespace before and after it |
| JsText.TrimStart | index.js:201 | drops only leading whitespace, and the result does not start with whitespace |
| JsText.TrimEnd | index.js:201 | drops only trailing whitespace, and the result does not end with whitespace |
| JsText.TrimStartSuffix | index.js:201 | trimming the start drops a prefix |
| JsText.TrimEndPrefix | index.js:201 | trimming the end drops a suffix |
| JsText.TrimOfTrimmed | index.js:201 | text without surrounding whitespace is its own trim |
| JsText.TrimOfBlank | controllers/orderController.js:66 | whitespace-only text trims to "" |
| JsText.LowerChar | index.js:75 | an ASCII capital becomes its small letter and every other character is kept |
| JsText.ToLower | index.js:75 | same length, each ASCII capital lowered |
| JsText.ToLowerIdempotent | index.js:75 | lower-casing twice is lower-casing once |
| JsText.ToLowerOfLower | index.js:75 | text without capitals is its own lower-case form |
| JsText.Split | index.js:201 | at least one part, no part contains the separator, and one part iff there is no separator |
| JsText.JoinSplit | index.js:204-205 | joining the parts of a split with the separator gives back the text |
| JsText.SplitNoSeparator | index.js:201 | text without the separator splits into itself |
| JsText.SplitFirst | index.js:201 | the text is its first part, the separator and the rest re-joined, or the single part itself |
| JsText.SplitAfterFirst | index.js:201 | the text before the first separator is the first part; the rest splits on its own |
| JsText.LeadingDigits | index.js:206 | the longest prefix of digits in the radix |
| JsText.NatToString | index.js:206 | the decimal numeral of n ≥ 0 is a non-empty run of decimal digits |
| JsText.LeadingDigit | controllers/orderController.js:95 | the first decimal digit of n, which is not 0 for n > 0 |
| JsText.NatToStringStartsWithLeadingDigit | controllers/orderController.js:95 | the numeral of n starts with its leading digit |
| JsText.LeadingDigitOfShifted | controllers/orderController.js:95 | appending zeros keeps the leading digit |
| JsText.DropTrailingZeros | controllers/orderController.js:95 | a prefix of the digits that does not end in 0 |
| JsText.ExponentFormShape | controllers/orderController.js:95 | the exponent form is an optional minus, the leading digit, then "." or "e" |
| JsText.ParseUnsignedOfOneDigit | controllers/orderController.js:95 | a digit followed by a non-digit reads as that digit |
| JsText.ParseIntOfSignedDigit | controllers/orderController.js:95 | an optional minus, a non-zero digit and then "." or "e" read as that digit with its sign |
| JsText.ParseIntOfExponentForm | controllers/orderController.js:95 | `parseInt` of the exponent form is the leading digit with its sign |
| JsText.ParseIntOfNumberToString | controllers/orderController.js:95 | `parseInt(String(n))` is n below 10^21 in magnitude, and the signed leading digit from there on |
| JsText.DigitsValueOfNatToString | index.js:206 | the decimal digits of n read back as n |
| JsText.ParseUnsignedOfDecimal | index.js:206 | a string of decimal digits reads as its decimal value |
| JsText.ParseIntOfMinus | index.js:206 | a leading minus negates the reading of the rest |
| JsText.ParseIntOfNonNumeric | controllers/orderController.js:95 | text that does not start with a blank, sign or digit is NaN |
| JsText.ParseIntOfDigitFirst | index.js:206 | text starting with a digit reads as its unsigned value |
| JsText.ParseInt | index.js:206 | a number is read only when a decimal digit follows the optional sign; a negative result needs a minus sign and a positive one excludes it |
| JsText.ParseIntOfIntToString | index.js:206 | reading back the decimal numeral of n gives n |
| JsText.FilterMapLength | index.js:203-208 | the kept items match the kept positions one for one |
| JsText.FilterMapAppend | index.js:203-208 | the items of two lists of segments are the items of the first followed by those of the second |
| JsText.FilterMapStep | index.js:203-208 | one more segment adds its item, if any, at the end |
| JsText.FilterMapPrefix | index.js:203-208 | the items of a prefix of the segments are a prefix of the items |
| JsText.FilterMapAt | index.js:203-208 | kept item k is the mapped value at kept position k |
| JsText.KeptIncreasing | index.js:203-208 | kept positions increase, so the input order is preserved |
| JsText.KeptComplete | index.js:203-208 | every position that maps to a value is kept |
| JsText.TraverseSuccess | controllers/orderController.js:57-106 | a loop that stops at the first failure succeeds iff every step does, with one value per input |
| JsText.TraverseFailure | controllers/orderController.js:57-93 | a failing loop reports the first failing step |
| JsText.TraverseFromPrefix | controllers/orderController.js:57-93 | once a prefix fails, the whole loop fails with the same error |

## Findings

| source | as written | input that shows it | evidently intended | confidence | as-written member | corrected member |
|---|---|---|---|---|---|---|
| services/tokenManager.js:84-93 | `setTimeout` is given the whole time until five days before expiry | a 60-day token: the delay is 55 days, about 4.75 × 10^9 ms, above the 2^31 − 1 ms `setTimeout` honours, so the reminder fires after 1 ms | the reminder fires five days before expiry | not executed | TokenManager.LongTokensRemindAtOnce | TokenManager.CorrectedReminderOnTime |

The corrected schedule, `RearmingDelays`, waits at most 2^31 − 1 ms at a
time and re-arms until the reminder time is reached;
`RearmingFiresOnTime` proves that the chain ends exactly at that time.

## Left out

- I/O is outside the model. The Supabase queries, HubSpot client, webhook HTTP posts, WhatsApp `sendText` and the `fetch` to the order endpoint are replaced by outcome parameters. Only the calls chosen and their order are modelled.
- The Redis client lifecycle is not modelled. `initialize`, the `connect` handler and `disconnect` are left out, and `isConnected` is an input set by `SetConnected`. Redis values are kept as values, so the `JSON.stringify` and `JSON.parse` round trip is treated as identity.
- RedisSessions.RedisSessionService.GetActiveSessions: returns a set, so the order of the `KEYS` reply is not modelled.
- `cleanupExpiredSessions` only logs, so it has no model.
- Concurrency is not modelled: interleaved messages or agent actions on the same order, and timers firing between the awaits of one handler.
- JavaScript float arithmetic on prices is not modelled; prices are exact integers in minor units.
- OrderCreation.CreateOrder: a `null` or `undefined` element of `items` is not modelled. In the source, reading its `name` throws and the outer `catch` answers 500 "Internal server error: …". `ItemRequest` cannot express such an element.
- Conversation.HandleIncomingMessage: a `contacts[0]` without `profile` is not modelled. In the source, `.profile.name` throws inside the inner `try`: the user gets the apology, no order is posted, and the session is still deleted. `Inbound.contactName` cannot express this input.
- TokenManager.WhatsAppTokenManager.InitializeTokenInfo: an `expires_at` above 8.64 × 10^12 seconds is not modelled. In the source it makes an invalid `Date`, `toISOString` throws after the field is set, no reminder is scheduled, and `getTokenStatus` later reports "active" with NaN days. The model records the expiry and schedules the reminder.
- OrderCreation.Resolve: a database error in the product query is treated like "not found". Both give the same 400.
- OrderCreation.IdMatches: `.eq("id", v)` is modelled as matching a number or its decimal text. Other casts the database may apply are not.
- `getOrders` and `getOrderById` only read the database. They are not modelled.
- Conversation.HandleIncomingMessage: a non-string text body is not modelled. `message.text.body` is taken to be a string or absent.
- OrderStatusService.DealStage: inherited `Object.prototype` keys such as "constructor" are not modelled as table entries.
- OrderStatusService.HandleStatusUpdate: the outer `catch` of `handleStatusUpdate` (500 "Internal server error") is not modelled, because the modelled steps cannot throw.
- JsText.ToLower: lower-cases ASCII letters only. Unicode case mapping is left out.
- Dashboard.ComputeStats: a `null` status, on which `toLowerCase` throws, is not modelled. Statuses are strings.
- TokenManager.ExpiryOf: a non-numeric `expires_at` is not modelled. It is an optional integer.
- TokenManager.WhatsAppTokenManager.RefreshToken: like the source, it never replaces the stored token. Timers that call it later are not modelled.
- Conversation.OrderConversation: covers two messages on the fallback store only. Redis mode is covered by HandleIncomingMessage's contract.
- OrderCreation.QuantityOfNumber: JSON numbers are modelled as integers. A fractional quantity such as 2.5 is read as 2 by `parseInt` in the source, and 0.5 becomes 1; integers beyond 2^53 are exact here, while the source rounds them to the nearest double.
- Conversation.OrderRequestItemsResolveByName: the parsed count travels as an exact integer. The source sends it through `JSON.stringify` as a double, so a count beyond 2^53 arrives rounded.
- JsText.NatToString: gives the exact decimal numeral. `String(n)` on a double differs beyond 2^53, where it prints the nearest double, and from 10^21 on, where `NumberToString` takes over.
- JsText.ParseIntOfIntToString: exact for every integer. In the source, `parseInt` of a numeral longer than 15 or 16 digits returns the nearest double.
- OrderCreation.NameMatches: `ilike` with the pattern `%name%` is read as a substring test. The `%`, `_` and `\` characters inside a customer's name are wildcards and escapes to the database, and are taken literally here.
- OrderCreation.FindByName: inherits the literal reading of `%`, `_` and `\` from NameMatches, and compares with ASCII lower-casing where the database applies its own case folding.
- TokenManager.WhatsAppTokenManager.ScheduleRenewalReminder: the `refreshToken` call in the timer's callback and the log lines are not modelled; only when the timer fires.
- The `products` reply's text formatting and every reply template are represented by reply constructors, not by their text.
