/**
  The order-status endpoint: the allow-list of statuses an order may be
  set to, the table that maps an order status to a CRM deal stage, and the
  decisions of `updateOrderStatus` and `handleStatusUpdate` around the
  database update and the CRM lookup, whose outcomes are parameters.
 */
module OrderStatusService {
  import opened JsText
  import OrderLifecycle

  /** `validStatuses`, in the order the error message lists them. */
  const ValidStatuses: seq<string> := ["pending", "confirmed", "preparing", "shipped", "delivered", "cancelled"]

  /** `statusMap`: order status to deal stage. */
  const StatusMap: map<string, string> := map[
    "pending" := "qualifiedtoprospect",
    "confirmed" := "presentationscheduled",
    "preparing" := "decisionmakerboughtin",
    "shipped" := "contractsent",
    "delivered" := "closedwon",
    "cancelled" := "closedlost"
  ]

  /** The stage used for any status the table does not name. */
  const FallbackStage := "qualifiedtoprospect"

  /** `statusMap[newStatus] || "qualifiedtoprospect"`. */
  function DealStage(status: string): (stage: string)
    ensures status in StatusMap ==> stage == StatusMap[status]
    ensures status !in StatusMap ==> stage == FallbackStage
  {
    if status in StatusMap then StatusMap[status] else FallbackStage
  }

  /** The allow-list and the stage table name the same six statuses. */
  lemma AllowListMatchesTable()
    ensures forall s :: s in ValidStatuses <==> s in StatusMap
    ensures |ValidStatuses| == |StatusMap.Keys| == 6
  {
    var keys := {"pending"};
    assert |keys| == 1;
    assert "confirmed" !in keys;
    keys := keys + {"confirmed"};
    assert "preparing" !in keys;
    keys := keys + {"preparing"};
    assert "shipped" !in keys;
    keys := keys + {"shipped"};
    assert "delivered" !in keys;
    keys := keys + {"delivered"};
    assert "cancelled" !in keys;
    keys := keys + {"cancelled"};
    assert |keys| == 6;
    assert StatusMap.Keys == keys;
  }

  /**
    Each accepted status has a stage of its own, and the fallback stage is
    reached by "pending" (whose own stage it is) and by unlisted statuses only.
   */
  lemma DealStagesDistinct(s: string, t: string)
    requires s in ValidStatuses && t in ValidStatuses && s != t
    ensures DealStage(s) != DealStage(t)
  {
  }

  lemma FallbackStageReachedBy(s: string)
    ensures DealStage(s) == FallbackStage <==> s == "pending" || s !in ValidStatuses
  {
  }

  /** Of the statuses the agent flow derives, "pending" and "delivered" may be set here; "in_progress" and "completed" are refused and would map to the fallback stage. */
  lemma DerivedStatusesAgainstAllowList(s: OrderLifecycle.Status)
    ensures OrderLifecycle.StatusName(s) in ValidStatuses <==> s == OrderLifecycle.Pending || s == OrderLifecycle.Delivered
    ensures OrderLifecycle.StatusName(s) !in ValidStatuses ==> DealStage(OrderLifecycle.StatusName(s)) == FallbackStage
  {
  }

  /** What the `orders` update query gave: the updated row, an error, or an exception. */
  datatype DbOutcome = DbRow(order: JsValue) | DbError(message: string) | DbThrew(message: string)

  /** The CRM side: whether the client is configured, and whether the contact lookup throws. */
  datatype CrmSetting = CrmSetting(configured: bool, lookupThrows: bool)

  /** `{ success: true, order }` or `{ success: false, error }`. */
  datatype UpdateResult = Updated(order: JsValue) | UpdateFailed(error: string)

  /** The result, with the phone number the CRM was asked about, if it was. */
  datatype UpdateRun = UpdateRun(result: UpdateResult, crmLookup: Option<JsValue>)

  /**
    `updateOrderStatus`: a database error or exception is the failure
    result; otherwise the row is returned, after a contact lookup that runs
    only when the CRM is configured and a phone is given. A lookup that
    throws is caught and changes nothing.
   */
  function UpdateOrderStatus(newStatus: string, customerPhone: JsValue, db: DbOutcome, crm: CrmSetting): (run: UpdateRun)
    ensures run.result.Updated? <==> db.DbRow?
    ensures run.result.Updated? ==> run.result.order == db.order
    ensures run.result.UpdateFailed? ==> run.result.error == db.message
    ensures run.crmLookup.Some? <==> db.DbRow? && crm.configured && Truthy(customerPhone)
    ensures run.crmLookup.Some? ==> run.crmLookup.value == customerPhone
  {
    match db
    case DbError(msg) => UpdateRun(UpdateFailed(msg), None)
    case DbThrew(msg) => UpdateRun(UpdateFailed(msg), None)
    case DbRow(order) =>
      var lookup := if crm.configured && Truthy(customerPhone) then Some(customerPhone) else None;
      UpdateRun(Updated(order), lookup)
  }

  /** A CRM lookup that throws never turns a successful update into a failure. */
  lemma CrmErrorsAreContained(newStatus: string, phone: JsValue, db: DbOutcome, configured: bool)
    ensures UpdateOrderStatus(newStatus, phone, db, CrmSetting(configured, true)).result
         == UpdateOrderStatus(newStatus, phone, db, CrmSetting(configured, false)).result
  {
  }

  /** `req.body`'s `status` and `customerPhone`. */
  datatype StatusBody = StatusBody(status: JsValue, customerPhone: JsValue)

  /** The endpoint's answer. */
  datatype StatusResponse =
    | StatusUpdated(message: string, order: JsValue)   // 200
    | InvalidStatus(error: string)                     // 400
    | UpdateError(error: string)                       // 500

  function ResponseCode(r: StatusResponse): int {
    match r
    case StatusUpdated(_, _) => 200
    case InvalidStatus(_) => 400
    case UpdateError(_) => 500
  }

  /** `validStatuses.includes(status)`: only a string equal to one of the six. */
  predicate IsValidStatus(status: JsValue) {
    status.JsString? && status.s in ValidStatuses
  }

  /** The 400 message: the allow-list joined with ", ". */
  const InvalidStatusMessage := "Invalid status. Valid statuses: " + Join(ValidStatuses, ", ")

  /** The answer, and the status the database was asked to write (none when the status is refused). */
  datatype HandledUpdate = HandledUpdate(response: StatusResponse, written: Option<string>)

  /**
    `handleStatusUpdate`: a status outside the allow-list gets 400 and
    writes nothing; otherwise the update runs, and its failure is a 500
    with the error while its success is a 200 naming order and status.
   */
  function HandleStatusUpdate(orderId: string, body: StatusBody, db: DbOutcome, crm: CrmSetting): (h: HandledUpdate)
    ensures ResponseCode(h.response) == 400 <==> !IsValidStatus(body.status)
    ensures h.written.Some? <==> IsValidStatus(body.status)
    ensures h.written.Some? ==> h.written.value == body.status.s
    ensures ResponseCode(h.response) == 500 <==> IsValidStatus(body.status) && !db.DbRow?
    ensures h.response.UpdateError? ==> h.response.error == db.message
    ensures h.response.StatusUpdated? ==>
              h.response.order == db.order
              && h.response.message == "Order " + orderId + " status updated to " + body.status.s
  {
    if !IsValidStatus(body.status) then HandledUpdate(InvalidStatus(InvalidStatusMessage), None)
    else
      var run := UpdateOrderStatus(body.status.s, body.customerPhone, db, crm);
      match run.result
      case Updated(order) =>
        HandledUpdate(StatusUpdated("Order " + orderId + " status updated to " + body.status.s, order), Some(body.status.s))
      case UpdateFailed(error) => HandledUpdate(UpdateError(error), Some(body.status.s))
  }

  /** Setting an order to a status the agent flow derives but the allow-list lacks is refused. */
  lemma AgentStatusesRefused(orderId: string, phone: JsValue, db: DbOutcome, crm: CrmSetting)
    ensures HandleStatusUpdate(orderId, StatusBody(JsString("in_progress"), phone), db, crm).response == InvalidStatus(InvalidStatusMessage)
    ensures HandleStatusUpdate(orderId, StatusBody(JsString("completed"), phone), db, crm).response == InvalidStatus(InvalidStatusMessage)
  {
    DerivedStatusesAgainstAllowList(OrderLifecycle.InProgress);
    DerivedStatusesAgainstAllowList(OrderLifecycle.Completed);
  }
}
