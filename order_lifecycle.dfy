/**
  Delivery progress of an order, driven by the three field-agent actions
  (delivery photo, customer signature, KYC form), as kept by the order
  controller: a per-order record of action flags held in memory, the
  status derived from those flags, and the three capture handlers.
 */
module OrderLifecycle {
  import opened JsText

  /** Orders are addressed by the `:orderId` path parameter, a string. */
  type OrderId = string

  /** The flag record `{ photo_captured, signature_captured, kyc_completed }`. */
  datatype Actions = Actions(photoCaptured: bool, signatureCaptured: bool, kycCompleted: bool)

  const NoActions := Actions(false, false, false)

  /** The three flag names a handler can set. */
  datatype ActionKind = PhotoCaptured | SignatureCaptured | KycCompleted

  datatype Status = Pending | InProgress | Delivered | Completed

  /** The status as the controller spells it. */
  function StatusName(s: Status): string {
    match s
    case Pending => "pending"
    case InProgress => "in_progress"
    case Delivered => "delivered"
    case Completed => "completed"
  }

  function Flag(a: Actions, k: ActionKind): bool {
    match k
    case PhotoCaptured => a.photoCaptured
    case SignatureCaptured => a.signatureCaptured
    case KycCompleted => a.kycCompleted
  }

  /** `actions[action] = value`: the named flag takes `value`, the other two keep theirs. */
  function WithFlag(a: Actions, k: ActionKind, value: bool): (r: Actions)
    ensures Flag(r, k) == value
    ensures forall other :: other != k ==> Flag(r, other) == Flag(a, other)
  {
    match k
    case PhotoCaptured => a.(photoCaptured := value)
    case SignatureCaptured => a.(signatureCaptured := value)
    case KycCompleted => a.(kycCompleted := value)
  }

  /** How many of the three flags are set (the `filter(Boolean).length` of the controller). */
  function CompletedActions(a: Actions): (n: nat)
    ensures n <= 3
  {
    (if a.photoCaptured then 1 else 0)
    + (if a.signatureCaptured then 1 else 0)
    + (if a.kycCompleted then 1 else 0)
  }

  /**
    `calculateOrderStatus`: counts the set flags; none is pending, all three
    is completed, photo and signature without KYC is delivered, anything
    else is in progress. The contract states each outcome directly in terms
    of the flags, in both directions.
   */
  function CalculateOrderStatus(a: Actions): (s: Status)
    ensures s == Pending <==> a == NoActions
    ensures s == Completed <==> a.photoCaptured && a.signatureCaptured && a.kycCompleted
    ensures s == Delivered <==> a.photoCaptured && a.signatureCaptured && !a.kycCompleted
    ensures s == InProgress <==>
              a != NoActions && !(a.photoCaptured && a.signatureCaptured)
  {
    var completed := CompletedActions(a);
    if completed == 0 then Pending
    else if completed == 3 then Completed
    else if a.photoCaptured && a.signatureCaptured then Delivered
    else InProgress
  }

  /** The order in which a status may only move forward: pending < in_progress < delivered < completed. */
  function Rank(s: Status): (r: nat)
    ensures r <= 3
  {
    match s
    case Pending => 0
    case InProgress => 1
    case Delivered => 2
    case Completed => 3
  }

  /** Every flag set in `a` is also set in `b`. */
  predicate Below(a: Actions, b: Actions) {
    forall k :: Flag(a, k) ==> Flag(b, k)
  }

  /** Setting more flags never lowers the status. */
  lemma StatusMonotone(a: Actions, b: Actions)
    requires Below(a, b)
    ensures Rank(CalculateOrderStatus(a)) <= Rank(CalculateOrderStatus(b))
  {
    assert Flag(a, PhotoCaptured) ==> Flag(b, PhotoCaptured);
    assert Flag(a, SignatureCaptured) ==> Flag(b, SignatureCaptured);
    assert Flag(a, KycCompleted) ==> Flag(b, KycCompleted);
  }

  /** Recording an action twice is the same as recording it once. */
  lemma RecordIdempotent(a: Actions, k: ActionKind)
    ensures WithFlag(WithFlag(a, k, true), k, true) == WithFlag(a, k, true)
  {
  }

  /** The flags after the handlers for `ks` ran, in order, on `a` (handlers only ever set a flag to true). */
  function RecordAll(a: Actions, ks: seq<ActionKind>): (r: Actions)
    ensures Below(a, r)
    ensures forall k :: Flag(r, k) <==> Flag(a, k) || k in ks
    decreases |ks|
  {
    if ks == [] then a else RecordAll(WithFlag(a, ks[0], true), ks[1..])
  }

  /** Recording more actions only ever adds flags. */
  lemma {:induction false} RecordAllExtends(a: Actions, ks: seq<ActionKind>, n: nat)
    requires n <= |ks|
    ensures Below(RecordAll(a, ks[..n]), RecordAll(a, ks))
  {
    var r, full := RecordAll(a, ks[..n]), RecordAll(a, ks);
    forall k | Flag(r, k) ensures Flag(full, k) {
      if k !in ks[..n] {
        assert Flag(a, k);
      } else {
        var i :| 0 <= i < n && ks[..n][i] == k;
        assert ks[i] == k;
      }
    }
  }

  /**
    Along any sequence of agent actions on one order, the reported status
    never moves backwards: the status after a prefix ranks no higher than
    the status after any longer prefix.
   */
  lemma StatusNeverRegresses(a: Actions, ks: seq<ActionKind>, i: nat, j: nat)
    requires i <= j <= |ks|
    ensures Rank(CalculateOrderStatus(RecordAll(a, ks[..i])))
         <= Rank(CalculateOrderStatus(RecordAll(a, ks[..j])))
  {
    assert ks[..j][..i] == ks[..i];
    RecordAllExtends(a, ks[..j], i);
    StatusMonotone(RecordAll(a, ks[..i]), RecordAll(a, ks[..j]));
  }

  /** Photo then signature leaves a fresh order delivered; KYC afterwards completes it. */
  lemma PhotoSignatureKycScenario()
    ensures CalculateOrderStatus(RecordAll(NoActions, [PhotoCaptured, SignatureCaptured])) == Delivered
    ensures CalculateOrderStatus(RecordAll(NoActions, [PhotoCaptured, SignatureCaptured, KycCompleted])) == Completed
  {
    var two := RecordAll(NoActions, [PhotoCaptured, SignatureCaptured]);
    assert two.photoCaptured && two.signatureCaptured && !two.kycCompleted;
  }

  /** Between two states of the action map: no order disappears and no flag is cleared. */
  predicate Grows(before: map<OrderId, Actions>, after: map<OrderId, Actions>) {
    forall id :: id in before ==> id in after && Below(before[id], after[id])
  }

  /** Setting one flag of one order to true is a growth of the action map. */
  lemma RecordGrows(m: map<OrderId, Actions>, orderId: OrderId, k: ActionKind)
    ensures var before := if orderId in m then m[orderId] else NoActions;
            Grows(m, m[orderId := WithFlag(before, k, true)])
  {
  }

  /** The controller's module-level `orderActionState` map. */
  class AgentActionStore {
    var state: map<OrderId, Actions>

    constructor()
      ensures state == map[]
    {
      state := map[];
    }

    /**
      `getAgentActions`: an order seen before gets its record back untouched;
      an unseen order gets a fresh all-false record, which is inserted.
     */
    method GetAgentActions(orderId: OrderId) returns (a: Actions)
      modifies this
      ensures orderId in old(state) ==> a == old(state)[orderId] && state == old(state)
      ensures orderId !in old(state) ==> a == NoActions && state == old(state)[orderId := NoActions]
    {
      if orderId !in state {
        state := state[orderId := NoActions];
      }
      a := state[orderId];
    }

    /**
      `updateAgentAction`: the named flag of that order takes `value`; its
      other flags and every other order's record are unchanged.
     */
    method UpdateAgentAction(orderId: OrderId, action: ActionKind, value: bool) returns (a: Actions)
      modifies this
      ensures var before := if orderId in old(state) then old(state)[orderId] else NoActions;
              a == WithFlag(before, action, value)
      ensures state == old(state)[orderId := a]
    {
      var current := GetAgentActions(orderId);
      a := WithFlag(current, action, value);
      state := state[orderId := a];
    }
  }

  /** What a capture handler answers. */
  datatype ActionResponse =
    | BadRequest(error: string)                                  // 400
    | Saved(orderId: OrderId, action: ActionKind, status: Status) // 200, echoing the flag and the new status

  /**
    The single-row update a handler sends to the orders table: the new
    status, the flag it sets, and the extra columns (customer name, KYC form).
   */
  datatype OrderUpdate = OrderUpdate(orderId: OrderId, status: Status, action: ActionKind, extra: map<string, JsValue>)

  /** Outcome of the database update; the handlers only log a failure. */
  datatype DbOutcome = DbOk | DbFailed(message: string)

  /** Set the flag for `kind`, recompute the status from the in-memory record, and build the update. */
  method RecordAction(store: AgentActionStore, orderId: OrderId, kind: ActionKind, extra: map<string, JsValue>)
    returns (resp: ActionResponse, update: OrderUpdate)
    modifies store
    ensures var before := if orderId in old(store.state) then old(store.state)[orderId] else NoActions;
            store.state == old(store.state)[orderId := WithFlag(before, kind, true)]
    ensures Grows(old(store.state), store.state)
    ensures resp == Saved(orderId, kind, CalculateOrderStatus(store.state[orderId]))
    ensures update == OrderUpdate(orderId, resp.status, kind, extra)
  {
    RecordGrows(store.state, orderId, kind);
    var updated := store.UpdateAgentAction(orderId, kind, true);
    var status := CalculateOrderStatus(updated);
    update := OrderUpdate(orderId, status, kind, extra);
    resp := Saved(orderId, kind, status);
  }

  /**
    `saveDeliveryPhoto`: without `photoData` the answer is 400 and the
    action map is not touched; otherwise the photo flag is set, and the
    answer carries the status computed from the in-memory flags whether or
    not the database update succeeds.
   */
  method SaveDeliveryPhoto(store: AgentActionStore, orderId: OrderId, photoData: JsValue, db: DbOutcome)
    returns (resp: ActionResponse, update: Option<OrderUpdate>)
    modifies store
    ensures !Truthy(photoData) ==>
              resp == BadRequest("Photo data is required") && update == None && store.state == old(store.state)
    ensures Truthy(photoData) ==>
              var before := if orderId in old(store.state) then old(store.state)[orderId] else NoActions;
              && store.state == old(store.state)[orderId := WithFlag(before, PhotoCaptured, true)]
              && resp == Saved(orderId, PhotoCaptured, CalculateOrderStatus(store.state[orderId]))
              && update == Some(OrderUpdate(orderId, resp.status, PhotoCaptured, map[]))
    ensures Grows(old(store.state), store.state)
  {
    if !Truthy(photoData) {
      return BadRequest("Photo data is required"), None;
    }
    var u;
    resp, u := RecordAction(store, orderId, PhotoCaptured, map[]);
    update := Some(u);
  }

  /**
    `saveCustomerSignature`: needs both `signatureData` and `customerName`;
    the update also stores the customer name.
   */
  method SaveCustomerSignature(store: AgentActionStore, orderId: OrderId, signatureData: JsValue,
                               customerName: JsValue, db: DbOutcome)
    returns (resp: ActionResponse, update: Option<OrderUpdate>)
    modifies store
    ensures !(Truthy(signatureData) && Truthy(customerName)) ==>
              && resp == BadRequest("Signature data and customer name are required")
              && update == None && store.state == old(store.state)
    ensures Truthy(signatureData) && Truthy(customerName) ==>
              var before := if orderId in old(store.state) then old(store.state)[orderId] else NoActions;
              && store.state == old(store.state)[orderId := WithFlag(before, SignatureCaptured, true)]
              && resp == Saved(orderId, SignatureCaptured, CalculateOrderStatus(store.state[orderId]))
              && update == Some(OrderUpdate(orderId, resp.status, SignatureCaptured,
                                            map["customer_name" := customerName]))
    ensures Grows(old(store.state), store.state)
  {
    if !Truthy(signatureData) || !Truthy(customerName) {
      return BadRequest("Signature data and customer name are required"), None;
    }
    var u;
    resp, u := RecordAction(store, orderId, SignatureCaptured, map["customer_name" := customerName]);
    update := Some(u);
  }

  /**
    `saveKYCData`: the whole request body is the KYC form; it needs
    `fullName` and `phoneNumber`, and the update stores the form.
   */
  method SaveKycData(store: AgentActionStore, orderId: OrderId, kycData: map<string, JsValue>, db: DbOutcome)
    returns (resp: ActionResponse, update: Option<OrderUpdate>)
    modifies store
    ensures !(Truthy(Field(kycData, "fullName")) && Truthy(Field(kycData, "phoneNumber"))) ==>
              && resp == BadRequest("Full name and phone number are required")
              && update == None && store.state == old(store.state)
    ensures Truthy(Field(kycData, "fullName")) && Truthy(Field(kycData, "phoneNumber")) ==>
              var before := if orderId in old(store.state) then old(store.state)[orderId] else NoActions;
              && store.state == old(store.state)[orderId := WithFlag(before, KycCompleted, true)]
              && resp == Saved(orderId, KycCompleted, CalculateOrderStatus(store.state[orderId]))
              && update == Some(OrderUpdate(orderId, resp.status, KycCompleted,
                                            map["kyc_data" := JsObject(kycData)]))
    ensures Grows(old(store.state), store.state)
  {
    if !Truthy(Field(kycData, "fullName")) || !Truthy(Field(kycData, "phoneNumber")) {
      return BadRequest("Full name and phone number are required"), None;
    }
    var u;
    resp, u := RecordAction(store, orderId, KycCompleted, map["kyc_data" := JsObject(kycData)]);
    update := Some(u);
  }

  /**
    The documented walk-through on one order: photo, then signature, then
    KYC; the second answer reports delivered and the third completed, and
    repeating the photo afterwards keeps the order completed.
   */
  method DeliveryWalkthrough(orderId: OrderId, photo: JsValue, signature: JsValue, name: JsValue,
                             kyc: map<string, JsValue>, db: DbOutcome)
    returns (afterSignature: Status, afterKyc: Status, afterRepeat: Status)
    requires Truthy(photo) && Truthy(signature) && Truthy(name)
    requires Truthy(Field(kyc, "fullName")) && Truthy(Field(kyc, "phoneNumber"))
    ensures afterSignature == Delivered && afterKyc == Completed && afterRepeat == Completed
  {
    var store := new AgentActionStore();
    var r1, u1 := SaveDeliveryPhoto(store, orderId, photo, db);
    assert store.state[orderId] == Actions(true, false, false);
    var r2, u2 := SaveCustomerSignature(store, orderId, signature, name, db);
    assert store.state[orderId] == Actions(true, true, false);
    var r3, u3 := SaveKycData(store, orderId, kyc, db);
    assert store.state[orderId] == Actions(true, true, true);
    var r4, u4 := SaveDeliveryPhoto(store, orderId, photo, db);
    afterSignature, afterKyc, afterRepeat := r2.status, r3.status, r4.status;
  }
}
