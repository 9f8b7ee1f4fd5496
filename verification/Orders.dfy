/** Payment orders: the row, the provider's answer, and the guarded updates of one row. */
module Orders {
  import opened Common

  datatype OrderStatus = Pending | Purchased | Cancelled | OtherStatus(code: int)

  /** The `cancel_reason` column: "", "timeout" or "refund". */
  datatype CancelReason = NoReason | TimeoutReason | RefundReason

  datatype ProviderStatus = ProviderPending | ProviderPurchased | ProviderCancelled | OtherProviderStatus(code: int)

  datatype PaymentType = Apple | Google | OtherChannel(code: int)

  /** SHA-256 idealised as an injective function. */
  datatype Sha256 = Sha256(of: string)

  /** The JSON `rewards` column and task payload: absent, the text `null`, or a list. */
  datatype Snapshot = NoSnapshot | NullSnapshot | ListSnapshot(rewards: RewardList)

  /** `json.Marshal` of a possibly nil slice. */
  function Marshal(rewards: Option<RewardList>): Snapshot {
    match rewards case None => NullSnapshot case Some(list) => ListSnapshot(list)
  }

  /** What a task handler reads back: an empty payload and `null` both mean no rewards. */
  function Unmarshal(s: Snapshot): RewardList {
    match s case ListSnapshot(list) => list case _ => []
  }

  datatype Amount = Amount(unit: int, nanos: int, currency: string)

  datatype Order = Order(
    id: nat, uid: nat, productId: int, thirdPartyProductId: string, paymentType: PaymentType, createAt: int,
    status: OrderStatus, reason: CancelReason,
    credential: Option<string>, credentialHash: Option<Sha256>, thirdPartyOrderId: Option<string>,
    rewards: Snapshot,
    realAmount: Amount, isSandbox: bool, payAt: int, refundAt: int, refundNote: string, cancelAt: int)

  datatype ThirdPartyOrder = ThirdPartyOrder(
    status: ProviderStatus, internalOrderId: nat, internalProductId: int, uid: nat,
    orderId: string, productId: string, credential: string,
    amount: Amount, payAt: int, refundAt: int, refundNote: string, isSandbox: bool, consumed: bool)

  datatype CreateParams = CreateParams(
    uid: nat, productId: int, thirdPartyProductId: string, paymentType: PaymentType, rewards: Snapshot)

  // ----- the guarded updates, row by row

  function NewOrder(id: nat, p: CreateParams, now: int): Order {
    Order(id, p.uid, p.productId, p.thirdPartyProductId, p.paymentType, now, Pending, NoReason,
          None, None, None, p.rewards, Amount(0, 0, ""), false, 0, 0, "", 0)
  }

  predicate CanBind(o: Order, uid: nat, paymentType: PaymentType, productId: int, credential: string, thirdPartyOrderId: string) {
    && o.uid == uid && o.paymentType == paymentType && o.productId == productId
    && (o.credentialHash == None || o.credentialHash == Some(Sha256(credential)))
    && (thirdPartyOrderId != "" ==> o.thirdPartyOrderId == None || o.thirdPartyOrderId == Some(thirdPartyOrderId))
  }

  function Bound(o: Order, credential: string, thirdPartyOrderId: string): (r: Order)
    ensures r.id == o.id && r.status == o.status && r.reason == o.reason
  {
    o.(credential := Some(credential), credentialHash := Some(Sha256(credential)),
       thirdPartyOrderId := if thirdPartyOrderId != "" then Some(thirdPartyOrderId) else o.thirdPartyOrderId)
  }

  /** The checks `FindAndBindOrder` makes on the row it reads back. */
  predicate BoundTo(o: Order, uid: nat, paymentType: PaymentType, productId: int, credential: string, thirdPartyOrderId: string) {
    && o.uid == uid && o.paymentType == paymentType && o.productId == productId
    && o.credentialHash == Some(Sha256(credential))
    && (thirdPartyOrderId != "" ==> o.thirdPartyOrderId == Some(thirdPartyOrderId))
  }

  predicate ExpiredPending(o: Order, expiredAt: int) { o.status == Pending && o.createAt <= expiredAt }

  function TimedOut(o: Order, now: int): (r: Order)
    ensures r.id == o.id
  {
    o.(status := Cancelled, reason := TimeoutReason, cancelAt := now)
  }

  predicate CanPurchase(o: Order) { o.status == Pending || (o.status == Cancelled && o.reason == TimeoutReason) }

  function MarkedPurchased(o: Order, tp: ThirdPartyOrder): (r: Order)
    ensures r.id == o.id && r.status == Purchased
  {
    o.(status := Purchased, reason := NoReason, cancelAt := 0, realAmount := tp.amount, isSandbox := tp.isSandbox,
       payAt := if tp.payAt > 0 then tp.payAt else o.payAt,
       credential := if tp.credential != "" then Some(tp.credential) else o.credential)
  }

  function MarkedRefunded(o: Order, tp: ThirdPartyOrder, now: int): (r: Order)
    ensures r.id == o.id && r.status == Cancelled && r.reason == RefundReason
  {
    var at := if tp.refundAt <= 0 then now else tp.refundAt;
    o.(status := Cancelled, reason := RefundReason, refundNote := if tp.refundNote == "" then "refund" else tp.refundNote,
       refundAt := at, cancelAt := at)
  }

  function MarkedCancelled(o: Order, tp: ThirdPartyOrder, now: int): (r: Order)
    ensures r.id == o.id && r.status == Cancelled && r.reason == RefundReason
  {
    o.(status := Cancelled, reason := RefundReason, cancelAt := if tp.refundAt > 0 then tp.refundAt else now,
       refundAt := if tp.refundAt > 0 then tp.refundAt else o.refundAt,
       refundNote := if tp.refundNote != "" then tp.refundNote else o.refundNote)
  }

  // ----- table constraints

  predicate SameIndexKey(a: Order, b: Order) {
    && a.paymentType == b.paymentType
    && ((a.credentialHash.Some? && a.credentialHash == b.credentialHash)
        || (a.thirdPartyOrderId.Some? && a.thirdPartyOrderId == b.thirdPartyOrderId))
  }

  /** The unique indexes on (payment_type, credential_hash) and (payment_type, third_party_order_id). */
  ghost predicate UniqueIndexes(rows: map<nat, Order>) {
    forall a, b :: a in rows && b in rows && a != b ==> !SameIndexKey(rows[a], rows[b])
  }

  /** Writing `o` over its row would hit another row's index key. */
  predicate Conflicts(rows: map<nat, Order>, o: Order) {
    exists k :: k in rows && k != o.id && SameIndexKey(rows[k], o)
  }

  // ----- the decision table on internal status, cancel reason and provider status

  datatype ProcessResult = Waiting | DonePurchased | DoneCancelled

  datatype Decision =
    | Purchase                     // grant, mark Purchased, complete
    | Cancel                       // mark Cancelled
    | Revoke                       // revoke, mark Refunded
    | CompleteOnly                 // complete the provider order again
    | Nothing(result: ProcessResult)
    | Refuse                       // an error, nothing is written

  function Decide(status: OrderStatus, reason: CancelReason, provider: ProviderStatus): Decision {
    match status
    case Pending => (
      match provider
      case ProviderPending => Nothing(Waiting)
      case ProviderPurchased => Purchase
      case ProviderCancelled => Cancel
      case OtherProviderStatus(_) => Refuse)
    case Purchased => (
      match provider
      case ProviderPending => Nothing(DonePurchased)
      case ProviderPurchased => CompleteOnly
      case ProviderCancelled => Revoke
      case OtherProviderStatus(_) => Refuse)
    case Cancelled => (
      match provider
      case ProviderPending => Nothing(DoneCancelled)
      case ProviderPurchased => if reason == TimeoutReason then Purchase else Refuse
      case ProviderCancelled => Nothing(DoneCancelled)
      case OtherProviderStatus(_) => Refuse)
    case OtherStatus(_) => Refuse
  }
}
