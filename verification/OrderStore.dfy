/** The payment order table and its statements, each of which changes at most one row. */
module OrderStore {
  import opened Common
  import opened Orders

  datatype BindResult = BoundOrder(order: Order) | BindFailed

  class Store {
    var rows: map<nat, Order>
    var nextId: nat

    ghost predicate Valid()
      reads this
    {
      && (forall id :: id in rows ==> id < nextId && rows[id].id == id)
      && UniqueIndexes(rows)
    }

    constructor ()
      ensures Valid() && rows == map[]
    {
      rows, nextId := map[], 1;
    }

    method CreateOrder(p: CreateParams, now: int) returns (o: Order)
      requires Valid()
      modifies this
      ensures Valid() && o == NewOrder(old(nextId), p, now)
      ensures o.createAt == now && o.status == Pending && o.reason == NoReason && o.rewards == p.rewards
      ensures o.uid == p.uid && o.productId == p.productId && o.thirdPartyProductId == p.thirdPartyProductId && o.paymentType == p.paymentType
      ensures o.credential == None && o.credentialHash == None && o.thirdPartyOrderId == None
      ensures old(nextId) !in old(rows) && rows == old(rows)[o.id := o] && nextId == old(nextId) + 1
    {
      o := NewOrder(nextId, p, now);
      rows := rows[nextId := o];
      nextId := nextId + 1;
    }

    /** The newest Pending order of the user for the channel and product, if there is one. */
    method FindPendingOrder(uid: nat, paymentType: PaymentType, productId: int) returns (r: Option<Order>)
      requires Valid()
      ensures r.None? ==> forall id :: id in rows ==> !IsPendingFor(rows[id], uid, paymentType, productId)
      ensures r.Some? ==> r.value.id in rows && rows[r.value.id] == r.value && IsPendingFor(r.value, uid, paymentType, productId)
      ensures r.Some? ==> forall id :: id in rows && IsPendingFor(rows[id], uid, paymentType, productId) ==> id <= r.value.id
    {
      var id := nextId;
      while id > 0
        invariant forall k :: k in rows && k >= id ==> !IsPendingFor(rows[k], uid, paymentType, productId)
      {
        id := id - 1;
        if id in rows && IsPendingFor(rows[id], uid, paymentType, productId) {
          return Some(rows[id]);
        }
      }
      r := None;
    }

    /** The first `limit` expired Pending orders by ascending id. */
    method FindExpiredPendingOrders(expiredAt: int, limit: nat) returns (found: seq<Order>)
      requires Valid()
      ensures |found| <= limit
      ensures forall i :: 0 <= i < |found| ==> found[i].id in rows && rows[found[i].id] == found[i] && ExpiredPending(found[i], expiredAt)
      ensures forall i, j :: 0 <= i < j < |found| ==> found[i].id < found[j].id
      ensures forall id :: id in rows && ExpiredPending(rows[id], expiredAt) && (|found| < limit || (found != [] && id < found[|found| - 1].id))
                           ==> rows[id] in found
    {
      found := [];
      var id := 0;
      while id < nextId && |found| < limit
        invariant |found| <= limit && id <= nextId
        invariant forall i :: 0 <= i < |found| ==> found[i].id in rows && rows[found[i].id] == found[i] && ExpiredPending(found[i], expiredAt)
        invariant forall i :: 0 <= i < |found| ==> found[i].id < id
        invariant forall i, j :: 0 <= i < j < |found| ==> found[i].id < found[j].id
        invariant forall k :: k in rows && k < id && ExpiredPending(rows[k], expiredAt) ==> rows[k] in found
      {
        if id in rows && ExpiredPending(rows[id], expiredAt) {
          found := found + [rows[id]];
        }
        id := id + 1;
      }
    }

    method GetExpiredPendingOrder(orderId: nat, expiredAt: int) returns (r: Option<Order>)
      ensures r == if orderId in rows && ExpiredPending(rows[orderId], expiredAt) then Some(rows[orderId]) else None
    {
      r := if orderId in rows && ExpiredPending(rows[orderId], expiredAt) then Some(rows[orderId]) else None;
    }

    /** Conditional UPDATE, then a read-back whose checks decide the outcome. */
    method FindAndBindOrder(uid: nat, paymentType: PaymentType, orderId: nat, productId: int, credential: string, thirdPartyOrderId: string)
      returns (r: BindResult)
      requires Valid()
      modifies this`rows
      ensures Valid()
      ensures r.BoundOrder? <==>
              && credential != "" && orderId in old(rows)
              && CanBind(old(rows)[orderId], uid, paymentType, productId, credential, thirdPartyOrderId)
              && !Conflicts(old(rows), Bound(old(rows)[orderId], credential, thirdPartyOrderId))
      ensures r.BoundOrder? ==> rows == old(rows)[orderId := r.order] && r.order == Bound(old(rows)[orderId], credential, thirdPartyOrderId)
      ensures r.BindFailed? ==> rows == old(rows)
      ensures r.BoundOrder? ==> var was := old(rows)[orderId];
        && was.uid == uid && was.paymentType == paymentType && was.productId == productId
        && (was.credentialHash == None || was.credentialHash == Some(Sha256(credential)))
        && r.order.credential == Some(credential) && r.order.credentialHash == Some(Sha256(credential))
        && r.order.thirdPartyOrderId == (if thirdPartyOrderId == "" then was.thirdPartyOrderId else Some(thirdPartyOrderId))
        && r.order.status == was.status && r.order.reason == was.reason && r.order.createAt == was.createAt && r.order.rewards == was.rewards
    {
      if credential == "" { return BindFailed; }
      if orderId in rows && CanBind(rows[orderId], uid, paymentType, productId, credential, thirdPartyOrderId) {
        var o := Bound(rows[orderId], credential, thirdPartyOrderId);
        if Conflicts(rows, o) { return BindFailed; }
        rows := rows[orderId := o];
      }
      if orderId !in rows { return BindFailed; }
      var order := rows[orderId];
      if !BoundTo(order, uid, paymentType, productId, credential, thirdPartyOrderId) { return BindFailed; }
      r := BoundOrder(order);
    }

    method MarkOrderTimeout(orderId: nat, expiredAt: int, now: int)
      requires Valid()
      modifies this`rows
      ensures Valid()
      ensures rows == if orderId in old(rows) && ExpiredPending(old(rows)[orderId], expiredAt)
                      then old(rows)[orderId := TimedOut(old(rows)[orderId], now)] else old(rows)
      ensures forall id :: id in rows && id in old(rows) && rows[id] != old(rows)[id] ==>
        && id == orderId && old(rows)[id].status == Pending && old(rows)[id].createAt <= expiredAt
        && rows[id] == old(rows)[id].(status := Cancelled, reason := TimeoutReason, cancelAt := now)
    {
      if orderId in rows && ExpiredPending(rows[orderId], expiredAt) {
        rows := rows[orderId := TimedOut(rows[orderId], now)];
      }
    }

    /** Only a Pending order, or one closed by timeout, can become Purchased. */
    method MarkOrderPurchased(orderId: nat, tp: ThirdPartyOrder) returns (affected: bool)
      requires Valid()
      modifies this`rows
      ensures Valid()
      ensures affected ==> orderId in old(rows)
      ensures orderId in old(rows) ==> var was := old(rows)[orderId];
        (affected <==> was.status == Pending || (was.status == Cancelled && was.reason == TimeoutReason))
      ensures rows == if affected then old(rows)[orderId := MarkedPurchased(old(rows)[orderId], tp)] else old(rows)
      ensures affected ==> var was, after := old(rows)[orderId], rows[orderId];
        && after.status == Purchased && after.reason == NoReason && after.cancelAt == 0
        && after.realAmount == tp.amount && after.isSandbox == tp.isSandbox
        && after.payAt == (if tp.payAt > 0 then tp.payAt else was.payAt)
        && after.credential == (if tp.credential != "" then Some(tp.credential) else was.credential)
        && SameButPayment(was, after) && after.refundAt == was.refundAt && after.refundNote == was.refundNote
    {
      affected := orderId in rows && CanPurchase(rows[orderId]);
      if affected { rows := rows[orderId := MarkedPurchased(rows[orderId], tp)]; }
    }

    method MarkOrderRefunded(orderId: nat, tp: ThirdPartyOrder, now: int) returns (affected: bool)
      requires Valid()
      modifies this`rows
      ensures Valid()
      ensures affected <==> orderId in old(rows) && old(rows)[orderId].status == Purchased
      ensures rows == if affected then old(rows)[orderId := MarkedRefunded(old(rows)[orderId], tp, now)] else old(rows)
      ensures affected ==> var was, after := old(rows)[orderId], rows[orderId];
        && after.status == Cancelled && after.reason == RefundReason
        && after.refundAt == after.cancelAt == (if tp.refundAt > 0 then tp.refundAt else now)
        && after.refundNote == (if tp.refundNote != "" then tp.refundNote else "refund")
        && SameButPayment(was, after) && SamePayment(was, after)
    {
      affected := orderId in rows && rows[orderId].status == Purchased;
      if affected { rows := rows[orderId := MarkedRefunded(rows[orderId], tp, now)]; }
    }

    method MarkOrderCancelled(orderId: nat, tp: ThirdPartyOrder, now: int) returns (affected: bool)
      requires Valid()
      modifies this`rows
      ensures Valid()
      ensures affected <==> orderId in old(rows) && old(rows)[orderId].status == Pending
      ensures rows == if affected then old(rows)[orderId := MarkedCancelled(old(rows)[orderId], tp, now)] else old(rows)
      ensures affected ==> var was, after := old(rows)[orderId], rows[orderId];
        && after.status == Cancelled && after.reason == RefundReason
        && after.cancelAt == (if tp.refundAt > 0 then tp.refundAt else now)
        && after.refundAt == (if tp.refundAt > 0 then tp.refundAt else was.refundAt)
        && after.refundNote == (if tp.refundNote != "" then tp.refundNote else was.refundNote)
        && SameButPayment(was, after) && SamePayment(was, after)
    {
      affected := orderId in rows && rows[orderId].status == Pending;
      if affected { rows := rows[orderId := MarkedCancelled(rows[orderId], tp, now)]; }
    }

    /** Unconditional on the status; an unknown id is an error. */
    method UpdateOrderRewards(orderId: nat, rewards: Snapshot) returns (found: bool)
      requires Valid()
      modifies this`rows
      ensures Valid()
      ensures found <==> orderId in old(rows)
      ensures rows == if found then old(rows)[orderId := old(rows)[orderId].(rewards := rewards)] else old(rows)
    {
      found := orderId in rows;
      if found { rows := rows[orderId := rows[orderId].(rewards := rewards)]; }
    }
  }

  /** The columns no status update touches. */
  predicate SameButPayment(a: Order, b: Order) {
    && a.id == b.id && a.uid == b.uid && a.productId == b.productId && a.thirdPartyProductId == b.thirdPartyProductId
    && a.paymentType == b.paymentType && a.createAt == b.createAt && a.rewards == b.rewards
    && a.credentialHash == b.credentialHash && a.thirdPartyOrderId == b.thirdPartyOrderId
  }

  predicate SamePayment(a: Order, b: Order) {
    a.credential == b.credential && a.realAmount == b.realAmount && a.isSandbox == b.isSandbox && a.payAt == b.payAt
  }

  predicate IsPendingFor(o: Order, uid: nat, paymentType: PaymentType, productId: int) {
    o.uid == uid && o.paymentType == paymentType && o.productId == productId && o.status == Pending
  }
}
