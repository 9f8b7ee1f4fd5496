/**
 The order table's methods against the protocol: run on the rows of a protocol state, each does to
 the rows what the matching step of a handler does, and its answer tells which way the handler goes.
 */
module OrderStatements {
  import opened Common
  import opened Orders
  import opened OrderStore
  import opened Protocol
  import opened ProtocolInvariants
  import opened ProtocolSteps

  /** The table holds the rows of a protocol state. */
  ghost predicate Holds(rows: map<nat, Order>, nextId: nat, s: State) { rows == s.orders && nextId == s.nextOrderId }

  /** A table with the rows of a reachable state is in order. */
  lemma TableValid(s: State)
    requires Inv(s)
    ensures UniqueIndexes(s.orders) && forall id :: id in s.orders ==> id < s.nextOrderId && s.orders[id].id == id
  {
    hide TasksOk, HandlersOk, LedgerOk, ConsumedOk, Items.Valid;
    forall id | id in s.orders ensures id < s.nextOrderId && s.orders[id].id == id { assert OrderOk(s, id); }
  }

  /** The table of a state, as a store of its own. */
  method TableOf(s: State) returns (table: Store)
    requires Inv(s)
    ensures fresh(table) && table.Valid() && Holds(table.rows, table.nextId, s)
  {
    TableValid(s);
    hide Inv;
    table := new Store();
    table.rows, table.nextId := s.orders, s.nextOrderId;
  }

  /** The handler's next step, by name. */
  ghost predicate At(s: State, h: nat, pc: Pc) { Inv(s) && h in s.handlers && s.handlers[h].pc == pc }

  lemma Rows(s: State, h: nat)
    requires Inv(s) && h in s.handlers
    ensures Tracked(s) && forall id :: id in s.orders ==> s.orders[id].id == id
  {
    hide OrdersOk, TasksOk, HandlersOk, LedgerOk, ConsumedOk, UniqueIndexes, Items.Valid;
  }

  // ----- what the steps do to the rows

  lemma MovedAt(s: State, h: nat)
    requires Inv(s) && h in s.handlers && !s.handlers[h].pc.Ask?
    ensures Tracked(s) && Inv(Advance(s, h))
  {
    hide *;
    InvParts(s);
    MoveInv(s, h);
  }

  lemma GoIds(s: State, h: nat, pc: Pc)
    requires h in s.handlers
    ensures Go(s, h, pc).nextOrderId == s.nextOrderId && Drop(s, h).nextOrderId == s.nextOrderId
  {
  }

  lemma PutIds(s: State, o: Order)
    requires o.id in s.phases && s.phases[o.id] != []
    ensures Put(s, o).nextOrderId == s.nextOrderId
  {
  }

  lemma BindRows(s: State, h: nat, uid: nat, tp: ThirdPartyOrder)
    requires Tracked(s) && h in s.handlers && tp.uid == uid
    ensures var id, s' := tp.internalOrderId, BindStep(s, h, uid, tp);
      && s'.nextOrderId == s.nextOrderId
      && (h in s'.handlers ==> s'.handlers[h].pc == ReadBack(uid, tp))
      && if tp.credential != "" && id in s.orders && CanBind(s.orders[id], uid, Google, tp.internalProductId, tp.credential, tp.orderId) then
           var o := Bound(s.orders[id], tp.credential, tp.orderId);
           if Conflicts(s.orders, o) then h !in s'.handlers && s'.orders == s.orders
           else h in s'.handlers && s'.orders == s.orders[id := o]
         else s'.orders == s.orders
  {
    var id := tp.internalOrderId;
    hide Framed, Quiet, Conflicts, CanBind, Put, Go, Drop;
    GoIds(s, h, ReadBack(uid, tp));
    if tp.credential != "" && id in s.orders && CanBind(s.orders[id], uid, Google, tp.internalProductId, tp.credential, tp.orderId) {
      var o := Bound(s.orders[id], tp.credential, tp.orderId);
      PutIds(s, o);
      GoIds(Put(s, o), h, ReadBack(uid, tp));
    }
  }

  lemma BindEffect(s: State, h: nat, uid: nat, tp: ThirdPartyOrder)
    requires Inv(s) && h in s.handlers && s.handlers[h].pc == Bind(uid, tp)
    ensures Tracked(s) && Inv(Advance(s, h)) && Advance(s, h) == BindStep(s, h, uid, tp)
  {
    hide *;
    MovedAt(s, h);
    AdvanceIs(s, h);
  }

  lemma PurchasedRows(s: State, h: nat, o: Order, tp: ThirdPartyOrder)
    requires Tracked(s) && h in s.handlers
    ensures var s' := SetPurchasedStep(s, h, o, tp);
      && s'.nextOrderId == s.nextOrderId
      && if o.id in s.orders && CanPurchase(s.orders[o.id])
         then s'.orders == s.orders[o.id := MarkedPurchased(s.orders[o.id], tp)] && h in s'.handlers && s'.handlers[h].pc == Complete(o, tp)
         else s'.orders == s.orders && h !in s'.handlers
  {
    hide Framed, Quiet, CanPurchase;
  }

  lemma PurchasedEffect(s: State, h: nat, o: Order, tp: ThirdPartyOrder)
    requires Inv(s) && h in s.handlers && s.handlers[h].pc == SetPurchased(o, tp)
    ensures Tracked(s) && Inv(Advance(s, h)) && Advance(s, h) == SetPurchasedStep(s, h, o, tp)
  {
    hide *;
    MovedAt(s, h);
    AdvanceIs(s, h);
  }

  lemma ScanEffect(s: State, h: nat, orderId: nat, expiredAt: int)
    requires At(s, h, Start) && s.handlers[h].origin == Scan(orderId, expiredAt)
    ensures Tracked(s) && Inv(Advance(s, h)) && Advance(s, h) == BeginScan(s, h, orderId, expiredAt)
  {
    MovedAt(s, h);
    AdvanceIs(s, h);
    hide Inv, Advance, Tracked, Framed, RowsKept, BeginScan;
  }

  lemma TimeoutEffect(s: State, h: nat, orderId: nat, expiredAt: int)
    requires Inv(s) && h in s.handlers && s.handlers[h].origin.Scan? && s.handlers[h].origin.expiredAt == expiredAt
    requires || (s.handlers[h].pc.CloseUnpaid? && s.handlers[h].origin.orderId == orderId)
             || (s.handlers[h].pc.CloseWaiting? && s.handlers[h].pc.order.id == orderId)
    ensures Tracked(s) && Advance(s, h) == CloseByTimeout(s, h, orderId, expiredAt)
  {
    Rows(s, h);
    AdvanceIs(s, h);
    hide Inv, Advance, Tracked, Framed, CloseByTimeout;
  }

  // ----- the methods

  method InsertStatement(table: Store, p: CreateParams, now: int, ghost s: State, ghost h: nat) returns (o: Order)
    requires table.Valid() && At(s, h, InsertOrder(p)) && Holds(table.rows, table.nextId, s) && now == s.now
    modifies table
    ensures table.Valid() && Tracked(s) && Holds(table.rows, table.nextId, Advance(s, h))
    ensures o.id !in s.orders && o.id in table.rows && IsPendingFor(o, p.uid, p.paymentType, p.productId)
  {
    o := table.CreateOrder(p, now);
    Rows(s, h);
    AdvanceIs(s, h);
    hide Inv, Advance, Tracked, Framed;
  }

  /** A Pending order found ends the creation; none sends it on to its insert. */
  method LookStatement(table: Store, p: CreateParams, ghost s: State, ghost h: nat) returns (r: Option<Order>)
    requires table.Valid() && At(s, h, LookForPending(p)) && Holds(table.rows, table.nextId, s)
    ensures Tracked(s) && Holds(table.rows, table.nextId, Advance(s, h))
    ensures r.Some? <==> h !in Advance(s, h).handlers
    ensures r.None? ==> At(Advance(s, h), h, InsertOrder(p))
    ensures r.Some? ==> r.value.id in s.orders && PendingFor(s.orders[r.value.id], p)
                        && forall id :: id in s.orders && PendingFor(s.orders[id], p) ==> id <= r.value.id
  {
    r := table.FindPendingOrder(p.uid, p.paymentType, p.productId);
    Rows(s, h);
    MoveInv(s, h);
    AdvanceIs(s, h);
    hide Inv, Advance, Tracked, Framed, RowsKept, Grows;
  }

  /** The conditional update and the read-back, made without a pause: the handler's two steps. */
  method BindStatement(table: Store, uid: nat, tp: ThirdPartyOrder, ghost s: State, ghost h: nat) returns (r: BindResult)
    requires table.Valid() && At(s, h, Bind(uid, tp)) && Holds(table.rows, table.nextId, s) && tp.uid == uid
    modifies table
    ensures table.Valid() && Tracked(s) && Holds(table.rows, table.nextId, Advance(s, h))
    ensures r.BoundOrder? ==>
      && At(Advance(s, h), h, ReadBack(uid, tp)) && tp.internalOrderId in Advance(s, h).orders
      && r.order == Advance(s, h).orders[tp.internalOrderId]
      && BoundTo(r.order, uid, Google, tp.internalProductId, tp.credential, tp.orderId)
    ensures r.BindFailed? && h in Advance(s, h).handlers && tp.internalOrderId in s.orders ==>
      !BoundTo(Advance(s, h).orders[tp.internalOrderId], uid, Google, tp.internalProductId, tp.credential, tp.orderId)
  {
    BindEffect(s, h, uid, tp);
    BindRows(s, h, uid, tp);
    hide Inv, Advance, Tracked, Conflicts, BindStep;
    r := table.FindAndBindOrder(uid, Google, tp.internalOrderId, tp.internalProductId, tp.credential, tp.orderId);
  }

  /** The scan's re-read: nothing ends the handler, and a row decides between closing and asking. */
  method ScanStatement(table: Store, orderId: nat, expiredAt: int, ghost s: State, ghost h: nat) returns (r: Option<Order>)
    requires At(s, h, Start) && s.handlers[h].origin == Scan(orderId, expiredAt) && Holds(table.rows, table.nextId, s)
    ensures Tracked(s) && Holds(table.rows, table.nextId, Advance(s, h))
    ensures r.None? ==> h !in Advance(s, h).handlers && Advance(s, h).sightings == s.sightings
    ensures r.Some? && (r.value.credential == None || r.value.credential == Some("")) ==>
      At(Advance(s, h), h, CloseUnpaid) && orderId in Advance(s, h).sightings && SightedBy(Scan(orderId, expiredAt), s, orderId)
    ensures r.Some? && r.value.credential.Some? && r.value.credential != Some("") && r.value.paymentType == Google ==>
      At(Advance(s, h), h, Ask(Some(r.value.uid), r.value.credential.value))
  {
    r := table.GetExpiredPendingOrder(orderId, expiredAt);
    ScanEffect(s, h, orderId, expiredAt);
    hide Inv, Advance, Tracked, Framed, RowsKept;
  }

  method TimeoutStatement(table: Store, orderId: nat, expiredAt: int, now: int, ghost s: State, ghost h: nat)
    requires table.Valid() && Inv(s) && h in s.handlers && s.handlers[h].origin.Scan? && s.handlers[h].origin.expiredAt == expiredAt
    requires || (s.handlers[h].pc.CloseUnpaid? && s.handlers[h].origin.orderId == orderId)
             || (s.handlers[h].pc.CloseWaiting? && s.handlers[h].pc.order.id == orderId)
    requires Holds(table.rows, table.nextId, s) && now == s.now
    modifies table
    ensures table.Valid() && Tracked(s) && Holds(table.rows, table.nextId, Advance(s, h))
  {
    TimeoutEffect(s, h, orderId, expiredAt);
    Rows(s, h);
    hide Inv, Advance, Tracked, Framed;
    table.MarkOrderTimeout(orderId, expiredAt, now);
  }

  /** An affected row sends the handler on to completion; none ends it. */
  method PurchasedStatement(table: Store, o: Order, tp: ThirdPartyOrder, ghost s: State, ghost h: nat) returns (affected: bool)
    requires table.Valid() && At(s, h, SetPurchased(o, tp)) && Holds(table.rows, table.nextId, s)
    modifies table
    ensures table.Valid() && Tracked(s) && Holds(table.rows, table.nextId, Advance(s, h))
    ensures if affected then At(Advance(s, h), h, Complete(o, tp)) else h !in Advance(s, h).handlers
  {
    PurchasedEffect(s, h, o, tp);
    PurchasedRows(s, h, o, tp);
    hide Inv, Advance, Tracked, SetPurchasedStep;
    affected := table.MarkOrderPurchased(o.id, tp);
  }

  method CancelledStatement(table: Store, o: Order, tp: ThirdPartyOrder, now: int, ghost s: State, ghost h: nat) returns (affected: bool)
    requires table.Valid() && At(s, h, SetCancelled(o, tp)) && Holds(table.rows, table.nextId, s) && now == s.now
    modifies table
    ensures table.Valid() && Tracked(s) && Holds(table.rows, table.nextId, Advance(s, h))
    ensures affected <==> Advance(s, h).orders != s.orders
  {
    affected := table.MarkOrderCancelled(o.id, tp, now);
    Rows(s, h);
    AdvanceIs(s, h);
    hide Inv, Advance, Tracked, Framed, Quiet;
  }

  method RefundedStatement(table: Store, o: Order, tp: ThirdPartyOrder, now: int, ghost s: State, ghost h: nat) returns (affected: bool)
    requires table.Valid() && At(s, h, SetRefunded(o, tp)) && Holds(table.rows, table.nextId, s) && now == s.now
    modifies table
    ensures table.Valid() && Tracked(s) && Holds(table.rows, table.nextId, Advance(s, h))
    ensures affected <==> Advance(s, h).orders != s.orders
  {
    affected := table.MarkOrderRefunded(o.id, tp, now);
    Rows(s, h);
    AdvanceIs(s, h);
    hide Inv, Advance, Tracked, Framed, Quiet;
  }

  method RewardsStatement(table: Store, o: Order, tp: ThirdPartyOrder, rewards: Snapshot, ghost s: State, ghost h: nat) returns (found: bool)
    requires table.Valid() && At(s, h, SaveRewards(o, tp, rewards)) && Holds(table.rows, table.nextId, s)
    modifies table
    ensures table.Valid() && Tracked(s) && Holds(table.rows, table.nextId, Advance(s, h))
    ensures if found then At(Advance(s, h), h, SendGrant(o, tp, rewards)) else h !in Advance(s, h).handlers
  {
    found := table.UpdateOrderRewards(o.id, rewards);
    Rows(s, h);
    MoveInv(s, h);
    AdvanceIs(s, h);
    hide Inv, Advance, Tracked, Framed, Quiet, Grows;
  }
}
