/** Every step of the payment protocol keeps the invariant and takes nothing back. */
module ProtocolSteps {
  import opened Common
  import opened Items
  import opened ItemLaws
  import opened Orders
  import opened Protocol
  import opened ProtocolInvariants

  // ----- queue and inventory

  lemma LedgerMoreSent(ledger: seq<Entry>, nonces: set<Nonce>, sent: set<Task>, sent': set<Task>)
    requires LedgerOk(ledger, nonces, sent) && sent <= sent'
    ensures LedgerOk(ledger, nonces, sent')
  {
  }

  lemma EnqueueNew(s: State, t: Task, s': State)
    requires Inv(s) && TaskOk(s, t) && RefOf(t) !in s.queue
    requires s' == s.(queue := s.queue[RefOf(t) := t], sent := s.sent + {t})
    ensures Inv(s') && Grows(s, s')
  {
    hide Inv, OrdersOk, OrderOk, UniqueIndexes, HandlersOk, HandlerOk, LedgerOk, ConsumedOk, Grows, Valid, TaskOk;
    InvParts(s);
    LedgerMoreSent(s.ledger, s.nonces, s.sent, s'.sent);
    assert Tracked(s');
    RowsUntouched(s, s');
    ConsumedGrows(s, s');
    TaskGrows(s, s', t);
    hide Tracked;
    Carry(s, s');
  }

  lemma EnqueueInv(s: State, t: Task)
    requires Inv(s) && TaskOk(s, t)
    ensures Inv(Enqueue(s, t)) && Grows(s, Enqueue(s, t))
  {
    hide Inv, Grows, TaskOk;
    if RefOf(t) in s.queue {
      InvParts(s);
      GrowsReflexive(s);
    } else {
      EnqueueNew(s, t, Enqueue(s, t));
    }
  }

  /** A task leaves the queue only when its nonce is committed, so the order stays safe. */
  lemma AckSafe(s: State, ref: TaskRef, o: nat)
    requires Inv(s) && ref in s.queue && NonceOf(s.queue[ref]) in s.nonces && o in s.orders
    ensures GrantSafe(s, o) ==> GrantSafe(s.(queue := s.queue - {ref}), o)
    ensures RevokeSafe(s, o) ==> RevokeSafe(s.(queue := s.queue - {ref}), o)
  {
    var t := s.queue[ref];
    assert TaskOk(s, t);
  }

  lemma AckInv(s: State, ref: TaskRef)
    requires Inv(s) && ref in s.queue && NonceOf(s.queue[ref]) in s.nonces
    ensures Inv(s.(queue := s.queue - {ref})) && Grows(s, s.(queue := s.queue - {ref}))
  {
    hide HandlerOk, OrderOk, TaskOk, LedgerOk;
    var s' := s.(queue := s.queue - {ref});
    forall o | o in s.orders ensures (GrantSafe(s, o) ==> GrantSafe(s', o)) && (RevokeSafe(s, o) ==> RevokeSafe(s', o)) {
      AckSafe(s, ref, o);
    }
    RowsUntouched(s, s');
    ConsumedGrows(s, s');
    Carry(s, s');
  }

  function Delivered(s: State, t: Task, items: Inventory): State {
    s.(items := items, nonces := s.nonces + {NonceOf(t)}, ledger := s.ledger + [Entry(t, s.now, s.stacks)])
  }

  lemma DeliverNonces(s: State, t: Task, items: Inventory, k: Nonce)
    requires LedgerOk(s.ledger, s.nonces, s.sent) && k in Delivered(s, t, items).nonces
    ensures exists i :: 0 <= i < |Delivered(s, t, items).ledger| && NonceOf(Delivered(s, t, items).ledger[i].task) == k
  {
    var s' := Delivered(s, t, items);
    if k in s.nonces {
      var i :| 0 <= i < |s.ledger| && NonceOf(s.ledger[i].task) == k;
      assert NonceOf(s'.ledger[i].task) == k;
    } else {
      assert NonceOf(s'.ledger[|s.ledger|].task) == k;
    }
  }

  lemma DeliverGranted(s: State, t: Task, items: Inventory, j: nat)
    requires LedgerOk(s.ledger, s.nonces, s.sent) && Commits(s, t, items)
    requires j < |Delivered(s, t, items).ledger| && Delivered(s, t, items).ledger[j].task.RevokeTask?
    ensures GrantedBefore(Delivered(s, t, items).ledger, j)
  {
    var s' := Delivered(s, t, items);
    var i: nat;
    if j < |s.ledger| {
      assert GrantedBefore(s.ledger, j);
      i :| 0 <= i < j && s.ledger[i].task.GrantTask? && s.ledger[i].task.orderId == s.ledger[j].task.orderId;
    } else {
      i :| 0 <= i < |s.ledger| && NonceOf(s.ledger[i].task) == Nonce(t.uid, GrantKind, t.orderId);
    }
    assert s'.ledger[i] == s.ledger[i];
  }

  /** A fresh nonce keeps the ledger duplicate-free, and a revocation finds its grant in it. */
  lemma DeliverLedger(s: State, t: Task, items: Inventory)
    requires LedgerOk(s.ledger, s.nonces, s.sent) && t in s.sent && Commits(s, t, items)
    ensures LedgerOk(s.ledger + [Entry(t, s.now, s.stacks)], s.nonces + {NonceOf(t)}, s.sent)
  {
    var s' := Delivered(s, t, items);
    forall k | k in s'.nonces ensures exists i :: 0 <= i < |s'.ledger| && NonceOf(s'.ledger[i].task) == k {
      DeliverNonces(s, t, items, k);
    }
    forall j | 0 <= j < |s'.ledger| && s'.ledger[j].task.RevokeTask? ensures GrantedBefore(s'.ledger, j) {
      DeliverGranted(s, t, items, j);
    }
  }

  lemma DeliverInv(s: State, t: Task, items: Inventory)
    requires Inv(s) && t in s.sent && Commits(s, t, items)
    ensures Inv(Delivered(s, t, items)) && Grows(s, Delivered(s, t, items))
  {
    hide HandlerOk, OrderOk, TaskOk, LedgerOk;
    var s' := Delivered(s, t, items);
    if t.GrantTask? { GrantsValid(s.items, t.uid, Unmarshal(t.rewards), s.stacks, s.now, items); }
    else { RevokesValid(s.items, t.uid, Unmarshal(t.rewards), s.now, items); }
    DeliverLedger(s, t, items);
    RowsUntouched(s, s');
    ConsumedGrows(s, s');
    Carry(s, s');
  }

  // ----- order creation

  function Inserted(s: State, o: Order): State {
    s.(orders := s.orders[o.id := o], nextOrderId := s.nextOrderId + 1,
       phases := s.phases[o.id := [PendingPhase]], quotes := s.quotes[o.id := {}])
  }

  lemma InsertGrows(s: State, o: Order)
    requires Tracked(s) && o.id == s.nextOrderId && o.id !in s.orders
    ensures Grows(s, Inserted(s, o))
  {
    var s' := Inserted(s, o);
    assert Tracked(s');
    forall k | k in s.orders ensures OrderGrows(s, s', k) { assert k != o.id; }
  }

  lemma InsertOrders(s: State, p: CreateParams)
    requires Inv(s)
    ensures s.nextOrderId !in s.orders
    ensures var s' := Inserted(s, NewOrder(s.nextOrderId, p, s.now)); Tracked(s') && OrdersOk(s')
  {
    hide Inv, HandlersOk, TasksOk, LedgerOk, ConsumedOk, UniqueIndexes, Valid;
    InvParts(s);
    var o := NewOrder(s.nextOrderId, p, s.now);
    var s' := Inserted(s, o);
    assert o.id in s.orders ==> OrderOk(s, o.id);
    InsertGrows(s, o);
    forall k | k in s'.orders ensures OrderOk(s', k) {
      if k != o.id { assert OrderOk(s, k); }
    }
  }

  lemma InsertInv(s: State, h: nat, p: CreateParams)
    requires Inv(s)
    ensures Inv(InsertStep(s, h, p)) && Grows(s, InsertStep(s, h, p))
  {
    hide Inv, OrdersOk, OrderOk, HandlersOk, HandlerOk, TaskOk, LedgerOk, ConsumedOk, Grows, Valid;
    InvParts(s);
    var o := NewOrder(s.nextOrderId, p, s.now);
    var s' := Inserted(s, o);
    InsertOrders(s, p);
    InsertGrows(s, o);
    ConsumedGrows(s, s');
    hide Tracked;
    Carry(s, s');
    DropInv(s', h);
    GrowsTransitive(s, s', Drop(s', h));
  }

  // ----- row updates by handlers

  /** Rewriting a row and then moving the handler on. */
  lemma PutThenGo(s: State, o: Order, h: nat, pc: Pc)
    requires Inv(s) && h in s.handlers && RowStep(s, o) && !Conflicts(s.orders, o)
    requires Inv(Put(s, o)) ==> HandlerOk(Put(s, o), s.handlers[h].(pc := pc))
    ensures Inv(Go(Put(s, o), h, pc)) && Grows(s, Go(Put(s, o), h, pc))
  {
    var s' := Put(s, o);
    hide Inv, Grows, HandlerOk, RowStep;
    PutInv(s, o);
    GoInv(s', h, pc);
    GrowsTransitive(s, s', Go(s', h, pc));
  }

  lemma PutThenDrop(s: State, o: Order, h: nat)
    requires Inv(s) && RowStep(s, o) && !Conflicts(s.orders, o)
    ensures Inv(Drop(Put(s, o), h)) && Grows(s, Drop(Put(s, o), h))
  {
    var s' := Put(s, o);
    hide Inv, Grows, RowStep;
    PutInv(s, o);
    DropInv(s', h);
    GrowsTransitive(s, s', Drop(s', h));
  }

  lemma CloseInv(s: State, h: nat, orderId: nat, expiredAt: int)
    requires Inv(s)
    ensures Inv(CloseByTimeout(s, h, orderId, expiredAt)) && Grows(s, CloseByTimeout(s, h, orderId, expiredAt))
  {
    if orderId in s.orders && ExpiredPending(s.orders[orderId], expiredAt) {
      assert OrderOk(s, orderId);
      var o := TimedOut(s.orders[orderId], s.now);
      NoConflict(s, o);
      PutThenDrop(s, o, h);
    } else {
      DropInv(s, h);
    }
  }

  lemma BindRowStep(s: State, uid: nat, tp: ThirdPartyOrder, o: Order)
    requires Tracked(s) && OrdersOk(s) && tp.credential != "" && tp.internalOrderId in s.orders
    requires CanBind(s.orders[tp.internalOrderId], uid, Google, tp.internalProductId, tp.credential, tp.orderId)
    requires o == Bound(s.orders[tp.internalOrderId], tp.credential, tp.orderId)
    ensures RowStep(s, o)
  {
    assert OrderOk(s, tp.internalOrderId);
  }

  /** A handler that has an answer with a credential may go on to read the order back. */
  lemma ReadBackHandler(s: State, h: nat, uid: nat, tp: ThirdPartyOrder)
    requires Inv(s) && h in s.handlers && s.handlers[h].pc == Bind(uid, tp) && tp.credential != ""
    ensures forall s' {:trigger Tracked(s')} ::
      Tracked(s') && s'.answers == s.answers && s'.now == s.now ==> HandlerOk(s', s.handlers[h].(pc := ReadBack(uid, tp)))
  {
    hide OrdersOk, TasksOk, LedgerOk, ConsumedOk, UniqueIndexes, Valid;
    assert HandlerOk(s, s.handlers[h]);
  }

  lemma BindInv(s: State, h: nat, uid: nat, tp: ThirdPartyOrder)
    requires Inv(s) && h in s.handlers && s.handlers[h].pc == Bind(uid, tp)
    ensures Inv(BindStep(s, h, uid, tp)) && Grows(s, BindStep(s, h, uid, tp))
  {
    hide Inv, OrdersOk, HandlersOk, TasksOk, LedgerOk, ConsumedOk, UniqueIndexes, Valid, Grows, CanBind, Conflicts, HandlerOk, RowStep;
    InvParts(s);
    var id := tp.internalOrderId;
    if tp.uid != uid || tp.credential == "" {
      DropInv(s, h);
    } else {
      ReadBackHandler(s, h, uid, tp);
      if id in s.orders && CanBind(s.orders[id], uid, Google, tp.internalProductId, tp.credential, tp.orderId) {
        var o := Bound(s.orders[id], tp.credential, tp.orderId);
        BindRowStep(s, uid, tp, o);
        if Conflicts(s.orders, o) { DropInv(s, h); } else { PutTracked(s, o); PutThenGo(s, o, h, ReadBack(uid, tp)); }
      } else {
        GoInv(s, h, ReadBack(uid, tp));
      }
    }
  }

  /** The copy a handler reads is the current row, so what it decides is justified at that moment. */
  lemma CurrentCopy(s: State, tp: ThirdPartyOrder)
    requires Inv(s) && tp in s.answers && tp.credential != "" && tp.internalOrderId in s.orders
    requires s.orders[tp.internalOrderId].credentialHash == Some(Sha256(tp.credential))
    ensures CopyOk(s, s.orders[tp.internalOrderId], tp)
  {
    assert OrderOk(s, tp.internalOrderId);
  }

  lemma DispatchHandler(s: State, origin: Origin, o: Order, tp: ThirdPartyOrder)
    requires Tracked(s) && CopyOk(s, o, tp) && HandlerOk(s, Handler(origin, Start))
    requires NextPc(origin, o, tp).Some?
    ensures HandlerOk(s, Handler(origin, NextPc(origin, o, tp).value))
  {
  }

  lemma DispatchInv(s: State, h: nat, o: Order, tp: ThirdPartyOrder)
    requires Inv(s) && h in s.handlers && CopyOk(s, o, tp)
    ensures Inv(Dispatch(s, h, o, tp)) && Grows(s, Dispatch(s, h, o, tp))
  {
    assert HandlerOk(s, s.handlers[h]);
    var origin := s.handlers[h].origin;
    assert HandlerOk(s, Handler(origin, Start));
    hide Inv, Grows, HandlerOk, CopyOk, NextPc, Tracked;
    if NextPc(origin, o, tp).Some? {
      DispatchHandler(s, origin, o, tp);
      GoInv(s, h, NextPc(origin, o, tp).value);
    } else {
      DropInv(s, h);
    }
  }

  lemma ReadBackInv(s: State, h: nat, uid: nat, tp: ThirdPartyOrder)
    requires Inv(s) && h in s.handlers && s.handlers[h].pc == ReadBack(uid, tp)
    ensures Inv(ReadBackStep(s, h, uid, tp)) && Grows(s, ReadBackStep(s, h, uid, tp))
  {
    var id := tp.internalOrderId;
    assert HandlerOk(s, s.handlers[h]);
    if id in s.orders && BoundTo(s.orders[id], uid, Google, tp.internalProductId, tp.credential, tp.orderId) {
      CurrentCopy(s, tp);
      DispatchInv(s, h, s.orders[id], tp);
    }
    DropInv(s, h);
  }

  lemma QuoteInv(s: State, o: nat, list: RewardList)
    requires Inv(s) && o in s.quotes
    ensures Inv(s.(quotes := s.quotes[o := s.quotes[o] + {list}])) && Grows(s, s.(quotes := s.quotes[o := s.quotes[o] + {list}]))
  {
    hide Inv, OrdersOk, UniqueIndexes, TasksOk, HandlersOk, LedgerOk, ConsumedOk, Grows, Valid;
    InvParts(s);
    var s' := s.(quotes := s.quotes[o := s.quotes[o] + {list}]);
    assert Tracked(s') && forall k :: k in s.orders ==> s.quotes[k] <= s'.quotes[k];
    hide Tracked;
    RowsUntouched(s, s');
    ConsumedGrows(s, s');
    CarrySame(s, s');
  }

  lemma ReadProductInv(s: State, h: nat, o: Order, tp: ThirdPartyOrder)
    requires Inv(s) && h in s.handlers && s.handlers[h].pc == ReadProduct(o, tp)
    ensures Inv(ReadProductStep(s, h, o, tp)) && Grows(s, ReadProductStep(s, h, o, tp))
  {
    if o.productId !in s.products || o.id !in s.quotes {
      DropInv(s, h);
    } else {
      var p := s.products[o.productId];
      var s' := s.(quotes := s.quotes[o.id := s.quotes[o.id] + {Listed(p)}]);
      assert HandlerOk(s, s.handlers[h]);
      QuoteInv(s, o.id, Listed(p));
      var pc := SaveRewards(o, tp, Marshal(p.rewards));
      HandlerGrows(s, s', s.handlers[h]);
      assert HandlerOk(s', s.handlers[h].(pc := pc));
      hide Inv, Grows, HandlerOk;
      GoInv(s', h, pc);
      GrowsTransitive(s, s', Go(s', h, pc));
    }
  }

  lemma SaveRewardsInv(s: State, h: nat, o: Order, tp: ThirdPartyOrder, rewards: Snapshot)
    requires Inv(s) && h in s.handlers && s.handlers[h].pc == SaveRewards(o, tp, rewards)
    ensures var s' := SaveRewardsStep(s, h, o, tp, rewards); Inv(s') && Grows(s, s')
  {
    assert HandlerOk(s, s.handlers[h]) && OrderOk(s, o.id);
    var o' := s.orders[o.id].(rewards := rewards);
    NoConflict(s, o');
    assert RowStep(s, o');
    SavedHandler(s, o', o, tp, rewards, s.handlers[h].origin);
    assert SaveRewardsStep(s, h, o, tp, rewards) == Go(Put(s, o'), h, SendGrant(o, tp, rewards));
    hide *;
    PutThenGo(s, o', h, SendGrant(o, tp, rewards));
  }

  lemma SavedHandler(s: State, o': Order, o: Order, tp: ThirdPartyOrder, rewards: Snapshot, origin: Origin)
    requires Tracked(s) && RowStep(s, o') && o'.id == o.id && o'.rewards == rewards
    requires HandlerOk(s, Handler(origin, SaveRewards(o, tp, rewards)))
    ensures Tracked(Put(s, o')) && HandlerOk(Put(s, o'), Handler(origin, SendGrant(o, tp, rewards)))
  {
    PutGrows(s, o');
    assert Put(s, o').orders[o.id] == o';
    hide RowStep, Grows, Put;
    HandlerGrows(s, Put(s, o'), Handler(origin, SaveRewards(o, tp, rewards)));
  }

  lemma EnqueueThenGo(s: State, t: Task, h: nat, pc: Pc)
    requires Inv(s) && TaskOk(s, t) && h in s.handlers
    requires Inv(Enqueue(s, t)) && Grows(s, Enqueue(s, t)) ==> HandlerOk(Enqueue(s, t), s.handlers[h].(pc := pc))
    ensures Inv(Go(Enqueue(s, t), h, pc)) && Grows(s, Go(Enqueue(s, t), h, pc))
  {
    assert Enqueue(s, t).handlers == s.handlers;
    hide Inv, Grows, HandlerOk, TaskOk, Enqueue;
    EnqueueInv(s, t);
    GoInv(Enqueue(s, t), h, pc);
    GrowsTransitive(s, Enqueue(s, t), Go(Enqueue(s, t), h, pc));
  }

  /** After enqueueing, its reference is in the queue, which is what the next step relies on. */
  lemma GrantQueued(s: State, s': State, origin: Origin, o: Order, tp: ThirdPartyOrder, rewards: Snapshot)
    requires Tracked(s) && Tracked(s') && HandlerOk(s, Handler(origin, SendGrant(o, tp, rewards)))
    requires Grows(s, s') && TaskRef(GrantKind, o.id) in s'.queue
    ensures HandlerOk(s', Handler(origin, SetPurchased(o, tp)))
  {
    HandlerGrows(s, s', Handler(origin, SendGrant(o, tp, rewards)));
  }

  lemma RevokeQueued(s: State, s': State, origin: Origin, o: Order, tp: ThirdPartyOrder)
    requires Tracked(s) && Tracked(s') && HandlerOk(s, Handler(origin, SendRevoke(o, tp)))
    requires Grows(s, s') && TaskRef(RevokeKind, o.id) in s'.queue
    ensures HandlerOk(s', Handler(origin, SetRefunded(o, tp)))
  {
    HandlerGrows(s, s', Handler(origin, SendRevoke(o, tp)));
  }

  lemma SendGrantInv(s: State, h: nat, o: Order, tp: ThirdPartyOrder, rewards: Snapshot)
    requires Inv(s) && h in s.handlers && s.handlers[h].pc == SendGrant(o, tp, rewards)
    ensures var s' := SendGrantStep(s, h, o, tp, rewards); Inv(s') && Grows(s, s')
  {
    assert HandlerOk(s, s.handlers[h]);
    var t := GrantTask(o.id, o.uid, rewards);
    assert TaskOk(s, t);
    EnqueueInv(s, t);
    assert RefOf(t) in Enqueue(s, t).queue;
    hide HandlerOk, TaskOk, Grows, OrderOk;
    GrantQueued(s, Enqueue(s, t), s.handlers[h].origin, o, tp, rewards);
    EnqueueThenGo(s, t, h, SetPurchased(o, tp));
  }

  lemma SendRevokeInv(s: State, h: nat, o: Order, tp: ThirdPartyOrder)
    requires Inv(s) && h in s.handlers && s.handlers[h].pc == SendRevoke(o, tp)
    ensures var s' := SendRevokeStep(s, h, o, tp); Inv(s') && Grows(s, s')
  {
    assert HandlerOk(s, s.handlers[h]);
    var t := RevokeTask(o.id, o.uid, o.rewards);
    assert TaskOk(s, t);
    EnqueueInv(s, t);
    assert RefOf(t) in Enqueue(s, t).queue;
    hide HandlerOk, TaskOk, Grows, OrderOk;
    RevokeQueued(s, Enqueue(s, t), s.handlers[h].origin, o, tp);
    EnqueueThenGo(s, t, h, SetRefunded(o, tp));
  }

  lemma PurchasedNow(s: State, o: Order)
    requires Tracked(s) && o.id in s.orders && PhaseOf(o) == PurchasedPhase
    ensures EverPurchased(Put(s, o), o.id)
  {
    var ps := s.phases[o.id];
    assert Put(s, o).phases[o.id] == ps || Put(s, o).phases[o.id] == ps + [PurchasedPhase];
  }

  lemma PurchaseStep(s: State, o: Order, tp: ThirdPartyOrder, origin: Origin)
    requires Inv(s) && HandlerOk(s, Handler(origin, SetPurchased(o, tp))) && CanPurchase(s.orders[o.id])
    ensures var o' := MarkedPurchased(s.orders[o.id], tp); o'.id == o.id && RowStep(s, o') && !Conflicts(s.orders, o')
  {
    assert OrderOk(s, o.id);
    NoConflict(s, MarkedPurchased(s.orders[o.id], tp));
  }

  lemma SetPurchasedInv(s: State, h: nat, o: Order, tp: ThirdPartyOrder)
    requires Inv(s) && h in s.handlers && s.handlers[h].pc == SetPurchased(o, tp)
    ensures var s' := SetPurchasedStep(s, h, o, tp); Inv(s') && Grows(s, s')
  {
    assert HandlerOk(s, s.handlers[h]) && Tracked(s) && s.phases[o.id] != [];
    if CanPurchase(s.orders[o.id]) {
      var o' := MarkedPurchased(s.orders[o.id], tp);
      assert SetPurchasedStep(s, h, o, tp) == Go(Put(s, o'), h, Complete(o, tp));
      assert PhaseOf(o') == PurchasedPhase;
      hide *;
      PurchaseStep(s, o, tp, s.handlers[h].origin);
      PurchasedHandler(s, o', o, tp, s.handlers[h].origin);
      PutThenGo(s, o', h, Complete(o, tp));
    } else {
      DropInv(s, h);
    }
  }

  lemma PurchasedHandler(s: State, o': Order, o: Order, tp: ThirdPartyOrder, origin: Origin)
    requires Tracked(s) && RowStep(s, o') && o'.id == o.id && PhaseOf(o') == PurchasedPhase
    requires HandlerOk(s, Handler(origin, SetPurchased(o, tp)))
    ensures Tracked(Put(s, o')) && HandlerOk(Put(s, o'), Handler(origin, Complete(o, tp)))
  {
    PurchasedNow(s, o');
    PutGrows(s, o');
    hide RowStep, Grows, Put;
    HandlerGrows(s, Put(s, o'), Handler(origin, SetPurchased(o, tp)));
  }

  lemma SetCancelledInv(s: State, h: nat, o: Order, tp: ThirdPartyOrder)
    requires Inv(s) && h in s.handlers && s.handlers[h].pc == SetCancelled(o, tp)
    ensures var s' := SetCancelledStep(s, h, o, tp); Inv(s') && Grows(s, s')
  {
    assert HandlerOk(s, s.handlers[h]) && OrderOk(s, o.id);
    if s.orders[o.id].status == Pending {
      var o' := MarkedCancelled(s.orders[o.id], tp, s.now);
      NoConflict(s, o');
      PendingNeverPurchased(s, o.id);
      assert RowStep(s, o');
      assert SetCancelledStep(s, h, o, tp) == Drop(Put(s, o'), h);
      hide *;
      PutThenDrop(s, o', h);
    } else {
      DropInv(s, h);
    }
  }

  /** The status history of a Pending order is just [Pending]. */
  lemma PendingNeverPurchased(s: State, id: nat)
    requires Tracked(s) && id in s.orders && OrderOk(s, id) && s.orders[id].status == Pending
    ensures s.phases[id] == [PendingPhase]
  {
    var ps := s.phases[id];
    assert Rank(ps[|ps| - 1]) == 0 && ps[0] == PendingPhase;
  }

  lemma SetRefundedInv(s: State, h: nat, o: Order, tp: ThirdPartyOrder)
    requires Inv(s) && h in s.handlers && s.handlers[h].pc == SetRefunded(o, tp)
    ensures var s' := SetRefundedStep(s, h, o, tp); Inv(s') && Grows(s, s')
  {
    assert HandlerOk(s, s.handlers[h]) && OrderOk(s, o.id);
    if s.orders[o.id].status == Purchased {
      var o' := MarkedRefunded(s.orders[o.id], tp, s.now);
      NoConflict(s, o');
      assert RowStep(s, o');
      assert SetRefundedStep(s, h, o, tp) == Drop(Put(s, o'), h);
      hide *;
      PutThenDrop(s, o', h);
    } else {
      DropInv(s, h);
    }
  }

  lemma ConsumeOk(s: State, o: nat, c: string)
    requires Tracked(s) && ConsumedOk(s) && EverPurchased(s, o) && o in s.orders && s.orders[o].credentialHash == Some(Sha256(c))
    ensures ConsumedOk(s.(consumed := s.consumed + {c}))
  {
    var s' := s.(consumed := s.consumed + {c});
    forall x | x in s'.consumed ensures HeldByPurchased(s', x) {
      if x in s.consumed {
        var k :| k in s.orders && s.orders[k].credentialHash == Some(Sha256(x)) && EverPurchased(s, k);
        assert EverPurchased(s', k);
      } else {
        assert EverPurchased(s', o);
      }
    }
  }

  lemma ConsumeInv(s: State, o: nat, credential: string)
    requires Inv(s) && o in s.orders && s.orders[o].credentialHash == Some(Sha256(credential)) && EverPurchased(s, o)
    ensures var s' := s.(consumed := s.consumed + {credential}); Inv(s') && Grows(s, s')
  {
    hide Inv, OrdersOk, UniqueIndexes, TasksOk, HandlersOk, LedgerOk, ConsumedOk, Grows, Valid, HeldByPurchased;
    InvParts(s);
    var s' := s.(consumed := s.consumed + {credential});
    ConsumeOk(s, o, credential);
    assert Tracked(s');
    hide Tracked;
    RowsUntouched(s, s');
    CarrySame(s, s');
  }

  lemma CompleteInv(s: State, h: nat, o: Order, tp: ThirdPartyOrder)
    requires Inv(s) && h in s.handlers && s.handlers[h].pc == Complete(o, tp)
    ensures var s' := CompleteStep(s, h, tp); Inv(s') && Grows(s, s')
  {
    assert HandlerOk(s, s.handlers[h]);
    var s' := s.(consumed := s.consumed + {tp.credential});
    hide HandlerOk, Inv, Grows, Quiet, Framed, Drop;
    ConsumeInv(s, o.id, tp.credential);
    DropInv(s, h);
    DropInv(s', h);
    GrowsTransitive(s, s', Drop(s', h));
  }

  lemma BeginScanInv(s: State, h: nat, orderId: nat, expiredAt: int)
    requires Inv(s) && h in s.handlers && s.handlers[h].origin == Scan(orderId, expiredAt)
    ensures Inv(BeginScan(s, h, orderId, expiredAt)) && Grows(s, BeginScan(s, h, orderId, expiredAt))
  {
    assert HandlerOk(s, s.handlers[h]);
    if orderId !in s.orders || !ExpiredPending(s.orders[orderId], expiredAt) {
      DropInv(s, h);
    } else if s.orders[orderId].credential == None || s.orders[orderId].credential == Some("") {
      var s' := s.(sightings := s.sightings + {orderId});
      SameFacts(s, s');
      GoInv(s', h, CloseUnpaid);
      GrowsTransitive(s, s', Go(s', h, CloseUnpaid));
      assert Go(s', h, CloseUnpaid) == Go(s, h, CloseUnpaid).(sightings := s.sightings + {orderId});
    } else if s.orders[orderId].paymentType != Google {
      DropInv(s, h);
    } else {
      GoInv(s, h, Ask(Some(s.orders[orderId].uid), s.orders[orderId].credential.value));
    }
  }

  lemma BeginCreationInv(s: State, h: nat, uid: nat, paymentType: PaymentType, productId: int)
    requires Inv(s) && h in s.handlers && s.handlers[h].origin.Creation?
    ensures Inv(BeginCreation(s, h, uid, paymentType, productId)) && Grows(s, BeginCreation(s, h, uid, paymentType, productId))
  {
    var s' := BeginCreation(s, h, uid, paymentType, productId);
    if h in s'.handlers { GoInv(s, h, s'.handlers[h].pc); } else { DropInv(s, h); }
  }

  lemma StartInv(s: State, h: nat)
    requires Inv(s) && h in s.handlers && s.handlers[h].pc.Start?
    ensures Inv(StartStep(s, h)) && Grows(s, StartStep(s, h))
  {
    hide Inv, Grows, BeginScan, BeginCreation, Drop;
    match s.handlers[h].origin
    case Scan(orderId, expiredAt) => BeginScanInv(s, h, orderId, expiredAt);
    case Creation(uid, paymentType, productId) => BeginCreationInv(s, h, uid, paymentType, productId);
    case _ => DropInv(s, h);
  }

  lemma LookInv(s: State, h: nat, p: CreateParams)
    requires Inv(s) && h in s.handlers && s.handlers[h].pc == LookForPending(p)
    ensures Inv(LookStep(s, h, p)) && Grows(s, LookStep(s, h, p))
  {
    assert HandlerOk(s, s.handlers[h].(pc := InsertOrder(p))) by { assert HandlerOk(s, s.handlers[h]); }
    assert LookStep(s, h, p) == Drop(s, h) || LookStep(s, h, p) == Go(s, h, InsertOrder(p));
    hide *;
    DropInv(s, h);
    GoInv(s, h, InsertOrder(p));
  }

  lemma CloseStepInv(s: State, h: nat)
    requires Inv(s) && h in s.handlers && (s.handlers[h].pc.CloseUnpaid? || s.handlers[h].pc.CloseWaiting?)
    ensures Inv(CloseStep(s, h)) && Grows(s, CloseStep(s, h))
  {
    assert Tracked(s);
    hide Inv, Grows, CloseByTimeout, Drop, Tracked;
    var origin, pc := s.handlers[h].origin, s.handlers[h].pc;
    if !origin.Scan? { DropInv(s, h); }
    else if pc.CloseUnpaid? { CloseInv(s, h, origin.orderId, origin.expiredAt); }
    else { CloseInv(s, h, pc.order.id, origin.expiredAt); }
  }

  /** Each step by its own name. */
  lemma AdvanceIs(s: State, h: nat)
    requires h in s.handlers && Tracked(s) && !s.handlers[h].pc.Ask?
    ensures Advance(s, h) == match s.handlers[h].pc
                             case Start => StartStep(s, h)
                             case Bind(uid, tp) => BindStep(s, h, uid, tp)
                             case ReadBack(uid, tp) => ReadBackStep(s, h, uid, tp)
                             case ReadProduct(o, tp) => ReadProductStep(s, h, o, tp)
                             case SaveRewards(o, tp, rewards) => SaveRewardsStep(s, h, o, tp, rewards)
                             case SendGrant(o, tp, rewards) => SendGrantStep(s, h, o, tp, rewards)
                             case SetPurchased(o, tp) => SetPurchasedStep(s, h, o, tp)
                             case Complete(_, tp) => CompleteStep(s, h, tp)
                             case SetCancelled(o, tp) => SetCancelledStep(s, h, o, tp)
                             case SendRevoke(o, tp) => SendRevokeStep(s, h, o, tp)
                             case SetRefunded(o, tp) => SetRefundedStep(s, h, o, tp)
                             case LookForPending(p) => LookStep(s, h, p)
                             case InsertOrder(p) => InsertStep(s, h, p)
                             case _ => CloseStep(s, h)
  {
    hide Tracked, Framed, Quiet, StartStep, BindStep, ReadBackStep, ReadProductStep, SaveRewardsStep, SendGrantStep,
         SetPurchasedStep, CompleteStep, SetCancelledStep, SendRevokeStep, SetRefundedStep, CloseStep, LookStep, InsertStep;
  }

  lemma MoveInv(s: State, h: nat)
    requires Inv(s) && h in s.handlers && !s.handlers[h].pc.Ask?
    ensures Inv(Advance(s, h)) && Grows(s, Advance(s, h))
  {
    assert Tracked(s);
    AdvanceIs(s, h);
    hide *;
    match s.handlers[h].pc
    case Start => StartInv(s, h);
    case Bind(uid, tp) => BindInv(s, h, uid, tp);
    case ReadBack(uid, tp) => ReadBackInv(s, h, uid, tp);
    case ReadProduct(o, tp) => ReadProductInv(s, h, o, tp);
    case SaveRewards(o, tp, rewards) => SaveRewardsInv(s, h, o, tp, rewards);
    case SendGrant(o, tp, rewards) => SendGrantInv(s, h, o, tp, rewards);
    case SetPurchased(o, tp) => SetPurchasedInv(s, h, o, tp);
    case Complete(o, tp) => CompleteInv(s, h, o, tp);
    case SetCancelled(o, tp) => SetCancelledInv(s, h, o, tp);
    case SendRevoke(o, tp) => SendRevokeInv(s, h, o, tp);
    case SetRefunded(o, tp) => SetRefundedInv(s, h, o, tp);
    case CloseUnpaid => CloseStepInv(s, h);
    case CloseWaiting(_, _) => CloseStepInv(s, h);
    case LookForPending(p) => LookInv(s, h, p);
    case InsertOrder(p) => InsertInv(s, h, p);
  }

  // ----- one step, and whole runs

  /** The invariant is inductive, and a step never takes back a fact recorded in `Grows`. */
  lemma NextInv(s: State, a: Action, s': State)
    requires Inv(s) && Next(s, a, s')
    ensures Inv(s') && Grows(s, s')
  {
    match a
    case Begin(h, origin) => SameFacts(s, s');
    case Stop(h) => DropInv(s, h);
    case Answer(h, tp) => assert HandlerOk(s, s.handlers[h]); SameFacts(s, s');
    case Move(h) => MoveInv(s, h);
    case Deliver(t, items) => DeliverInv(s, t, items);
    case Ack(ref) => AckInv(s, ref);
    case Tick(now) => SameFacts(s, s');
    case SetProduct(_, _) => SameFacts(s, s');
    case SetStacks(_) => SameFacts(s, s');
  }

  lemma GrowsReflexiveInv(s: State)
    requires Inv(s)
    ensures Grows(s, s)
  {
    GrowsReflexive(s);
  }

  /** The invariant holds in every state of every run, and states only grow along it. */
  lemma {:induction false} RunInv(tr: seq<State>, i: nat, j: nat)
    requires IsRun(tr) && Inv(tr[0]) && i <= j < |tr|
    ensures Inv(tr[i]) && Inv(tr[j]) && Grows(tr[i], tr[j])
    decreases j
  {
    assert Tracked(tr[0]);
    hide Inv, Grows, Next;
    if j == 0 {
      GrowsReflexive(tr[0]);
    } else {
      assert Steps(tr[j - 1], tr[j - 1 + 1]);
      var a :| Next(tr[j - 1], a, tr[j]);
      RunInv(tr, if i < j then i else j - 1, j - 1);
      NextInv(tr[j - 1], a, tr[j]);
      if i < j { GrowsTransitive(tr[i], tr[j - 1], tr[j]); } else { GrowsReflexiveInv(tr[j]); }
    }
  }
}
