/** The inductive invariant of the payment protocol and the proof that every step keeps it. */
module ProtocolInvariants {
  import opened Common
  import opened Items
  import opened ItemLaws
  import opened Orders
  import opened Protocol

  // ----- what is true of one order

  /** The grant of the order is queued or committed. */
  predicate GrantSafe(s: State, o: nat)
    requires o in s.orders
  {
    TaskRef(GrantKind, o) in s.queue || Nonce(s.orders[o].uid, GrantKind, o) in s.nonces
  }

  predicate RevokeSafe(s: State, o: nat)
    requires o in s.orders
  {
    TaskRef(RevokeKind, o) in s.queue || Nonce(s.orders[o].uid, RevokeKind, o) in s.nonces
  }

  /** The order's snapshot is a list some handler read from the configuration for it. */
  predicate Quoted(s: State, o: nat)
    requires o in s.orders && o in s.quotes
  {
    Unmarshal(s.orders[o].rewards) in s.quotes[o]
  }

  predicate EverPurchased(s: State, o: nat) { o in s.phases && PurchasedPhase in s.phases[o] }

  function Rank(p: Phase): nat {
    match p case PendingPhase => 0 case TimeoutPhase => 1 case PurchasedPhase => 2 case RefundedPhase => 3
  }

  predicate Ascending(ps: seq<Phase>) { forall i, j :: 0 <= i < j < |ps| ==> Rank(ps[i]) < Rank(ps[j]) }

  predicate RowOk(o: Order) {
    && !o.status.OtherStatus?
    && (o.status == Cancelled <==> o.reason != NoReason)
    && (o.status == Cancelled <==> o.cancelAt > 0)
    && (o.credential.Some? <==> o.credentialHash.Some?)
    && (o.credential.Some? ==> o.credential.value != "" && o.credentialHash.value == Sha256(o.credential.value))
  }

  predicate OrderOk(s: State, o: nat)
    requires Tracked(s) && o in s.orders
  {
    var ps := s.phases[o];
    && o < s.nextOrderId && RowOk(s.orders[o])
    && ps[0] == PendingPhase && ps[|ps| - 1] == PhaseOf(s.orders[o]) && Ascending(ps)
    && (PurchasedPhase in ps ==> GrantSafe(s, o) && Quoted(s, o))
    && (PurchasedPhase in ps && ps[|ps| - 1] == RefundedPhase ==> RevokeSafe(s, o))
  }

  predicate TaskOk(s: State, t: Task)
    requires Tracked(s)
  {
    && t.orderId in s.orders && t.uid == s.orders[t.orderId].uid
    && Unmarshal(t.rewards) in s.quotes[t.orderId]
    && (t.RevokeTask? ==> EverPurchased(s, t.orderId))
  }

  // ----- what is true of one handler

  predicate SameFixedColumns(a: Order, b: Order) {
    && a.id == b.id && a.uid == b.uid && a.productId == b.productId && a.createAt == b.createAt
    && a.thirdPartyProductId == b.thirdPartyProductId && a.paymentType == b.paymentType
  }

  /** A handler's copy of an order it is bound to. */
  predicate CopyOk(s: State, c: Order, tp: ThirdPartyOrder)
    requires Tracked(s)
  {
    && c.id in s.orders && SameFixedColumns(c, s.orders[c.id])
    && tp in s.answers && tp.internalOrderId == c.id && tp.credential != ""
    && s.orders[c.id].credentialHash == Some(Sha256(tp.credential))
    && PhaseOf(c) in s.phases[c.id]
    && (c.status == Purchased ==> Unmarshal(c.rewards) in s.quotes[c.id])
  }

  predicate HandlerOk(s: State, h: Handler)
    requires Tracked(s)
  {
    && (h.origin.Scan? ==> h.origin.expiredAt <= s.now - TIMEOUT_SECONDS)
    && match h.pc
       case Bind(_, tp) => tp in s.answers
       case ReadBack(_, tp) => tp in s.answers && tp.credential != ""
       case ReadProduct(o, tp) => CopyOk(s, o, tp)
       case SaveRewards(o, tp, rewards) => CopyOk(s, o, tp) && Unmarshal(rewards) in s.quotes[o.id]
       case SendGrant(o, tp, rewards) => CopyOk(s, o, tp) && Unmarshal(rewards) in s.quotes[o.id] && Quoted(s, o.id)
       case SetPurchased(o, tp) => CopyOk(s, o, tp) && GrantSafe(s, o.id) && Quoted(s, o.id)
       case Complete(o, tp) => CopyOk(s, o, tp) && EverPurchased(s, o.id)
       case SetCancelled(o, tp) => CopyOk(s, o, tp)
       case SendRevoke(o, tp) => CopyOk(s, o, tp) && o.status == Purchased
       case SetRefunded(o, tp) => CopyOk(s, o, tp) && RevokeSafe(s, o.id)
       case CloseUnpaid => h.origin.Scan? && h.origin.orderId in s.orders && h.origin.orderId in s.sightings
       case CloseWaiting(o, tp) => h.origin.Scan? && CopyOk(s, o, tp) && tp.status == ProviderPending && o.status == Pending
       case _ => true
  }

  // ----- the invariant

  ghost predicate OrdersOk(s: State)
    requires Tracked(s)
  {
    forall o :: o in s.orders ==> OrderOk(s, o)
  }

  ghost predicate TasksOk(s: State)
    requires Tracked(s)
  {
    && (forall t :: t in s.sent ==> TaskOk(s, t))
    && (forall id :: id in s.queue ==> s.queue[id] in s.sent && RefOf(s.queue[id]) == id)
  }

  ghost predicate HandlersOk(s: State)
    requires Tracked(s)
  {
    forall h :: h in s.handlers ==> HandlerOk(s, s.handlers[h])
  }

  /** The ledger and the nonce table describe the same commits, each once, and revocations follow their grants. */
  ghost predicate LedgerOk(ledger: seq<Entry>, nonces: set<Nonce>, sent: set<Task>) {
    && (forall i :: 0 <= i < |ledger| ==> ledger[i].task in sent && NonceOf(ledger[i].task) in nonces)
    && (forall i, j :: 0 <= i < j < |ledger| ==> NonceOf(ledger[i].task) != NonceOf(ledger[j].task))
    && (forall k :: k in nonces ==> exists i :: 0 <= i < |ledger| && NonceOf(ledger[i].task) == k)
    && (forall j :: 0 <= j < |ledger| && ledger[j].task.RevokeTask? ==> GrantedBefore(ledger, j))
  }

  ghost predicate GrantedBefore(ledger: seq<Entry>, j: nat)
    requires j < |ledger|
  {
    exists i :: 0 <= i < j && ledger[i].task.GrantTask? && ledger[i].task.orderId == ledger[j].task.orderId
  }

  ghost predicate ConsumedOk(s: State)
    requires Tracked(s)
  {
    forall c :: c in s.consumed ==> HeldByPurchased(s, c)
  }

  ghost predicate HeldByPurchased(s: State, c: string)
    requires Tracked(s)
  {
    exists o :: o in s.orders && s.orders[o].credentialHash == Some(Sha256(c)) && EverPurchased(s, o)
  }

  ghost predicate Inv(s: State) {
    && Tracked(s) && s.now > 0 && Valid(s.items)
    && OrdersOk(s) && UniqueIndexes(s.orders) && TasksOk(s) && HandlersOk(s) && LedgerOk(s.ledger, s.nonces, s.sent) && ConsumedOk(s)
  }

  lemma InvParts(s: State)
    requires Inv(s)
    ensures Tracked(s) && s.now > 0 && Valid(s.items) && OrdersOk(s) && UniqueIndexes(s.orders) && TasksOk(s) && HandlersOk(s)
    ensures LedgerOk(s.ledger, s.nonces, s.sent) && ConsumedOk(s)
  {
    hide Tracked, Valid, OrdersOk, UniqueIndexes, TasksOk, HandlersOk, LedgerOk, ConsumedOk;
  }

  lemma InitInv(s: State)
    requires Init(s)
    ensures Inv(s)
  {
  }

  // ----- what can only grow

  predicate RowGrows(a: Order, b: Order) {
    && SameFixedColumns(a, b)
    && (a.credentialHash.Some? ==> b.credentialHash == a.credentialHash)
    && (a.thirdPartyOrderId.Some? ==> b.thirdPartyOrderId == a.thirdPartyOrderId)
  }

  predicate OrderGrows(s: State, s': State, o: nat)
    requires Tracked(s) && Tracked(s') && o in s.orders
  {
    && o in s'.orders && RowGrows(s.orders[o], s'.orders[o])
    && s.phases[o] <= s'.phases[o] && s.quotes[o] <= s'.quotes[o]
    && (GrantSafe(s, o) ==> GrantSafe(s', o))
    && (RevokeSafe(s, o) ==> RevokeSafe(s', o))
    && (Quoted(s, o) ==> Quoted(s', o))
  }

  /** The facts that no step ever takes back. */
  ghost predicate Grows(s: State, s': State) {
    && Tracked(s) && Tracked(s')
    && s.now <= s'.now && s.nextOrderId <= s'.nextOrderId
    && (forall o :: o in s.orders ==> OrderGrows(s, s', o))
    && s.sent <= s'.sent && s.nonces <= s'.nonces && s.ledger <= s'.ledger
    && s.answers <= s'.answers && s.sightings <= s'.sightings && s.consumed <= s'.consumed
  }

  lemma GrowsReflexive(s: State)
    requires Tracked(s)
    ensures Grows(s, s)
  {
  }

  lemma GrowsTransitive(a: State, b: State, c: State)
    requires Grows(a, b) && Grows(b, c)
    ensures Grows(a, c)
  {
    forall o | o in a.orders ensures OrderGrows(a, c, o) {
      assert OrderGrows(a, b, o) && OrderGrows(b, c, o);
    }
  }

  lemma HandlerGrows(s: State, s': State, h: Handler)
    requires Grows(s, s') && HandlerOk(s, h)
    ensures HandlerOk(s', h)
  {
    if h.pc.CloseUnpaid? {
      assert OrderGrows(s, s', h.origin.orderId);
    } else if h.pc.ReadProduct? || h.pc.SaveRewards? || h.pc.SendGrant? || h.pc.SetPurchased? || h.pc.Complete?
              || h.pc.SetCancelled? || h.pc.SendRevoke? || h.pc.SetRefunded? || h.pc.CloseWaiting? {
      assert OrderGrows(s, s', h.pc.order.id);
    }
  }

  lemma TaskGrows(s: State, s': State, t: Task)
    requires Grows(s, s') && TaskOk(s, t)
    ensures TaskOk(s', t)
  {
    assert OrderGrows(s, s', t.orderId);
  }

  lemma ConsumedGrows(s: State, s': State)
    requires Grows(s, s') && ConsumedOk(s) && s'.consumed == s.consumed
    ensures ConsumedOk(s')
  {
    forall c | c in s'.consumed ensures HeldByPurchased(s', c) {
      var o :| o in s.orders && s.orders[o].credentialHash == Some(Sha256(c)) && EverPurchased(s, o);
      assert OrderGrows(s, s', o);
      assert o in s'.orders && s'.orders[o].credentialHash == Some(Sha256(c)) && EverPurchased(s', o);
    }
  }

  // ----- one row is rewritten

  /** A legal change of one row: fixed columns stay, bindings are write-once, the phase does not go back. */
  predicate RowStep(s: State, o: Order)
    requires Tracked(s)
  {
    && o.id in s.orders && OrderOk(s, o.id) && RowOk(o) && RowGrows(s.orders[o.id], o)
    && (PhaseOf(o) == PhaseOf(s.orders[o.id]) || Rank(PhaseOf(s.orders[o.id])) < Rank(PhaseOf(o)))
    && (PhaseOf(o) == PurchasedPhase ==> GrantSafe(s, o.id))
    && (EverPurchased(s, o.id) && PhaseOf(o) == RefundedPhase ==> RevokeSafe(s, o.id))
    && (Quoted(s, o.id) || PhaseOf(o) == PurchasedPhase ==> Unmarshal(o.rewards) in s.quotes[o.id])
  }

  lemma PutTracked(s: State, o: Order)
    requires Tracked(s) && o.id in s.orders
    ensures Tracked(Put(s, o))
  {
  }

  lemma PutGrowsAt(s: State, o: Order, k: nat)
    requires Tracked(s) && RowStep(s, o) && k in s.orders && Tracked(Put(s, o))
    ensures OrderGrows(s, Put(s, o), k)
  {
    if k == o.id {
      assert RowGrows(s.orders[k], o);
    }
  }

  lemma PutGrows(s: State, o: Order)
    requires Tracked(s) && RowStep(s, o)
    ensures Tracked(Put(s, o)) && Grows(s, Put(s, o))
  {
    PutTracked(s, o);
    forall k | k in s.orders ensures OrderGrows(s, Put(s, o), k) { PutGrowsAt(s, o, k); }
  }

  lemma PutOtherOrder(s: State, o: Order, k: nat)
    requires Tracked(s) && RowStep(s, o) && Tracked(Put(s, o)) && k in s.orders && k != o.id && OrderOk(s, k)
    ensures OrderOk(Put(s, o), k)
  {
  }

  lemma PutOrders(s: State, o: Order)
    requires Tracked(s) && OrdersOk(s) && RowStep(s, o)
    ensures Tracked(Put(s, o)) && OrdersOk(Put(s, o))
  {
    PutTracked(s, o);
    forall k | k in Put(s, o).orders ensures OrderOk(Put(s, o), k) {
      if k == o.id { PutOneOrder(s, o); } else { PutOtherOrder(s, o, k); }
    }
  }

  /** Appending a later phase keeps a history ascending and adds only that phase. */
  lemma AppendPhase(ps: seq<Phase>, p: Phase)
    requires ps != [] && Ascending(ps) && Rank(ps[|ps| - 1]) < Rank(p)
    ensures Ascending(ps + [p]) && (ps + [p])[0] == ps[0]
    ensures PurchasedPhase in ps + [p] ==> PurchasedPhase in ps || p == PurchasedPhase
  {
    assert forall i :: 0 <= i < |ps| ==> Rank(ps[i]) <= Rank(ps[|ps| - 1]);
  }

  lemma PutOneOrder(s: State, o: Order)
    requires Tracked(s) && RowStep(s, o)
    ensures Tracked(Put(s, o)) && OrderOk(Put(s, o), o.id)
  {
    PutTracked(s, o);
    var ps := s.phases[o.id];
    if PhaseOf(o) != ps[|ps| - 1] {
      AppendPhase(ps, PhaseOf(o));
    }
    hide Framed, Ascending, RowOk, RowGrows;
  }

  lemma PutUnique(s: State, o: Order)
    requires Tracked(s) && RowStep(s, o) && UniqueIndexes(s.orders)
    requires !Conflicts(s.orders, o)
    ensures UniqueIndexes(Put(s, o).orders)
  {
  }

  lemma PutInv(s: State, o: Order)
    requires Inv(s) && RowStep(s, o) && !Conflicts(s.orders, o)
    ensures Inv(Put(s, o)) && Grows(s, Put(s, o))
  {
    hide HandlerOk, OrderOk, TaskOk, LedgerOk, RowStep;
    PutGrows(s, o);
    PutOrders(s, o);
    PutUnique(s, o);
    ConsumedGrows(s, Put(s, o));
    Carry(s, Put(s, o));
  }

  /** A change of a row's status columns cannot create an index conflict. */
  lemma NoConflict(s: State, o: Order)
    requires Tracked(s) && UniqueIndexes(s.orders) && o.id in s.orders
    requires SameFixedColumns(s.orders[o.id], o)
    requires o.credentialHash == s.orders[o.id].credentialHash && o.thirdPartyOrderId == s.orders[o.id].thirdPartyOrderId
    ensures !Conflicts(s.orders, o)
  {
  }

  // ----- a handler moves on

  lemma GoInv(s: State, h: nat, pc: Pc)
    requires Inv(s) && h in s.handlers
    requires HandlerOk(s, s.handlers[h].(pc := pc))
    ensures Inv(Go(s, h, pc)) && Grows(s, Go(s, h, pc))
  {
    hide HandlerOk, OrderOk, TaskOk, LedgerOk;
    RowsUntouched(s, Go(s, h, pc));
    HandlerGrows(s, Go(s, h, pc), s.handlers[h].(pc := pc));
    ConsumedGrows(s, Go(s, h, pc));
    Carry(s, Go(s, h, pc));
  }

  lemma DropInv(s: State, h: nat)
    requires Inv(s)
    ensures Inv(Drop(s, h)) && Grows(s, Drop(s, h))
  {
    SameFacts(s, Drop(s, h));
  }

  /** Changing the handlers, the configuration, the clock forward, or adding answers and sightings keeps every other fact. */
  lemma SameFacts(s: State, s': State)
    requires Inv(s)
    requires s'.now >= s.now && s.answers <= s'.answers && s.sightings <= s'.sightings
    requires s' == s.(now := s'.now, products := s'.products, stacks := s'.stacks, handlers := s'.handlers,
                      answers := s'.answers, sightings := s'.sightings)
    requires forall h :: h in s'.handlers ==> (h in s.handlers && s'.handlers[h] == s.handlers[h]) || HandlerOk(s', s'.handlers[h])
    ensures Inv(s') && Grows(s, s')
  {
    hide HandlerOk, OrderOk, TaskOk, LedgerOk;
    RowsUntouched(s, s');
    ConsumedGrows(s, s');
    Carry(s, s');
  }

  /** Steps that leave the order table alone and only add to queue facts, nonces and quotes. */
  lemma RowsUntouched(s: State, s': State)
    requires Tracked(s) && Tracked(s') && OrdersOk(s)
    requires s.now <= s'.now && s'.orders == s.orders && s'.phases == s.phases && s'.nextOrderId == s.nextOrderId
    requires forall o :: o in s.orders ==> s.quotes[o] <= s'.quotes[o]
    requires forall o :: o in s.orders ==> (GrantSafe(s, o) ==> GrantSafe(s', o)) && (RevokeSafe(s, o) ==> RevokeSafe(s', o))
    requires s.sent <= s'.sent && s.nonces <= s'.nonces && s.ledger <= s'.ledger
    requires s.answers <= s'.answers && s.sightings <= s'.sightings && s.consumed <= s'.consumed
    ensures Grows(s, s') && OrdersOk(s')
  {
    hide OrderOk, OrderGrows, GrantSafe, RevokeSafe;
    forall o | o in s.orders ensures OrderGrows(s, s', o) && OrderOk(s', o) {
      assert OrderOk(s, o);
      RowUntouched(s, s', o);
    }
  }

  lemma RowUntouched(s: State, s': State, o: nat)
    requires Tracked(s) && Tracked(s') && o in s.orders && OrderOk(s, o)
    requires s'.orders == s.orders && s'.phases == s.phases && s'.nextOrderId == s.nextOrderId && s.quotes[o] <= s'.quotes[o]
    requires (GrantSafe(s, o) ==> GrantSafe(s', o)) && (RevokeSafe(s, o) ==> RevokeSafe(s', o))
    ensures OrderGrows(s, s', o) && OrderOk(s', o)
  {
    hide Ascending, RowOk, Tracked;
  }

  /** Facts about tasks and handlers survive growth, so only new tasks and changed handlers need an argument. */
  lemma Carry(s: State, s': State)
    requires Inv(s) && Grows(s, s') && OrdersOk(s') && UniqueIndexes(s'.orders) && Valid(s'.items) && LedgerOk(s'.ledger, s'.nonces, s'.sent) && ConsumedOk(s')
    requires forall t :: t in s'.sent ==> t in s.sent || TaskOk(s', t)
    requires forall id :: id in s'.queue ==> s'.queue[id] in s'.sent && RefOf(s'.queue[id]) == id
    requires forall h :: h in s'.handlers ==> (h in s.handlers && s'.handlers[h] == s.handlers[h]) || HandlerOk(s', s'.handlers[h])
    ensures Inv(s')
  {
    hide HandlerOk, OrderOk, OrderGrows, TaskOk, LedgerOk;
    forall t | t in s'.sent ensures TaskOk(s', t) { if t in s.sent { TaskGrows(s, s', t); } }
    forall h | h in s'.handlers ensures HandlerOk(s', s'.handlers[h]) {
      if h in s.handlers && s'.handlers[h] == s.handlers[h] { HandlerGrows(s, s', s.handlers[h]); }
    }
  }

  /** The same when tasks, handlers and the inventory side are unchanged. */
  lemma CarrySame(s: State, s': State)
    requires Inv(s) && Grows(s, s') && OrdersOk(s') && ConsumedOk(s')
    requires s'.orders == s.orders && s'.items == s.items && s'.ledger == s.ledger && s'.nonces == s.nonces && s'.sent == s.sent
    requires s'.queue == s.queue && s'.handlers == s.handlers
    ensures Inv(s')
  {
    assert Tracked(s') && s'.now > 0;
    hide HandlerOk, OrderOk, OrdersOk, TaskOk, LedgerOk, Grows, UniqueIndexes, ConsumedOk, Tracked, HandlersOk;
    Carry(s, s');
  }
}
