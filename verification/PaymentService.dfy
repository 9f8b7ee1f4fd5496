/**
 The payment pipelines as the service runs them: one request, statement by statement, while
 everybody else moves on between any two of its statements and any call it makes may fail.
 Whatever happens, what the request did is a stretch of a run of `Protocol`, and what it reports
 has really happened to the order.
 */
module PaymentService {
  import opened Common
  import opened Orders
  import opened OrderStore
  import opened OrderStatements
  import opened Protocol
  import opened ProtocolInvariants
  import opened ProtocolSteps
  import opened ProtocolClosing
  import opened ProtocolWitnesses

  datatype Report = Done(result: ProcessResult) | Failed

  /** `s` follows from `s0` by steps of the protocol. */
  ghost predicate Follows(s0: State, s: State) { Inv(s) && Reach(s0, s) && Grows(s0, s) }

  lemma FollowsSelf(s: State)
    requires Inv(s)
    ensures Follows(s, s)
  {
    hide Inv, Reach, Grows;
    ReachSelf(s);
    GrowsReflexiveInv(s);
  }

  lemma FollowsInv(s: State, s': State)
    requires Follows(s, s')
    ensures Inv(s')
  {
  }

  lemma FollowsGrows(s: State, s': State)
    requires Follows(s, s')
    ensures Grows(s, s')
  {
  }

  lemma FollowsBoth(a: State, b: State, c: State)
    requires Follows(a, b) && Follows(b, c)
    ensures Follows(a, c)
  {
    hide Inv, Reach, Grows;
    ReachBoth(a, b, c);
    GrowsTransitive(a, b, c);
  }

  /** Between two statements the others make any number of steps; the request stays where it is. */
  ghost predicate Keeps(env: (nat, State) -> State, h: nat) {
    forall n: nat, s: State {:trigger env(n, s)} :: h in s.handlers ==>
      Reach(s, env(n, s)) && h in env(n, s).handlers && env(n, s).handlers[h] == s.handlers[h]
  }

  lemma OthersFollow(env: (nat, State) -> State, h: nat, n: nat, s: State)
    requires Keeps(env, h) && Inv(s) && h in s.handlers
    ensures Follows(s, env(n, s)) && h in env(n, s).handlers && env(n, s).handlers[h] == s.handlers[h]
  {
    var s' := env(n, s);
    assert Reach(s, s');
    hide Inv, Grows, Keeps;
    var tr :| RunBetween(tr, s, s');
    RunInv(tr, 0, |tr| - 1);
  }

  // ----- the request's own statements are steps of the protocol

  lemma Moves(s: State, h: nat)
    requires Inv(s) && h in s.handlers && !s.handlers[h].pc.Ask?
    ensures Tracked(s) && Follows(s, Advance(s, h))
  {
    hide *;
    InvParts(s);
    ReachSelf(s);
    ReachMove(s, s, h, Advance(s, h));
    MoveInv(s, h);
    FollowsIs(s, Advance(s, h));
  }

  lemma FollowsIs(s: State, s': State)
    requires Inv(s') && Reach(s, s') && Grows(s, s')
    ensures Follows(s, s')
  {
  }

  lemma Drops(s: State, h: nat)
    requires Inv(s) && h in s.handlers
    ensures Follows(s, Drop(s, h))
  {
    hide *;
    InvParts(s);
    ReachSelf(s);
    Stops(s, h);
    ReachNext(s, s, Stop(h), Drop(s, h));
    DropInv(s, h);
    FollowsIs(s, Drop(s, h));
  }

  /** The order a pipeline works on exists. */
  lemma CopyExists(s: State, h: nat, o: Order, tp: ThirdPartyOrder)
    requires Inv(s) && h in s.handlers
    requires var pc := s.handlers[h].pc;
      || pc == ReadProduct(o, tp) || (pc.SaveRewards? && pc.order == o && pc.tp == tp) || pc == SetPurchased(o, tp) || pc == Complete(o, tp)
      || pc == SetCancelled(o, tp) || pc == SendRevoke(o, tp) || pc == SetRefunded(o, tp)
    ensures Tracked(s) && o.id in s.orders && s.orders[o.id].id == o.id && PhaseOf(o) in s.phases[o.id]
    ensures s.handlers[h].pc.Complete? ==> EverPurchased(s, o.id)
    ensures s.handlers[h].pc.SetRefunded? ==> RevokeSafe(s, o.id)
  {
    hide OrdersOk, TasksOk, LedgerOk, ConsumedOk, UniqueIndexes, Items.Valid;
    assert HandlerOk(s, s.handlers[h]);
  }

  /** The last entry of an order's history is its present phase. */
  lemma LastPhase(s: State, o: nat)
    requires Inv(s) && o in s.orders
    ensures Tracked(s) && s.phases[o] != [] && PhaseOf(s.orders[o]) in s.phases[o]
  {
    hide TasksOk, HandlersOk, LedgerOk, ConsumedOk, UniqueIndexes, Items.Valid;
    assert OrderOk(s, o);
    var ps := s.phases[o];
    assert ps[|ps| - 1] in ps;
  }

  lemma ReadProductMoves(s: State, h: nat, o: Order, tp: ThirdPartyOrder)
    requires Inv(s) && h in s.handlers && s.handlers[h].pc == ReadProduct(o, tp)
    ensures o.id in s.quotes
    ensures if o.productId in s.products then
              var p := s.products[o.productId];
              Follows(s, Go(s, h, SaveRewards(o, tp, Marshal(p.rewards))).(quotes := s.quotes[o.id := s.quotes[o.id] + {Listed(p)}]))
            else Follows(s, Drop(s, h))
  {
    CopyExists(s, h, o, tp);
    Moves(s, h);
    AdvanceIs(s, h);
    hide Inv, Follows, Framed, RowsKept, Advance;
  }

  lemma SaveRewardsMoves(s: State, h: nat, o: Order, tp: ThirdPartyOrder, rewards: Snapshot)
    requires Inv(s) && h in s.handlers && s.handlers[h].pc == SaveRewards(o, tp, rewards)
    ensures Tracked(s) && o.id in s.orders && s.orders[o.id].id == o.id && o.id in s.phases && s.phases[o.id] != []
    ensures Follows(s, Go(Put(s, s.orders[o.id].(rewards := rewards)), h, SendGrant(o, tp, rewards)))
  {
    CopyExists(s, h, o, tp);
    Moves(s, h);
    AdvanceIs(s, h);
    hide Inv, Follows, Framed, Quiet, Advance, Put, Go;
  }

  lemma SendGrantMoves(s: State, h: nat, o: Order, tp: ThirdPartyOrder, rewards: Snapshot)
    requires Inv(s) && h in s.handlers && s.handlers[h].pc == SendGrant(o, tp, rewards)
    ensures Follows(s, Go(Enqueue(s, GrantTask(o.id, o.uid, rewards)), h, SetPurchased(o, tp)))
  {
    Moves(s, h);
    AdvanceIs(s, h);
    hide Inv, Follows, Framed, Quiet, Advance, Enqueue, Go;
  }

  lemma SetPurchasedMoves(s: State, h: nat, o: Order, tp: ThirdPartyOrder)
    requires Inv(s) && h in s.handlers && s.handlers[h].pc == SetPurchased(o, tp)
    ensures Tracked(s) && o.id in s.orders && s.orders[o.id].id == o.id && o.id in s.phases && s.phases[o.id] != []
    ensures Follows(s, if CanPurchase(s.orders[o.id]) then Go(Put(s, MarkedPurchased(s.orders[o.id], tp)), h, Complete(o, tp)) else Drop(s, h))
  {
    CopyExists(s, h, o, tp);
    Moves(s, h);
    AdvanceIs(s, h);
    hide Inv, Follows, Framed, Quiet, Advance, Put, Go, Drop, CanPurchase, MarkedPurchased;
  }

  lemma CompleteMoves(s: State, h: nat, o: Order, tp: ThirdPartyOrder)
    requires Inv(s) && h in s.handlers && s.handlers[h].pc == Complete(o, tp)
    ensures var s' := Drop(if tp.consumed then s else s.(consumed := s.consumed + {tp.credential}), h);
      Follows(s, s') && Happened(s', o, DonePurchased)
  {
    CopyExists(s, h, o, tp);
    Moves(s, h);
    AdvanceIs(s, h);
    hide Inv, Follows, Framed, Quiet, Advance;
  }

  lemma SetCancelledMoves(s: State, h: nat, o: Order, tp: ThirdPartyOrder)
    requires Inv(s) && h in s.handlers && s.handlers[h].pc == SetCancelled(o, tp)
    ensures Tracked(s) && o.id in s.orders && s.orders[o.id].id == o.id && o.id in s.phases && s.phases[o.id] != []
    ensures Follows(s, if s.orders[o.id].status == Pending then Drop(Put(s, MarkedCancelled(s.orders[o.id], tp, s.now)), h) else Drop(s, h))
  {
    CopyExists(s, h, o, tp);
    Moves(s, h);
    AdvanceIs(s, h);
    hide Inv, Follows, Framed, Quiet, Advance, Put, Drop, MarkedCancelled;
  }

  /** After a row is written with a cancelled status, the order's history shows it. */
  lemma CancelHappened(s: State, row: Order, h: nat, o: Order)
    requires Tracked(s) && row.id == o.id && o.id in s.orders && row.status == Cancelled && Inv(Drop(Put(s, row), h))
    ensures Happened(Drop(Put(s, row), h), o, DoneCancelled)
  {
    hide Inv, Put, Framed;
    LastPhase(Drop(Put(s, row), h), o.id);
  }

  lemma SendRevokeMoves(s: State, h: nat, o: Order, tp: ThirdPartyOrder)
    requires Inv(s) && h in s.handlers && s.handlers[h].pc == SendRevoke(o, tp)
    ensures Follows(s, Go(Enqueue(s, RevokeTask(o.id, o.uid, o.rewards)), h, SetRefunded(o, tp)))
  {
    Moves(s, h);
    AdvanceIs(s, h);
    hide Inv, Follows, Framed, Quiet, Advance, Enqueue, Go;
  }

  lemma SetRefundedMoves(s: State, h: nat, o: Order, tp: ThirdPartyOrder)
    requires Inv(s) && h in s.handlers && s.handlers[h].pc == SetRefunded(o, tp)
    ensures Tracked(s) && o.id in s.orders && s.orders[o.id].id == o.id && o.id in s.phases && s.phases[o.id] != [] && RevokeSafe(s, o.id)
    ensures Follows(s, if s.orders[o.id].status == Purchased then Drop(Put(s, MarkedRefunded(s.orders[o.id], tp, s.now)), h) else Drop(s, h))
  {
    CopyExists(s, h, o, tp);
    Moves(s, h);
    AdvanceIs(s, h);
    hide Inv, Follows, Framed, Quiet, Advance, Put, Drop, MarkedRefunded, RevokeSafe;
  }

  lemma RevokeStays(s: State, s': State, o: nat)
    requires Grows(s, s') && o in s.orders && RevokeSafe(s, o)
    ensures o in s'.orders && RevokeSafe(s', o)
  {
    assert OrderGrows(s, s', o);
  }

  lemma BindMoves(s: State, h: nat, uid: nat, tp: ThirdPartyOrder)
    requires Inv(s) && h in s.handlers && s.handlers[h].pc == Bind(uid, tp) && tp.uid == uid && tp.credential != ""
    ensures Tracked(s)
    ensures var id := tp.internalOrderId;
      if id in s.orders && CanBind(s.orders[id], uid, Google, tp.internalProductId, tp.credential, tp.orderId) then
        var o := Bound(s.orders[id], tp.credential, tp.orderId);
        && o.id in s.phases && s.phases[o.id] != []
        && (!Conflicts(s.orders, o) ==> Follows(s, Go(Put(s, o), h, ReadBack(uid, tp))))
      else Follows(s, Go(s, h, ReadBack(uid, tp)))
  {
    Moves(s, h);
    AdvanceIs(s, h);
    hide Inv, Follows, Framed, Quiet, Advance, Put, Go, CanBind, Conflicts, Bound;
  }

  lemma ScanMoves(s: State, h: nat, orderId: nat, expiredAt: int)
    requires Inv(s) && h in s.handlers && s.handlers[h] == Handler(Scan(orderId, expiredAt), Start)
    ensures Follows(s, BeginScan(s, h, orderId, expiredAt))
  {
    Moves(s, h);
    AdvanceIs(s, h);
    hide Inv, Follows, Framed, Quiet, RowsKept, Advance, BeginScan;
  }

  lemma AnswerMoves(s: State, h: nat, tp: ThirdPartyOrder)
    requires Inv(s) && h in s.handlers && s.handlers[h].pc.Ask? && tp.credential == s.handlers[h].pc.credential
    ensures var asUid := s.handlers[h].pc.asUid;
      Follows(s, Go(s, h, Bind(if asUid.Some? then asUid.value else tp.uid, tp)).(answers := s.answers + {tp}))
  {
    InvParts(s);
    var asUid := s.handlers[h].pc.asUid;
    var s' := Go(s, h, Bind(if asUid.Some? then asUid.value else tp.uid, tp)).(answers := s.answers + {tp});
    assert Next(s, Answer(h, tp), s') by { hide Inv, Advance, Framed, Tracked; }
    hide *;
    ReachSelf(s);
    ReachNext(s, s, Answer(h, tp), s');
    NextInv(s, Answer(h, tp), s');
    FollowsIs(s, s');
  }

  lemma CloseMoves(s: State, h: nat, expiredAt: int, id: nat)
    requires Inv(s) && h in s.handlers && s.handlers[h].origin.Scan? && s.handlers[h].origin.expiredAt == expiredAt
    requires || (s.handlers[h].pc.CloseUnpaid? && s.handlers[h].origin.orderId == id)
             || (s.handlers[h].pc.CloseWaiting? && s.handlers[h].pc.order.id == id)
    ensures Tracked(s) && Follows(s, CloseByTimeout(s, h, id, expiredAt))
  {
    Moves(s, h);
    AdvanceIs(s, h);
    hide Inv, Follows, Framed, Quiet, Advance, CloseByTimeout;
  }

  lemma CreationMoves(s: State, h: nat, uid: nat, paymentType: PaymentType, productId: int)
    requires Inv(s) && h in s.handlers && s.handlers[h] == Handler(Creation(uid, paymentType, productId), Start)
    ensures Follows(s, BeginCreation(s, h, uid, paymentType, productId))
  {
    Moves(s, h);
    AdvanceIs(s, h);
    hide Inv, Follows, Framed, RowsKept, Advance, BeginCreation;
  }

  lemma LookMoves(s: State, h: nat, p: CreateParams)
    requires Inv(s) && h in s.handlers && s.handlers[h].pc == LookForPending(p)
    ensures Follows(s, LookStep(s, h, p))
  {
    Moves(s, h);
    AdvanceIs(s, h);
    hide Inv, Follows, Framed, RowsKept, Advance, LookStep;
  }

  lemma InsertMoves(s: State, h: nat, p: CreateParams)
    requires Inv(s) && h in s.handlers && s.handlers[h].pc == InsertOrder(p)
    ensures Follows(s, InsertStep(s, h, p))
  {
    Moves(s, h);
    AdvanceIs(s, h);
    hide Inv, Follows, Framed, RowsKept, Advance, InsertStep;
  }

  /** The order a request has just read back is the one it is about to process. */
  predicate Reads(s: State, h: nat, uid: nat, tp: ThirdPartyOrder, o: Order) {
    && h in s.handlers && s.handlers[h].pc == ReadBack(uid, tp) && tp.internalOrderId in s.orders && o == s.orders[tp.internalOrderId]
    && BoundTo(o, uid, Google, tp.internalProductId, tp.credential, tp.orderId) && ProductMatches(s.handlers[h].origin, tp, o)
  }

  lemma DispatchMoves(s: State, h: nat, uid: nat, tp: ThirdPartyOrder, o: Order)
    requires Inv(s) && Reads(s, h, uid, tp, o)
    ensures Follows(s, Dispatch(s, h, o, tp)) && o.id in s.orders && o.id in s.phases && PhaseOf(o) in s.phases[o.id]
  {
    Moves(s, h);
    AdvanceIs(s, h);
    LastPhase(s, tp.internalOrderId);
    hide Inv, Follows, Framed, Quiet, Advance, Dispatch, BoundTo, ProductMatches;
  }

  lemma ReadsHandler(s: State, h: nat, uid: nat, tp: ThirdPartyOrder, o: Order)
    requires Reads(s, h, uid, tp, o)
    ensures h in s.handlers
  {
  }

  predicate SameStatus(s: State, s': State, id: nat) {
    id in s.orders && id in s'.orders && s'.orders[id].status == s.orders[id].status && s'.orders[id].reason == s.orders[id].reason
  }

  lemma SettledMeans(s: State, uid: nat, tp: ThirdPartyOrder)
    requires Bindable(s, uid, tp) && Settled(s, tp)
    ensures var o := Bound(s.orders[tp.internalOrderId], tp.credential, tp.orderId);
      && o.productId in s.products && tp.productId == o.thirdPartyProductId != ""
      && !Decide(o.status, o.reason, tp.status).Refuse? && Outcome(Decide(o.status, o.reason, tp.status)) != Some(Waiting)
  {
    hide CanBind, Conflicts;
  }

  /** The answer is for the order's product, which is on sale, and the decision table has something final to say. */
  predicate Settled(s: State, tp: ThirdPartyOrder) {
    && tp.internalOrderId in s.orders
    && var o := s.orders[tp.internalOrderId];
       var outcome := Outcome(Decide(o.status, o.reason, tp.status));
       && o.productId in s.products && tp.productId == o.thirdPartyProductId != ""
       && outcome != None && outcome != Some(Waiting)
  }

  /** The answer says Purchased for the order's product, which is configured, and the order is open or was closed by timeout. */
  predicate Payable(s: State, tp: ThirdPartyOrder) {
    && tp.internalOrderId in s.orders && tp.status == ProviderPurchased
    && var o := s.orders[tp.internalOrderId];
       && o.productId in s.products && tp.productId == o.thirdPartyProductId != ""
       && (o.status == Pending || (o.status == Cancelled && o.reason == TimeoutReason))
  }

  lemma PayableMeans(s: State, uid: nat, tp: ThirdPartyOrder)
    requires Bindable(s, uid, tp) && Payable(s, tp)
    ensures var o := Bound(s.orders[tp.internalOrderId], tp.credential, tp.orderId);
      && o.id == s.orders[tp.internalOrderId].id && o.productId in s.products && tp.productId == o.thirdPartyProductId != ""
      && (o.status == Pending || (o.status == Cancelled && o.reason == TimeoutReason))
  {
    hide CanBind, Conflicts;
  }

  /** The order is Pending and old enough, and so is the purchase at the provider, for the order's product. */
  predicate StillWaiting(s: State, expiredAt: int, tp: ThirdPartyOrder) {
    && tp.internalOrderId in s.orders && tp.status == ProviderPending
    && var o := s.orders[tp.internalOrderId]; ExpiredPending(o, expiredAt) && tp.productId == o.thirdPartyProductId != ""
  }

  lemma WaitingMeans(s: State, uid: nat, expiredAt: int, tp: ThirdPartyOrder)
    requires Bindable(s, uid, tp) && StillWaiting(s, expiredAt, tp)
    ensures var o := Bound(s.orders[tp.internalOrderId], tp.credential, tp.orderId);
      && o.id == tp.internalOrderId && ExpiredPending(o, expiredAt) && tp.productId == o.thirdPartyProductId != ""
      && Decide(o.status, o.reason, tp.status) == Nothing(Waiting) && Outcome(Decide(o.status, o.reason, tp.status)) == Some(Waiting)
  {
    hide CanBind, Conflicts;
  }

  /** The scan finds the order with a credential, and the provider's answer for it says that the purchase is still Pending. */
  predicate AsksAbout(s: State, orderId: nat, expiredAt: int, tp: ThirdPartyOrder) {
    && orderId in s.orders && ExpiredPending(s.orders[orderId], expiredAt) && s.orders[orderId].paymentType == Google
    && tp.credential != "" && s.orders[orderId].credential == Some(tp.credential)
    && Bindable(s, s.orders[orderId].uid, tp) && StillWaiting(s, expiredAt, tp)
  }

  lemma AskStays(s: State, h: nat)
    requires h in s.handlers
    ensures forall uid, expiredAt, tp, pc :: Bindable(s, uid, tp) && StillWaiting(s, expiredAt, tp) ==>
      Bindable(Go(s, h, pc), uid, tp) && StillWaiting(Go(s, h, pc), expiredAt, tp)
  {
    hide CanBind, Conflicts, Framed;
  }

  /** A Pending order of that user, channel and product. */
  predicate IsOpenFor(o: Order, uid: nat, paymentType: PaymentType, productId: int) {
    o.status == Pending && o.uid == uid && o.paymentType == paymentType && o.productId == productId
  }

  /** The channel exists and the product is on sale there. */
  predicate OnSale(s: State, paymentType: PaymentType, productId: int) {
    && paymentType == Google && productId in s.products
    && paymentType in s.products[productId].thirdPartyIds && s.products[productId].thirdPartyIds[paymentType] != ""
    && s.products[productId].priced
  }

  /** The answer names an order of the user that may be bound to its credential. */
  predicate Bindable(s: State, uid: nat, tp: ThirdPartyOrder) {
    && tp.uid == uid && tp.credential != "" && tp.internalOrderId in s.orders && s.orders[tp.internalOrderId].id == tp.internalOrderId
    && CanBind(s.orders[tp.internalOrderId], uid, Google, tp.internalProductId, tp.credential, tp.orderId)
    && !Conflicts(s.orders, Bound(s.orders[tp.internalOrderId], tp.credential, tp.orderId))
  }

  lemma BindableIs(s: State, uid: nat, tp: ThirdPartyOrder)
    ensures Bindable(s, uid, tp) ==>
      BoundTo(Bound(s.orders[tp.internalOrderId], tp.credential, tp.orderId), uid, Google, tp.internalProductId, tp.credential, tp.orderId)
  {
  }

  lemma BindableStays(s: State, h: nat, uid: nat, tp: ThirdPartyOrder)
    requires h in s.handlers
    ensures Bindable(s, uid, tp) ==> tp.internalOrderId in s.orders
    ensures forall pc :: Bindable(s, uid, tp) ==> Bindable(Go(s, h, pc).(answers := s.answers + {tp}), uid, tp)
  {
    hide CanBind, Conflicts, Framed;
  }

  /** What the decision table promises to report; nothing when it refuses. */
  function Outcome(d: Decision): Option<ProcessResult> {
    match d
    case Purchase => Some(DonePurchased)
    case CompleteOnly => Some(DonePurchased)
    case Cancel => Some(DoneCancelled)
    case Revoke => Some(DoneCancelled)
    case Nothing(r) => Some(r)
    case Refuse => None
  }

  lemma RowKnowsItself(s: State, id: nat)
    requires Inv(s) && id in s.orders
    ensures s.orders[id].id == id
  {
    hide OrdersOk, TasksOk, HandlersOk, LedgerOk, ConsumedOk, UniqueIndexes, Items.Valid;
  }

  lemma ReadsRow(s: State, h: nat, uid: nat, tp: ThirdPartyOrder, o: Order)
    requires Inv(s) && Reads(s, h, uid, tp, o)
    ensures o.id in s.orders && s.orders[o.id] == o
  {
    RowKnowsItself(s, tp.internalOrderId);
  }

  /** What a result says about the order's history. */
  predicate Happened(s: State, o: Order, r: ProcessResult) {
    && o.id in s.orders && o.id in s.phases
    && match r
       case DonePurchased => PurchasedPhase in s.phases[o.id]
       case DoneCancelled => TimeoutPhase in s.phases[o.id] || RefundedPhase in s.phases[o.id]
       case Waiting => PendingPhase in s.phases[o.id]
  }

  /** The purchase is done: reported, marked, its grant queued or committed, and consumed. */
  predicate Bought(s: State, o: Order, tp: ThirdPartyOrder, r: Report) {
    && r == Done(DonePurchased) && o.id in s.orders && s.orders[o.id].status == Purchased
    && (TaskRef(GrantKind, o.id) in s.queue || Nonce(s.orders[o.id].uid, GrantKind, o.id) in s.nonces)
    && (tp.consumed || tp.credential in s.consumed)
  }

  predicate RefundCancelled(s: State, id: nat) { id in s.orders && s.orders[id].status == Cancelled && s.orders[id].reason == RefundReason }

  /** No row, no queued task and nothing at the provider has changed. */
  predicate Untouched(s: State, s': State) { s'.orders == s.orders && s'.queue == s.queue && s'.consumed == s.consumed }

  lemma PurchasedIsGranted(s: State, o: Order)
    requires Inv(s)
    ensures Happened(s, o, DonePurchased) ==> o.id in s.orders && GrantSafe(s, o.id)
    ensures forall r :: Happened(s, o, r) ==> o.id in s.orders
  {
    hide TasksOk, HandlersOk, LedgerOk, ConsumedOk, UniqueIndexes, Items.Valid;
    if o.id in s.orders { assert OrderOk(s, o.id); }
  }

  class Request {
    var s: State
    var turn: nat
    const h: nat
    const env: (nat, State) -> State
    const fails: nat -> bool

    constructor (s: State, h: nat, env: (nat, State) -> State, fails: nat -> bool)
      ensures this.s == s && this.h == h && this.env == env && this.fails == fails
    {
      this.s, turn, this.h, this.env, this.fails := s, 0, h, env, fails;
    }

    ghost predicate At(pc: Pc)
      reads this
    {
      Inv(s) && Keeps(env, h) && h in s.handlers && s.handlers[h].pc == pc
    }

    /** No call fails and nobody else moves. */
    ghost predicate Smooth() { (forall n :: !fails(n)) && (forall n, s :: env(n, s) == s) }

    /** Everybody else runs for a while. */
    method Yield()
      requires Inv(s) && Keeps(env, h) && h in s.handlers
      modifies this
      ensures Follows(old(s), s) && h in s.handlers && s.handlers[h] == old(s.handlers[h])
      ensures Smooth() ==> s == old(s)
    {
      OthersFollow(env, h, turn, s);
      s, turn := env(turn, s), turn + 1;
    }

    /** Others run, then the request makes a call that may fail; a failure ends the request. */
    method Attempt() returns (ok: bool)
      requires Inv(s) && Keeps(env, h) && h in s.handlers
      modifies this
      ensures Follows(old(s), s)
      ensures ok ==> h in s.handlers && s.handlers[h] == old(s.handlers[h])
      ensures !ok ==> h !in s.handlers
      ensures Smooth() ==> ok && s == old(s)
    {
      hide Inv, Follows, Keeps;
      Yield();
      ok := !fails(turn);
      if !ok {
        ghost var mid := s;
        Drops(s, h);
        s := Drop(s, h);
        FollowsBoth(old(s), mid, s);
      }
    }

    /** A call has taken effect; its confirmation may still be lost. */
    method Confirm() returns (ok: bool)
      modifies this`turn
      ensures Smooth() ==> ok
    {
      ok := !fails(turn);
      turn := turn + 1;
    }

    method StepGrantRewards(o: Order, tp: ThirdPartyOrder) returns (ok: bool)
      requires At(ReadProduct(o, tp))
      modifies this
      ensures Follows(old(s), s)
      ensures ok ==> At(SetPurchased(o, tp))
      ensures !ok ==> h !in s.handlers
      ensures Smooth() ==> (ok <==> o.productId in old(s).products)
      ensures Smooth() && ok ==> SameStatus(old(s), s, o.id)
    {
      hide Inv, Follows, Keeps, Tracked, Framed, Put, Go, Enqueue, Drop, Smooth;
      Yield();
      ghost var s1 := s;
      ReadProductMoves(s, h, o, tp);
      if o.productId !in s.products {
        s := Drop(s, h);
        FollowsBoth(old(s), s1, s);
        return false;
      }
      var p := s.products[o.productId];
      var rewards := Marshal(p.rewards);
      s := Go(s, h, SaveRewards(o, tp, rewards)).(quotes := s.quotes[o.id := s.quotes[o.id] + {Listed(p)}]);
      FollowsBoth(old(s), s1, s);
      FollowsInv(old(s), s);

      ghost var s2 := s;
      ok := SubmitGrant(o, tp, rewards);
      FollowsBoth(old(s), s2, s);
    }

    /** Overwrites the order's snapshot, then hands the same rewards to the queue. */
    method SubmitGrant(o: Order, tp: ThirdPartyOrder, rewards: Snapshot) returns (ok: bool)
      requires At(SaveRewards(o, tp, rewards))
      modifies this
      ensures Follows(old(s), s)
      ensures ok ==> At(SetPurchased(o, tp))
      ensures !ok ==> h !in s.handlers
      ensures Smooth() ==> ok && SameStatus(old(s), s, o.id)
    {
      hide Inv, Follows, Keeps, Tracked, Framed, Put, Go, Enqueue, Drop, Smooth, Quiet;
      ok := Attempt();
      if !ok { return; }
      FollowsInv(old(s), s);
      SaveRewardsMoves(s, h, o, tp, rewards);
      ghost var s1 := s;
      s := Go(Put(s, s.orders[o.id].(rewards := rewards)), h, SendGrant(o, tp, rewards));
      FollowsBoth(old(s), s1, s);
      FollowsInv(old(s), s);

      ghost var s2 := s;
      ok := Attempt();
      FollowsBoth(old(s), s2, s);
      if !ok { return; }
      FollowsInv(old(s), s);
      SendGrantMoves(s, h, o, tp, rewards);
      ghost var s3 := s;
      s := Go(Enqueue(s, GrantTask(o.id, o.uid, rewards)), h, SetPurchased(o, tp));
      FollowsBoth(old(s), s3, s);
      FollowsInv(old(s), s);
    }

    /** Success: the grant is queued or committed, the order was marked Purchased, and the purchase is consumed. */
    method PurchaseOrder(o: Order, tp: ThirdPartyOrder) returns (r: Report)
      requires At(ReadProduct(o, tp))
      modifies this
      ensures Follows(old(s), s) && h !in s.handlers
      ensures r.Done? ==> r.result == DonePurchased && Happened(s, o, DonePurchased) && (tp.consumed || tp.credential in s.consumed)
      ensures r.Done? ==> GrantSafe(s, o.id)
      ensures Smooth() && o.id in old(s).orders ==> (r.Done? <==> o.productId in old(s).products && CanPurchase(old(s).orders[o.id]))
      ensures Smooth() && r.Done? ==> s.orders[o.id].status == Purchased
    {
      hide Inv, Follows, Keeps, Tracked, Framed, Put, Go, Happened, Smooth;
      var ok := StepGrantRewards(o, tp);
      if !ok { return Failed; }

      ghost var s1 := s;
      ok := Attempt();
      FollowsBoth(old(s), s1, s);
      if !ok { return Failed; }
      FollowsInv(old(s), s);
      SetPurchasedMoves(s, h, o, tp);
      ghost var s2 := s;
      if !CanPurchase(s.orders[o.id]) {
        s := Drop(s, h);
        FollowsBoth(old(s), s2, s);
        return Failed;
      }
      s := Go(Put(s, MarkedPurchased(s.orders[o.id], tp)), h, Complete(o, tp));
      FollowsBoth(old(s), s2, s);
      FollowsInv(old(s), s);

      ghost var s3 := s;
      ok := StepComplete(o, tp);
      FollowsBoth(old(s), s3, s);
      FollowsInv(old(s), s);
      PurchasedIsGranted(s, o);
      r := if ok then Done(DonePurchased) else Failed;
    }

    method StepComplete(o: Order, tp: ThirdPartyOrder) returns (ok: bool)
      requires At(Complete(o, tp))
      modifies this
      ensures Follows(old(s), s) && h !in s.handlers
      ensures ok ==> Happened(s, o, DonePurchased) && (tp.consumed || tp.credential in s.consumed)
      ensures Smooth() ==> ok && s.orders == old(s).orders
    {
      hide Inv, Follows, Keeps, Framed, Happened, Smooth;
      ok := Attempt();
      if !ok { return; }
      FollowsInv(old(s), s);
      CompleteMoves(s, h, o, tp);
      ghost var s1 := s;
      if !tp.consumed { s := s.(consumed := s.consumed + {tp.credential}); }
      s := Drop(s, h);
      FollowsBoth(old(s), s1, s);
      ok := Confirm();
    }

    method CancelOrder(o: Order, tp: ThirdPartyOrder) returns (r: Report)
      requires At(SetCancelled(o, tp))
      modifies this
      ensures Follows(old(s), s) && h !in s.handlers
      ensures r.Done? ==> r.result == DoneCancelled && Happened(s, o, DoneCancelled)
      ensures Smooth() && o.id in old(s).orders ==> (r.Done? <==> old(s).orders[o.id].status == Pending)
      ensures Smooth() && r.Done? ==> o.id in s.orders && s.orders[o.id].status == Cancelled && s.orders[o.id].reason == RefundReason
      ensures Smooth() && r.Failed? ==> s.orders == old(s).orders
    {
      hide Inv, Follows, Keeps, Tracked, Framed, Put, Happened, Smooth;
      var ok := Attempt();
      if !ok { return Failed; }
      FollowsInv(old(s), s);
      SetCancelledMoves(s, h, o, tp);
      ghost var s1 := s;
      if s.orders[o.id].status != Pending {
        s := Drop(s, h);
        FollowsBoth(old(s), s1, s);
        return Failed;
      }
      s := Drop(Put(s, MarkedCancelled(s.orders[o.id], tp, s.now)), h);
      FollowsBoth(old(s), s1, s);
      FollowsInv(old(s), s);
      CancelHappened(s1, MarkedCancelled(s1.orders[o.id], tp, s1.now), h, o);
      ok := Confirm();
      r := if ok then Done(DoneCancelled) else Failed;
    }

    method StepRevokeRewards(o: Order, tp: ThirdPartyOrder) returns (ok: bool)
      requires At(SendRevoke(o, tp))
      modifies this
      ensures Follows(old(s), s)
      ensures if ok then At(SetRefunded(o, tp)) else h !in s.handlers
      ensures Smooth() ==> ok && s.orders == old(s).orders
    {
      hide Inv, Follows, Keeps, Tracked, Framed, Go, Enqueue, Smooth;
      ok := Attempt();
      if !ok { return; }
      FollowsInv(old(s), s);
      SendRevokeMoves(s, h, o, tp);
      ghost var s1 := s;
      s := Go(Enqueue(s, RevokeTask(o.id, o.uid, o.rewards)), h, SetRefunded(o, tp));
      FollowsBoth(old(s), s1, s);
      FollowsInv(old(s), s);
    }

    /** Success: the revocation is queued or committed and the order was marked refunded. */
    method RevokeOrder(o: Order, tp: ThirdPartyOrder) returns (r: Report)
      requires At(SendRevoke(o, tp))
      modifies this
      ensures Follows(old(s), s) && h !in s.handlers
      ensures r.Done? ==> r.result == DoneCancelled && Happened(s, o, DoneCancelled) && o.id in s.orders && RevokeSafe(s, o.id)
      ensures Smooth() && o.id in old(s).orders ==> (r.Done? <==> old(s).orders[o.id].status == Purchased)
      ensures Smooth() && r.Done? ==> s.orders[o.id].status == Cancelled && s.orders[o.id].reason == RefundReason
      ensures Smooth() && r.Failed? ==> s.orders == old(s).orders
    {
      hide Inv, Follows, Keeps, Tracked, Framed, Happened, RevokeSafe, Smooth;
      var ok := StepRevokeRewards(o, tp);
      if !ok { return Failed; }
      ghost var s1 := s;
      r := MarkRefunded(o, tp);
      FollowsBoth(old(s), s1, s);
    }

    method MarkRefunded(o: Order, tp: ThirdPartyOrder) returns (r: Report)
      requires At(SetRefunded(o, tp))
      modifies this
      ensures Follows(old(s), s) && h !in s.handlers
      ensures r.Done? ==> r.result == DoneCancelled && Happened(s, o, DoneCancelled) && o.id in s.orders && RevokeSafe(s, o.id)
      ensures Smooth() && o.id in old(s).orders ==> (r.Done? <==> old(s).orders[o.id].status == Purchased)
      ensures Smooth() && r.Done? ==> s.orders[o.id].status == Cancelled && s.orders[o.id].reason == RefundReason
      ensures Smooth() && r.Failed? ==> s.orders == old(s).orders
    {
      hide Inv, Follows, Keeps, Tracked, Framed, Put, Happened, RevokeSafe, Smooth, Drop, Grows;
      var ok := Attempt();
      if !ok { return Failed; }
      FollowsInv(old(s), s);
      SetRefundedMoves(s, h, o, tp);
      ghost var s1 := s;
      if s.orders[o.id].status != Purchased {
        s := Drop(s, h);
        FollowsBoth(old(s), s1, s);
        return Failed;
      }
      s := Drop(Put(s, MarkedRefunded(s.orders[o.id], tp, s.now)), h);
      FollowsBoth(old(s), s1, s);
      FollowsInv(old(s), s);
      FollowsGrows(s1, s);
      RevokeStays(s1, s, o.id);
      CancelHappened(s1, MarkedRefunded(s1.orders[o.id], tp, s1.now), h, o);
      ok := Confirm();
      r := if ok then Done(DoneCancelled) else Failed;
    }

    /** The row is bound if it may be and is not yet, then read back and checked. */
    method FindOrBind(uid: nat, tp: ThirdPartyOrder) returns (found: Option<Order>)
      requires At(Bind(uid, tp))
      modifies this
      ensures Follows(old(s), s)
      ensures found.None? ==> h !in s.handlers
      ensures found.Some? ==>
        && At(ReadBack(uid, tp)) && s.handlers[h].origin == old(s.handlers[h].origin)
        && tp.internalOrderId in s.orders && found.value == s.orders[tp.internalOrderId]
        && BoundTo(found.value, uid, Google, tp.internalProductId, tp.credential, tp.orderId)
      ensures Smooth() && Bindable(old(s), uid, tp) ==>
        && found == Some(Bound(old(s).orders[tp.internalOrderId], tp.credential, tp.orderId)) && s.products == old(s).products
    {
      hide Inv, Follows, Keeps, Tracked, Framed, CanBind, Conflicts, BoundTo, Smooth;
      BindableIs(s, uid, tp);
      var ok := Attempt();
      if !ok { return None; }
      FollowsInv(old(s), s);
      ghost var s1 := s;
      var id := tp.internalOrderId;
      if tp.uid != uid || tp.credential == "" {
        Drops(s, h);
        s := Drop(s, h);
        FollowsBoth(old(s), s1, s);
        return None;
      }
      BindMoves(s, h, uid, tp);
      if id in s.orders && CanBind(s.orders[id], uid, Google, tp.internalProductId, tp.credential, tp.orderId) {
        var o := Bound(s.orders[id], tp.credential, tp.orderId);
        if Conflicts(s.orders, o) {
          Drops(s, h);
          s := Drop(s, h);
          FollowsBoth(old(s), s1, s);
          return None;
        }
        s := Go(Put(s, o), h, ReadBack(uid, tp));
      } else {
        s := Go(s, h, ReadBack(uid, tp));
      }
      FollowsBoth(old(s), s1, s);
      FollowsInv(old(s), s);

      ghost var s2 := s;
      ok := Attempt();
      FollowsBoth(old(s), s2, s);
      if !ok { return None; }
      FollowsInv(old(s), s);
      if id !in s.orders || !BoundTo(s.orders[id], uid, Google, tp.internalProductId, tp.credential, tp.orderId) {
        ghost var s3 := s;
        Drops(s, h);
        s := Drop(s, h);
        FollowsBoth(old(s), s3, s);
        return None;
      }
      found := Some(s.orders[id]);
    }

    /** Leaves the request at `pc`, the entry of a pipeline. */
    method Enter(o: Order, tp: ThirdPartyOrder, uid: nat, pc: Pc)
      requires Inv(s) && Keeps(env, h) && Reads(s, h, uid, tp, o) && NextPc(s.handlers[h].origin, o, tp) == Some(pc)
      modifies this`s
      ensures At(pc) && Follows(old(s), s) && s.handlers[h].origin == old(s.handlers[h].origin)
      ensures o.id in s.orders && o.id in s.phases && PhaseOf(o) in s.phases[o.id]
      ensures Untouched(old(s), s) && s.products == old(s).products
    {
      hide Inv, Follows, Keeps, Framed, Reads, NextPc;
      DispatchMoves(s, h, uid, tp, o);
      assert h in s.handlers by { ReadsHandler(s, h, uid, tp, o); }
      s := Go(s, h, pc);
      FollowsInv(old(s), s);
    }

    /** The request ends without writing anything. */
    method Leave()
      requires Inv(s) && h in s.handlers
      modifies this`s
      ensures Follows(old(s), s) && h !in s.handlers && s.phases == old(s.phases) && Untouched(old(s), s)
    {
      hide Inv, Follows, Framed;
      Drops(s, h);
      s := Drop(s, h);
    }

    /**
     The decision table at work. What is reported is what the table promises for the copy that was
     read, and it is part of the order's history by the time it is reported.
     */
    method ProcessOrder(uid: nat, o: Order, tp: ThirdPartyOrder) returns (r: Report)
      requires At(ReadBack(uid, tp)) && Reads(s, h, uid, tp, o)
      modifies this
      ensures Follows(old(s), s)
      ensures r.Done? ==> Outcome(Decide(o.status, o.reason, tp.status)) == Some(r.result) && Happened(s, o, r.result)
      ensures Decide(o.status, o.reason, tp.status).Nothing? ==> r.Done?
      ensures Smooth() && !Decide(o.status, o.reason, tp.status).Refuse? && o.productId in old(s).products ==> r.Done?
      ensures r == Done(Waiting) ==> s.orders == old(s).orders
      // the table, entry by entry
      ensures Smooth() && o.status == Pending && tp.status == ProviderPurchased && o.productId in old(s).products ==> Bought(s, o, tp, r)
      ensures Smooth() && o.status == Cancelled && o.reason == TimeoutReason && tp.status == ProviderPurchased && o.productId in old(s).products ==>
        Bought(s, o, tp, r)
      ensures Smooth() && o.status == Pending && tp.status == ProviderCancelled ==> r == Done(DoneCancelled) && RefundCancelled(s, o.id)
      ensures Smooth() && o.status == Purchased && tp.status == ProviderCancelled ==>
        r == Done(DoneCancelled) && RefundCancelled(s, o.id) && RevokeSafe(s, o.id)
      ensures Smooth() && o.status == Purchased && tp.status == ProviderPurchased ==>
        r == Done(DonePurchased) && s.orders == old(s).orders && (tp.consumed || tp.credential in s.consumed)
      ensures o.status == Pending && tp.status == ProviderPending ==> r == Done(Waiting) && Untouched(old(s), s)
      ensures o.status == Purchased && tp.status == ProviderPending ==> r == Done(DonePurchased) && Untouched(old(s), s)
      ensures o.status == Cancelled && (tp.status == ProviderPending || tp.status == ProviderCancelled) ==> r == Done(DoneCancelled) && Untouched(old(s), s)
      ensures o.status == Cancelled && o.reason != TimeoutReason && tp.status == ProviderPurchased ==> r == Failed && Untouched(old(s), s)
      ensures tp.status.OtherProviderStatus? || o.status.OtherStatus? ==> r == Failed && Untouched(old(s), s)
      ensures if r == Done(Waiting) && old(s.handlers[h].origin).Scan?
              then At(CloseWaiting(o, tp)) && s.handlers[h].origin == old(s.handlers[h].origin) else h !in s.handlers
    {
      hide Inv, Follows, Keeps, Framed, Reads, Tracked, Smooth;
      ghost var s0 := s;
      ReadsRow(s, h, uid, tp, o);
      DispatchMoves(s, h, uid, tp, o);
      match o.status {
        case Pending =>
          match tp.status {
            case ProviderPending =>
              if s.handlers[h].origin.Scan? { Enter(o, tp, uid, CloseWaiting(o, tp)); } else { Leave(); }
              return Done(Waiting);
            case ProviderPurchased =>
              Enter(o, tp, uid, ReadProduct(o, tp));
              ghost var s1 := s;
              r := PurchaseOrder(o, tp);
              FollowsBoth(s0, s1, s);
            case ProviderCancelled =>
              Enter(o, tp, uid, SetCancelled(o, tp));
              ghost var s1 := s;
              r := CancelOrder(o, tp);
              FollowsBoth(s0, s1, s);
            case OtherProviderStatus(_) => Leave(); r := Failed;
          }
        case Purchased =>
          match tp.status {
            case ProviderPending => Leave(); r := Done(DonePurchased);
            case ProviderPurchased =>
              Enter(o, tp, uid, Complete(o, tp));
              ghost var s1 := s;
              var ok := StepComplete(o, tp);
              FollowsBoth(s0, s1, s);
              r := if ok then Done(DonePurchased) else Failed;
            case ProviderCancelled =>
              Enter(o, tp, uid, SendRevoke(o, tp));
              ghost var s1 := s;
              r := RevokeOrder(o, tp);
              FollowsBoth(s0, s1, s);
            case OtherProviderStatus(_) => Leave(); r := Failed;
          }
        case Cancelled =>
          match tp.status {
            case ProviderPending => Leave(); r := Done(DoneCancelled);
            case ProviderPurchased =>
              if o.reason != TimeoutReason { Leave(); return Failed; }
              Enter(o, tp, uid, ReadProduct(o, tp));
              ghost var s1 := s;
              r := PurchaseOrder(o, tp);
              FollowsBoth(s0, s1, s);
            case ProviderCancelled => Leave(); r := Done(DoneCancelled);
            case OtherProviderStatus(_) => Leave(); r := Failed;
          }
        case OtherStatus(_) => Leave(); r := Failed;
      }
    }

    /** A receipt the provider has answered for: accepted only if the order was purchased or cancelled. */
    method UploadReceipt(uid: nat, tp: ThirdPartyOrder) returns (accepted: Option<Order>)
      requires At(Bind(uid, tp)) && s.handlers[h].origin.Upload?
      modifies this
      ensures Follows(old(s), s) && h !in s.handlers
      ensures accepted.Some? ==>
        && accepted.value.id == tp.internalOrderId && accepted.value.uid == uid
        && accepted.value.credentialHash == Some(Sha256(tp.credential))
        && tp.productId == accepted.value.thirdPartyProductId != "" && accepted.value.productId == tp.internalProductId
        && (tp.orderId != "" ==> accepted.value.thirdPartyOrderId == Some(tp.orderId))
        && (Happened(s, accepted.value, DonePurchased) || Happened(s, accepted.value, DoneCancelled))
      ensures Smooth() && Bindable(old(s), uid, tp) && Settled(old(s), tp) ==> accepted.Some?
      ensures Smooth() && Bindable(old(s), uid, tp) && Payable(old(s), tp) ==> Bought(s, old(s).orders[tp.internalOrderId], tp, Done(DonePurchased))
    {
      hide Inv, Follows, Keeps, Framed, Tracked, Happened, Smooth, Bindable, Settled, Decide, Outcome;
      if Bindable(s, uid, tp) && Settled(s, tp) { SettledMeans(s, uid, tp); }
      if Bindable(s, uid, tp) && Payable(s, tp) { PayableMeans(s, uid, tp); }
      var found := FindOrBind(uid, tp);
      if found.None? { return None; }
      FollowsInv(old(s), s);
      ghost var s1 := s;
      var o := found.value;
      RowKnowsItself(s, tp.internalOrderId);
      if tp.productId == "" || tp.productId != o.thirdPartyProductId {
        Leave();
        FollowsBoth(old(s), s1, s);
        return None;
      }
      var r := ProcessOrder(uid, o, tp);
      FollowsBoth(old(s), s1, s);
      if r.Failed? || r.result == Waiting { return None; }
      accepted := Some(o);
    }

    /** Closes the order if it is still Pending and old enough. */
    method MarkOrderTimeout(id: nat, expiredAt: int) returns (closed: bool)
      requires Inv(s) && Keeps(env, h) && h in s.handlers && s.handlers[h].origin.Scan? && s.handlers[h].origin.expiredAt == expiredAt
      requires || (s.handlers[h].pc.CloseUnpaid? && s.handlers[h].origin.orderId == id)
               || (s.handlers[h].pc.CloseWaiting? && s.handlers[h].pc.order.id == id)
      modifies this
      ensures Follows(old(s), s) && h !in s.handlers
      ensures closed ==> TimedOutRow(s, id)
      ensures Smooth() ==> (closed <==> id in old(s).orders && ExpiredPending(old(s).orders[id], expiredAt))
      ensures Smooth() ==> s.now == old(s).now && s.orders == if closed then old(s).orders[id := TimedOut(old(s).orders[id], old(s).now)] else old(s).orders
    {
      hide Inv, Follows, Keeps, Framed, Smooth;
      var ok := Attempt();
      if !ok { return false; }
      FollowsInv(old(s), s);
      ghost var s1 := s;
      CloseMoves(s, h, expiredAt, id);
      closed := id in s.orders && ExpiredPending(s.orders[id], expiredAt);
      if closed { s := Drop(Put(s, TimedOut(s.orders[id], s.now)), h); } else { s := Drop(s, h); }
      FollowsBoth(old(s), s1, s);
      ok := Confirm();
      closed := closed && ok;
    }

    /** One order of the timeout scan; `tp` is what the provider says if it is asked. */
    method ProcessExpiredOrder(orderId: nat, expiredAt: int, tp: ThirdPartyOrder) returns (closed: Option<nat>)
      requires At(Start) && s.handlers[h].origin == Scan(orderId, expiredAt)
      modifies this
      ensures Follows(old(s), s) && h !in s.handlers
      ensures closed.Some? ==> TimedOutRow(s, closed.value) && (closed.value == orderId || closed.value == tp.internalOrderId)
      ensures Smooth() && SightedBy(Scan(orderId, expiredAt), old(s), orderId) ==>
        && closed == Some(orderId) && s.now == old(s).now
        && orderId in old(s).orders && s.orders == old(s).orders[orderId := TimedOut(old(s).orders[orderId], old(s).now)]
      ensures Smooth() && AsksAbout(old(s), orderId, expiredAt, tp) ==> closed == Some(tp.internalOrderId)
    {
      hide Inv, Follows, Keeps, Framed, Tracked, TimedOutRow, Happened, Decide, Outcome, Quiet, Smooth, Bindable, StillWaiting;
      AskStays(s, h);
      var ok := Attempt();
      if !ok { return None; }
      FollowsInv(old(s), s);
      ghost var s1 := s;
      ScanMoves(s, h, orderId, expiredAt);
      if orderId !in s.orders || !ExpiredPending(s.orders[orderId], expiredAt) {
        s := Drop(s, h);
        FollowsBoth(old(s), s1, s);
        return None;
      }
      var current := s.orders[orderId];
      if current.credential == None || current.credential == Some("") {
        s := Go(s, h, CloseUnpaid).(sightings := s.sightings + {orderId});
        FollowsBoth(old(s), s1, s);
        FollowsInv(old(s), s);
        ghost var s2 := s;
        ok := MarkOrderTimeout(orderId, expiredAt);
        FollowsBoth(old(s), s2, s);
        return if ok then Some(orderId) else None;
      }
      if current.paymentType != Google {
        s := Drop(s, h);
        FollowsBoth(old(s), s1, s);
        return None;
      }
      s := Go(s, h, Ask(Some(current.uid), current.credential.value));
      FollowsBoth(old(s), s1, s);
      FollowsInv(old(s), s);
      ghost var s3 := s;
      ok := ProcessExpiredCredential(current.uid, current.credential.value, expiredAt, tp);
      FollowsBoth(old(s), s3, s);
      closed := if ok then Some(tp.internalOrderId) else None;
    }

    method ProcessExpiredCredential(uid: nat, credential: string, expiredAt: int, tp: ThirdPartyOrder) returns (closed: bool)
      requires At(Ask(Some(uid), credential)) && s.handlers[h].origin.Scan? && s.handlers[h].origin.expiredAt == expiredAt
      modifies this
      ensures Follows(old(s), s) && h !in s.handlers
      ensures closed ==> TimedOutRow(s, tp.internalOrderId)
      ensures Smooth() && tp.credential == credential && Bindable(old(s), uid, tp) && StillWaiting(old(s), expiredAt, tp) ==> closed
    {
      hide Inv, Follows, Keeps, Framed, Tracked, TimedOutRow, Happened, Outcome, Quiet, Smooth, Bindable, Decide, Bound;
      if Bindable(s, uid, tp) && StillWaiting(s, expiredAt, tp) { WaitingMeans(s, uid, expiredAt, tp); }
      BindableStays(s, h, uid, tp);
      var ok := Attempt();
      if !ok { return false; }
      FollowsInv(old(s), s);
      ghost var s1 := s;
      if tp.credential != credential {
        Leave();
        FollowsBoth(old(s), s1, s);
        return false;
      }
      AnswerMoves(s, h, tp);
      s := Go(s, h, Bind(uid, tp)).(answers := s.answers + {tp});
      FollowsBoth(old(s), s1, s);
      FollowsInv(old(s), s);
      ghost var s2 := s;
      var found := FindOrBind(uid, tp);
      FollowsBoth(old(s), s2, s);
      if found.None? { return false; }
      FollowsInv(old(s), s);
      ghost var s3 := s;
      var o := found.value;
      RowKnowsItself(s, tp.internalOrderId);
      if tp.productId == "" || tp.productId != o.thirdPartyProductId {
        Leave();
        FollowsBoth(old(s), s3, s);
        return false;
      }
      var r := ProcessOrder(uid, o, tp);
      FollowsBoth(old(s), s3, s);
      if r != Done(Waiting) { return false; }
      ghost var s4 := s;
      closed := MarkOrderTimeout(o.id, expiredAt);
      FollowsBoth(old(s), s4, s);
    }

    /** A provider notice whose query was answered; handled only if the order was purchased or cancelled. */
    method ProcessNotice(credential: string, tp: ThirdPartyOrder) returns (handled: Option<Order>)
      requires At(Ask(None, credential)) && s.handlers[h].origin == Notice(credential) && tp.credential == credential
      modifies this
      ensures Follows(old(s), s) && h !in s.handlers
      ensures handled.Some? ==>
        && handled.value.id == tp.internalOrderId && handled.value.uid == tp.uid && handled.value.credentialHash == Some(Sha256(credential))
        && tp.productId == handled.value.thirdPartyProductId && handled.value.productId == tp.internalProductId
        && (Happened(s, handled.value, DonePurchased) || Happened(s, handled.value, DoneCancelled))
      ensures Smooth() && Bindable(old(s), tp.uid, tp) && Settled(old(s), tp) ==> handled.Some?
    {
      hide Inv, Follows, Keeps, Framed, Tracked, Happened, Quiet, Smooth, Settled, Decide, Outcome, Bindable, Bound;
      if Bindable(s, tp.uid, tp) && Settled(s, tp) { SettledMeans(s, tp.uid, tp); }
      BindableStays(s, h, tp.uid, tp);
      var ok := Attempt();
      if !ok { return None; }
      FollowsInv(old(s), s);
      ghost var s1 := s;
      AnswerMoves(s, h, tp);
      s := Go(s, h, Bind(tp.uid, tp)).(answers := s.answers + {tp});
      FollowsBoth(old(s), s1, s);
      FollowsInv(old(s), s);
      ghost var s2 := s;
      var found := FindOrBind(tp.uid, tp);
      FollowsBoth(old(s), s2, s);
      if found.None? { return None; }
      FollowsInv(old(s), s);
      ghost var s3 := s;
      var o := found.value;
      RowKnowsItself(s, tp.internalOrderId);
      if tp.productId != o.thirdPartyProductId {
        Leave();
        FollowsBoth(old(s), s3, s);
        return None;
      }
      var r := ProcessOrder(tp.uid, o, tp);
      FollowsBoth(old(s), s3, s);
      handled := if r.Done? && r.result != Waiting then Some(o) else None;
    }

    /** An order for the product: a Pending one that exists, or a new one. */
    method CreateOrder(uid: nat, paymentType: PaymentType, productId: int) returns (id: Option<nat>)
      requires At(Start) && s.handlers[h].origin == Creation(uid, paymentType, productId)
      modifies this
      ensures Follows(old(s), s) && h !in s.handlers
      ensures id.Some? ==> id.value in s.orders && IsOpenFor(s.orders[id.value], uid, paymentType, productId)
      ensures Smooth() && OnSale(old(s), paymentType, productId) ==> id.Some?
      ensures Smooth() && OnSale(old(s), paymentType, productId) && (forall k :: k in old(s).orders ==> !IsOpenFor(old(s).orders[k], uid, paymentType, productId)) ==>
        && s.orders[id.value].createAt == old(s).now
        && s.orders[id.value].thirdPartyProductId == old(s).products[productId].thirdPartyIds[paymentType]
        && Unmarshal(s.orders[id.value].rewards) == Listed(old(s).products[productId])
        && s.orders[id.value].credential == None && s.orders[id.value].credentialHash == None && s.orders[id.value].thirdPartyOrderId == None
    {
      hide Inv, Follows, Keeps, Framed, Tracked, RowsKept, OthersSame, Smooth;
      Yield();
      FollowsInv(old(s), s);
      ghost var s1 := s;
      CreationMoves(s, h, uid, paymentType, productId);
      if !OnSale(s, paymentType, productId) {
        s := Drop(s, h);
        FollowsBoth(old(s), s1, s);
        return None;
      }
      var product := s.products[productId];
      var rewards := if product.rewards.None? then NoSnapshot else Marshal(product.rewards);
      var p := CreateParams(uid, productId, product.thirdPartyIds[paymentType], paymentType, rewards);
      s := Go(s, h, LookForPending(p));
      FollowsBoth(old(s), s1, s);
      FollowsInv(old(s), s);
      ghost var s2 := s;
      id := FindOrCreateOrder(p);
      FollowsBoth(old(s), s2, s);
    }

    method FindOrCreateOrder(p: CreateParams) returns (id: Option<nat>)
      requires At(LookForPending(p))
      modifies this
      ensures Follows(old(s), s) && h !in s.handlers
      ensures id.Some? ==> id.value in s.orders && IsOpenFor(s.orders[id.value], p.uid, p.paymentType, p.productId)
      ensures Smooth() ==> id.Some?
      ensures Smooth() && (forall k :: k in old(s).orders ==> !IsOpenFor(old(s).orders[k], p.uid, p.paymentType, p.productId)) ==>
        JustCreated(s.orders[id.value], id.value, p, old(s).now)
      ensures Smooth() && (exists k :: k in old(s).orders && PendingFor(old(s).orders[k], p)) ==>
        s.orders == old(s).orders && forall k :: k in s.orders && PendingFor(s.orders[k], p) ==> k <= id.value
    {
      hide Inv, Follows, Keeps, Framed, Tracked, RowsKept, OthersSame, Smooth;
      var ok := Attempt();
      if !ok { return None; }
      FollowsInv(old(s), s);
      ghost var s1 := s;
      LookMoves(s, h, p);
      var table := TableOf(s);
      var found := table.FindPendingOrder(p.uid, p.paymentType, p.productId);
      if found.Some? {
        s := Drop(s, h);
        FollowsBoth(old(s), s1, s);
        return Some(found.value.id);
      }
      s := Go(s, h, InsertOrder(p));
      FollowsBoth(old(s), s1, s);
      FollowsInv(old(s), s);

      ghost var s2 := s;
      ok := Attempt();
      FollowsBoth(old(s), s2, s);
      if !ok { return None; }
      FollowsInv(old(s), s);
      ghost var s3 := s;
      InsertMoves(s, h, p);
      id := Some(s.nextOrderId);
      InsertCreates(s, h, p);
      s := InsertStep(s, h, p);
      FollowsBoth(old(s), s3, s);
    }
  }

  // ----- the timeout scan

  /** A handler number that is not in use. */
  method FreshHandler(s: State) returns (h: nat)
    ensures h !in s.handlers
  {
    h := 0;
    var rest := s.handlers.Keys;
    while rest != {}
      invariant rest <= s.handlers.Keys && forall k :: k in s.handlers && k !in rest ==> k < h
      decreases rest
    {
      var k :| k in rest;
      rest := rest - {k};
      if k >= h { h := k + 1; }
    }
  }

  /** The state in which a scan of `orderId` has just begun as handler `h`. */
  function ScanBegun(s: State, h: nat, orderId: nat, expiredAt: int): State {
    s.(handlers := s.handlers[h := Handler(Scan(orderId, expiredAt), Start)])
  }

  lemma BeginMoves(s: State, h: nat, orderId: nat, expiredAt: int)
    requires Inv(s) && h !in s.handlers && expiredAt <= s.now - TIMEOUT_SECONDS
    ensures Follows(s, ScanBegun(s, h, orderId, expiredAt))
  {
    InvParts(s);
    var s' := ScanBegun(s, h, orderId, expiredAt);
    assert Next(s, Begin(h, Scan(orderId, expiredAt)), s') by { hide Inv, Advance, Tracked; }
    hide *;
    ReachSelf(s);
    ReachNext(s, s, Begin(h, Scan(orderId, expiredAt)), s');
    NextInv(s, Begin(h, Scan(orderId, expiredAt)), s');
    FollowsIs(s, s');
  }

  lemma TimedOutIsHistory(s: State, o: nat)
    requires Inv(s) && TimedOutRow(s, o)
    ensures WasTimedOut(s, o)
  {
    LastPhase(s, o);
  }

  lemma WasTimedOutStays(s: State, s': State, o: nat)
    requires Grows(s, s') && WasTimedOut(s, o)
    ensures WasTimedOut(s', o)
  {
    assert o in s.orders && OrderGrows(s, s', o);
  }

  /** The order's history holds a timeout. */
  predicate WasTimedOut(s: State, o: nat) { o in s.orders && o in s.phases && TimeoutPhase in s.phases[o] }

  /** What is beyond the scan's control: the others' moves during each order, faults, answers, taken locks, a lost lease. */
  datatype World = World(
    envs: nat -> ((nat, State) -> State),
    fails: (nat, nat) -> bool,
    answers: nat -> ThirdPartyOrder,
    locked: nat -> bool,
    interrupted: nat -> bool)

  ghost predicate Fair(w: World) { forall h: nat :: Keeps(w.envs(h), h) }

  /** No faults, no interference, all locks free. */
  ghost predicate Calm(w: World) {
    && (forall h: nat, n: nat, s: State :: w.envs(h)(n, s) == s) && (forall i, n :: !w.fails(i, n))
    && (forall i :: !w.locked(i) && !w.interrupted(i))
  }

  const BATCH := 100

  /** The orders the scan will look at: the first hundred Pending ones that are old enough. */
  ghost predicate IsBatch(s: State, expiredAt: int, ids: seq<nat>) {
    && |ids| <= 100 && (forall i, j :: 0 <= i < j < |ids| ==> ids[i] < ids[j])
    && (forall i :: 0 <= i < |ids| ==> ids[i] in s.orders && s.orders[ids[i]].status == Pending && s.orders[ids[i]].createAt <= expiredAt)
    && (forall id | id in s.orders && s.orders[id].status == Pending && s.orders[id].createAt <= expiredAt ::
          |ids| < 100 || id < ids[|ids| - 1] ==> id in ids)
  }

  lemma BatchFound(s: State, expiredAt: int, found: seq<Order>, ids: seq<nat>)
    requires |ids| == |found| <= BATCH && forall i :: 0 <= i < |found| ==> ids[i] == found[i].id
    requires forall i :: 0 <= i < |found| ==> found[i].id in s.orders && s.orders[found[i].id] == found[i] && ExpiredPending(found[i], expiredAt)
    requires forall i, j :: 0 <= i < j < |found| ==> found[i].id < found[j].id
    requires forall id :: id in s.orders && ExpiredPending(s.orders[id], expiredAt) && (|found| < BATCH || (found != [] && id < found[|found| - 1].id))
                          ==> s.orders[id] in found
    requires forall id :: id in s.orders ==> s.orders[id].id == id
    ensures IsBatch(s, expiredAt, ids)
  {
    forall id | id in s.orders && ExpiredPending(s.orders[id], expiredAt) && (|ids| < BATCH || id < ids[|ids| - 1]) ensures id in ids {
      var i :| 0 <= i < |found| && found[i] == s.orders[id];
      assert ids[i] == id;
    }
  }

  lemma SightedStays(s: State, s': State, expiredAt: int, o: nat, x: nat, row: Order)
    requires SightedBy(Scan(o, expiredAt), s, o) && s'.orders == s.orders[x := row] && x != o
    ensures SightedBy(Scan(o, expiredAt), s', o)
  {
  }

  lemma FairMeans(w: World, h: nat)
    requires Fair(w)
    ensures Keeps(w.envs(h), h)
  {
  }

  lemma CalmRequest(w: World, request: Request, i: nat)
    requires request.env == w.envs(request.h) && forall n :: request.fails(n) == w.fails(i, n)
    ensures Calm(w) ==> request.Smooth()
  {
  }

  /** One order of the batch, as a request of its own. */
  method ScanOne(s: State, orderId: nat, expiredAt: int, w: World, i: nat) returns (s': State, closed: Option<nat>)
    requires Inv(s) && Fair(w) && expiredAt <= s.now - TIMEOUT_SECONDS
    ensures Follows(s, s') && (closed.Some? ==> TimedOutRow(s', closed.value))
    ensures Calm(w) && SightedBy(Scan(orderId, expiredAt), s, orderId) ==>
      && closed == Some(orderId) && orderId in s.orders
      && s'.orders == s.orders[orderId := TimedOut(s.orders[orderId], s.now)]
  {
    hide Inv, Follows, Calm, Fair, Keeps, TimedOutRow, Tracked;
    var h := FreshHandler(s);
    BeginMoves(s, h, orderId, expiredAt);
    var begun := ScanBegun(s, h, orderId, expiredAt);
    var request := new Request(begun, h, w.envs(h), (n: nat) => w.fails(i, n));
    FairMeans(w, h);
    CalmRequest(w, request, i);
    FollowsInv(s, begun);
    assert SightedBy(Scan(orderId, expiredAt), s, orderId) ==> SightedBy(Scan(orderId, expiredAt), begun, orderId);
    hide SightedBy;
    closed := request.ProcessExpiredOrder(orderId, expiredAt, w.answers(i));
    s' := request.s;
    FollowsBoth(s, begun, s');
  }

  /** No order from the `i`th on has a credential: the scan will close it without asking anybody. */
  ghost predicate Unpaid(s: State, expiredAt: int, ids: seq<nat>, i: nat) {
    forall k :: i <= k < |ids| ==> SightedBy(Scan(ids[k], expiredAt), s, ids[k])
  }

  lemma UnpaidStays(s: State, s': State, expiredAt: int, ids: seq<nat>, i: nat, row: Order)
    requires i < |ids| && (forall k, l :: 0 <= k < l < |ids| ==> ids[k] < ids[l])
    requires Unpaid(s, expiredAt, ids, i) && s'.orders == s.orders[ids[i] := row]
    ensures Unpaid(s', expiredAt, ids, i + 1)
  {
    hide SightedBy;
    forall k | i + 1 <= k < |ids| ensures SightedBy(Scan(ids[k], expiredAt), s', ids[k]) {
      SightedStays(s, s', expiredAt, ids[k], ids[i], row);
    }
  }

  ghost predicate AllTimedOut(s: State, closed: seq<nat>) { forall k :: 0 <= k < |closed| ==> WasTimedOut(s, closed[k]) }

  lemma AllTimedOutStays(s: State, s': State, closed: seq<nat>, done: Option<nat>)
    requires Follows(s, s') && AllTimedOut(s, closed) && (done.Some? ==> TimedOutRow(s', done.value))
    ensures AllTimedOut(s', if done.Some? then closed + [done.value] else closed)
  {
    hide Inv, Grows, WasTimedOut, TimedOutRow, Reach;
    forall k | 0 <= k < |closed| ensures WasTimedOut(s', closed[k]) { WasTimedOutStays(s, s', closed[k]); }
    if done.Some? { TimedOutIsHistory(s', done.value); }
  }

  /** The loop over a batch; a lost lease or a cancelled context ends it early. */
  method ScanBatch(s0: State, ids: seq<nat>, expiredAt: int, w: World) returns (s: State, closed: seq<nat>, ok: bool)
    requires Inv(s0) && Fair(w) && expiredAt <= s0.now - TIMEOUT_SECONDS && forall k, l :: 0 <= k < l < |ids| ==> ids[k] < ids[l]
    ensures Follows(s0, s) && AllTimedOut(s, closed)
    ensures Calm(w) && Unpaid(s0, expiredAt, ids, 0) ==> ok && closed == ids
  {
    hide *;
    s, closed := s0, [];
    FollowsSelf(s);
    NoneTimedOut(s);
    CalmMeans(w);
    ghost var quiet := Calm(w) && Unpaid(s0, expiredAt, ids, 0);
    var i := 0;
    while i < |ids|
      invariant 0 <= i <= |ids| && Follows(s0, s) && AllTimedOut(s, closed)
      invariant quiet ==> closed == ids[..i] && Unpaid(s, expiredAt, ids, i)
    {
      if w.interrupted(i) { return s, closed, false; }
      if !w.locked(i) {
        ghost var before := s;
        FollowsInv(s0, s);
        ClockFollows(s0, s);
        if quiet { UnpaidHere(s, expiredAt, ids, i); }
        var done;
        s, done := ScanOne(s, ids[i], expiredAt, w, i);
        FollowsBoth(s0, before, s);
        AllTimedOutStays(before, s, closed, done);
        if quiet { UnpaidStays(before, s, expiredAt, ids, i, TimedOut(before.orders[ids[i]], before.now)); }
        closed := if done.Some? then closed + [done.value] else closed;
      }
      i := i + 1;
    }
    assert ids[..i] == ids;
    ok := true;
  }

  lemma NoneTimedOut(s: State)
    ensures AllTimedOut(s, [])
  {
  }

  lemma CalmMeans(w: World)
    ensures Calm(w) ==> forall i :: !w.locked(i) && !w.interrupted(i)
  {
  }

  lemma UnpaidHere(s: State, expiredAt: int, ids: seq<nat>, i: nat)
    requires i < |ids| && Unpaid(s, expiredAt, ids, i)
    ensures SightedBy(Scan(ids[i], expiredAt), s, ids[i]) && ids[i] in s.orders
  {
  }

  lemma ClockFollows(s: State, s': State)
    requires Follows(s, s')
    ensures s.now <= s'.now
  {
  }

  /**
   The timeout scan. Whatever interferes, all of it is a stretch of a run of the protocol, and what is
   reported closed was cancelled by timeout. When nothing fails or interferes and no order of the
   batch has a credential, exactly the batch is closed, in order.
   */
  method CheckExpiredPendingOrders(s0: State, expiredAt: int, w: World) returns (s: State, batch: seq<nat>, closed: seq<nat>, ok: bool)
    requires Inv(s0) && Fair(w) && expiredAt <= s0.now - TIMEOUT_SECONDS
    ensures Follows(s0, s) && IsBatch(s0, expiredAt, batch) && AllTimedOut(s, closed)
    ensures Calm(w) && Unpaid(s0, expiredAt, batch, 0) ==> ok && closed == batch
  {
    hide Inv, Follows, Calm, Fair, Unpaid, AllTimedOut;
    var table := TableOf(s0);
    var found := table.FindExpiredPendingOrders(expiredAt, BATCH);
    batch := seq(|found|, i requires 0 <= i < |found| => found[i].id);
    BatchFound(s0, expiredAt, found, batch);
    s, closed, ok := ScanBatch(s0, batch, expiredAt, w);
  }
}
