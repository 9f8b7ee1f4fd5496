/** Nothing happens to an order without the provider having said so, for that very order. */
module ProtocolPaid {
  import opened Common
  import opened Orders
  import opened Protocol
  import opened ProtocolInvariants
  import opened ProtocolSteps
  import opened ProtocolTheorems

  /** The answer names the order, its user and its product, and is for the credential the order is bound to. */
  predicate About(tp: ThirdPartyOrder, o: Order) {
    && tp.internalOrderId == o.id && tp.uid == o.uid && tp.internalProductId == o.productId && o.paymentType == Google
    && tp.credential != "" && o.credentialHash == Some(Sha256(tp.credential))
  }

  ghost predicate Bound(s: State, o: nat)
    requires o in s.orders
  {
    exists tp :: tp in s.answers && About(tp, s.orders[o])
  }

  /** The provider has answered with that status, for the order and for the product that was ordered there. */
  ghost predicate Said(s: State, o: nat, status: ProviderStatus)
    requires o in s.orders
  {
    exists tp :: tp in s.answers && tp.status == status && About(tp, s.orders[o]) && tp.productId == s.orders[o].thirdPartyProductId
  }

  predicate Backed(s: State, o: Order, tp: ThirdPartyOrder, status: ProviderStatus) {
    && o.id in s.orders && tp in s.answers && tp.status == status
    && About(tp, s.orders[o.id]) && tp.productId == s.orders[o.id].thirdPartyProductId
  }

  predicate PcBacked(s: State, pc: Pc) {
    match pc
    case ReadBack(uid, tp) => tp.uid == uid && tp in s.answers && tp.credential != ""
    case ReadProduct(o, tp) => Backed(s, o, tp, ProviderPurchased)
    case SaveRewards(o, tp, _) => Backed(s, o, tp, ProviderPurchased)
    case SendGrant(o, tp, _) => Backed(s, o, tp, ProviderPurchased)
    case SetPurchased(o, tp) => Backed(s, o, tp, ProviderPurchased)
    case SetCancelled(o, tp) => Backed(s, o, tp, ProviderCancelled)
    case SendRevoke(o, tp) => Backed(s, o, tp, ProviderCancelled)
    case SetRefunded(o, tp) => Backed(s, o, tp, ProviderCancelled)
    case _ => true
  }

  ghost predicate OrderBacked(s: State, o: nat)
    requires o in s.orders && o in s.phases
  {
    && (s.orders[o].credentialHash.Some? ==> Bound(s, o))
    && (PurchasedPhase in s.phases[o] ==> Said(s, o, ProviderPurchased))
    && (RefundedPhase in s.phases[o] ==> Said(s, o, ProviderCancelled))
  }

  ghost predicate AllBacked(s: State)
    requires s.phases.Keys == s.orders.Keys
  {
    && (forall o :: o in s.orders ==> OrderBacked(s, o))
    && (forall h :: h in s.handlers ==> PcBacked(s, s.handlers[h].pc))
    && (forall t :: t in s.sent ==> TaskBacked(s, t))
  }

  ghost predicate TaskBacked(s: State, t: Task) {
    t.orderId in s.orders && Said(s, t.orderId, if t.GrantTask? then ProviderPurchased else ProviderCancelled)
  }

  /** New tasks are backed. */
  ghost predicate Sends(s: State, s': State) { forall t :: t in s'.sent ==> t in s.sent || TaskBacked(s', t) }

  lemma TasksStay(s: State, s': State)
    requires Grows(s, s') && Sends(s, s') && forall t :: t in s.sent ==> TaskBacked(s, t)
    ensures forall t :: t in s'.sent ==> TaskBacked(s', t)
  {
    hide Grows, Said;
    forall t | t in s'.sent ensures TaskBacked(s', t) {
      if t in s.sent { SaidStays(s, s', t.orderId, if t.GrantTask? then ProviderPurchased else ProviderCancelled); }
    }
  }

  // ----- what was said stays said

  lemma AboutStays(a: Order, b: Order, tp: ThirdPartyOrder)
    requires RowGrows(a, b) && About(tp, a)
    ensures About(tp, b) && a.thirdPartyProductId == b.thirdPartyProductId
  {
  }

  lemma PcStays(s: State, s': State, pc: Pc)
    requires Grows(s, s') && PcBacked(s, pc)
    ensures PcBacked(s', pc)
  {
    if pc.ReadProduct? || pc.SaveRewards? || pc.SendGrant? || pc.SetPurchased? || pc.SetCancelled? || pc.SendRevoke? || pc.SetRefunded? {
      assert OrderGrows(s, s', pc.order.id);
      AboutStays(s.orders[pc.order.id], s'.orders[pc.order.id], pc.tp);
    }
  }

  lemma SaidStays(s: State, s': State, o: nat, status: ProviderStatus)
    requires Grows(s, s') && o in s.orders && Said(s, o, status)
    ensures o in s'.orders && Said(s', o, status)
  {
    assert OrderGrows(s, s', o);
    var tp :| tp in s.answers && tp.status == status && About(tp, s.orders[o]) && tp.productId == s.orders[o].thirdPartyProductId;
    AboutStays(s.orders[o], s'.orders[o], tp);
  }

  lemma BoundStays(s: State, s': State, o: nat)
    requires Grows(s, s') && o in s.orders && Bound(s, o)
    ensures o in s'.orders && Bound(s', o)
  {
    assert OrderGrows(s, s', o);
    var tp :| tp in s.answers && About(tp, s.orders[o]);
    AboutStays(s.orders[o], s'.orders[o], tp);
  }

  // ----- one step

  /** What a step may add to an order: a first hash, or one phase. */
  ghost predicate Adds(s: State, s': State, o: nat, hash: bool, phase: Option<Phase>)
    requires o in s.orders && o in s.phases && o in s'.orders && o in s'.phases
  {
    && (!hash ==> s'.orders[o].credentialHash == s.orders[o].credentialHash)
    && forall p :: p in s'.phases[o] ==> p in s.phases[o] || phase == Some(p)
  }

  lemma OrderStays(s: State, s': State, o: nat, hash: bool, phase: Option<Phase>)
    requires Tracked(s) && Tracked(s') && Grows(s, s') && o in s.orders && OrderBacked(s, o)
    requires o in s'.orders && Adds(s, s', o, hash, phase)
    requires hash ==> Bound(s', o)
    requires phase == Some(PurchasedPhase) ==> Said(s', o, ProviderPurchased)
    requires phase == Some(RefundedPhase) ==> Said(s', o, ProviderCancelled)
    ensures OrderBacked(s', o)
  {
    hide Grows, Said, Bound;
    if s.orders[o].credentialHash.Some? { BoundStays(s, s', o); }
    if PurchasedPhase in s.phases[o] { SaidStays(s, s', o, ProviderPurchased); }
    if RefundedPhase in s.phases[o] { SaidStays(s, s', o, ProviderCancelled); }
  }

  /** A step on behalf of handler `h` that may touch only the order `id`. */
  lemma StepBacked(s: State, h: nat, s': State, id: nat, hash: bool, phase: Option<Phase>)
    requires Tracked(s) && Tracked(s') && Grows(s, s') && AllBacked(s)
    requires s'.orders.Keys == s.orders.Keys && OthersSame(s, h, s') && Sends(s, s')
    requires h in s'.handlers ==> PcBacked(s', s'.handlers[h].pc)
    requires forall o :: o in s.orders ==> Adds(s, s', o, hash && o == id, if o == id then phase else None)
    requires id in s.orders && hash ==> Bound(s', id)
    requires id in s.orders && phase == Some(PurchasedPhase) ==> Said(s', id, ProviderPurchased)
    requires id in s.orders && phase == Some(RefundedPhase) ==> Said(s', id, ProviderCancelled)
    ensures AllBacked(s')
  {
    hide Grows, Said, Bound, Adds, OrderBacked, PcBacked, Tracked, Sends, TaskBacked;
    TasksStay(s, s');
    assert s.phases.Keys == s.orders.Keys && s'.phases.Keys == s'.orders.Keys by { TrackedKeys(s); TrackedKeys(s'); }
    forall o | o in s'.orders ensures OrderBacked(s', o) {
      OrderStays(s, s', o, hash && o == id, if o == id then phase else None);
    }
    forall k | k in s'.handlers ensures PcBacked(s', s'.handlers[k].pc) {
      if k != h { PcStays(s, s', s.handlers[k].pc); }
    }
  }

  lemma TrackedKeys(s: State)
    requires Tracked(s)
    ensures s.phases.Keys == s.orders.Keys
  {
  }

  /** The state after a handler's step, with what the invariant says about it. */
  lemma Stepped(s: State, h: nat)
    requires Inv(s) && h in s.handlers && !s.handlers[h].pc.Ask?
    ensures Tracked(s) && Tracked(Advance(s, h)) && Grows(s, Advance(s, h)) && s.phases.Keys == s.orders.Keys
  {
    hide *;
    InvParts(s);
    MoveInv(s, h);
    InvParts(Advance(s, h));
    TrackedKeys(s);
  }

  /** The step leaves orders and histories alone and the handler backed. */
  ghost predicate Passes(s: State, h: nat, s': State) {
    && s'.orders == s.orders && s'.phases == s.phases && Sends(s, s')
    && OthersSame(s, h, s') && (h in s'.handlers ==> PcBacked(s', s'.handlers[h].pc))
  }

  lemma IdleBacked(s: State, h: nat, s': State)
    requires Tracked(s) && Tracked(s') && Grows(s, s') && AllBacked(s)
    requires Passes(s, h, s')
    ensures AllBacked(s')
  {
    hide Grows, PcBacked, AllBacked, Tracked, Sends;
    TrackedKeys(s);
    TrackedKeys(s');
    StepBacked(s, h, s', 0, false, None);
  }

  lemma PutAdds(s: State, row: Order, o: nat)
    requires Tracked(s) && row.id in s.orders && o in s.orders && o in Put(s, row).orders && o in Put(s, row).phases
    ensures Adds(s, Put(s, row), o, o == row.id && row.credentialHash != s.orders[row.id].credentialHash, if o == row.id then Some(PhaseOf(row)) else None)
  {
    hide Framed, PhaseOf;
  }

  /** A row is rewritten and the handler ends or moves on. */
  lemma PutBacked(s: State, h: nat, row: Order, s': State)
    requires Tracked(s) && Tracked(s') && Grows(s, s') && AllBacked(s) && row.id in s.orders
    requires s'.orders == Put(s, row).orders && s'.phases == Put(s, row).phases && OthersSame(s, h, s') && Sends(s, s')
    requires h in s'.handlers ==> PcBacked(s', s'.handlers[h].pc)
    requires row.credentialHash != s.orders[row.id].credentialHash ==> Bound(s', row.id)
    requires PhaseOf(row) == PurchasedPhase ==> Said(s', row.id, ProviderPurchased)
    requires PhaseOf(row) == RefundedPhase ==> Said(s', row.id, ProviderCancelled)
    ensures AllBacked(s')
  {
    TrackedKeys(s);
    TrackedKeys(s');
    hide Grows, PcBacked, AllBacked, Tracked, Sends, Said, Bound, Put, PhaseOf, Adds;
    var hash := row.credentialHash != s.orders[row.id].credentialHash;
    forall o | o in s.orders ensures Adds(s, s', o, hash && o == row.id, if o == row.id then Some(PhaseOf(row)) else None) {
      PutAdds(s, row, o);
      AddsSame(s, Put(s, row), s', o, hash && o == row.id, if o == row.id then Some(PhaseOf(row)) else None);
    }
    StepBacked(s, h, s', row.id, hash, Some(PhaseOf(row)));
  }

  lemma AddsSame(s: State, m: State, s': State, o: nat, hash: bool, phase: Option<Phase>)
    requires s'.orders == m.orders && s'.phases == m.phases
    requires o in s.orders && o in s.phases && o in m.orders && o in m.phases && Adds(s, m, o, hash, phase)
    ensures Adds(s, s', o, hash, phase)
  {
  }

  /** What the present phase of a backed order says was said. */
  lemma PhaseSaid(s: State, o: nat)
    requires Inv(s) && o in s.orders && s.phases.Keys == s.orders.Keys && AllBacked(s)
    ensures PhaseOf(s.orders[o]) == PurchasedPhase ==> Said(s, o, ProviderPurchased)
    ensures PhaseOf(s.orders[o]) == RefundedPhase ==> Said(s, o, ProviderCancelled)
  {
    hide TasksOk, HandlersOk, LedgerOk, ConsumedOk, UniqueIndexes, Items.Valid, Said, Bound, PcBacked;
    assert OrderOk(s, o) && OrderBacked(s, o);
    var ps := s.phases[o];
    assert ps[|ps| - 1] in ps;
  }

  lemma BackedSaid(s: State, o: Order, tp: ThirdPartyOrder, status: ProviderStatus)
    requires Backed(s, o, tp, status)
    ensures o.id in s.orders && Said(s, o.id, status) && Bound(s, o.id)
  {
  }

  lemma SaidHere(s: State, s': State, o: nat, status: ProviderStatus)
    requires s'.orders == s.orders && s'.answers == s.answers && o in s.orders && Said(s, o, status)
    ensures Said(s', o, status)
  {
  }

  // ----- step by step

  lemma BindBacked(s: State, h: nat, uid: nat, tp: ThirdPartyOrder)
    requires Inv(s) && h in s.handlers && s.handlers[h].pc == Bind(uid, tp) && s.phases.Keys == s.orders.Keys && AllBacked(s)
    ensures Tracked(s) && Tracked(Advance(s, h)) && AllBacked(Advance(s, h))
  {
    hide *;
    Stepped(s, h);
    AdvanceIs(s, h);
    AnswerKnown(s, h, uid, tp);
    BindWrites(s, h, uid, tp);
    var s' := Advance(s, h);
    if Passes(s, h, s') { IdleBacked(s, h, s'); } else { WrittenBacked(s, h, s', tp); }
  }

  lemma WrittenBacked(s: State, h: nat, s': State, tp: ThirdPartyOrder)
    requires Inv(s) && Tracked(s) && Tracked(s') && Grows(s, s') && s.phases.Keys == s.orders.Keys && AllBacked(s) && Writes(s, h, s', tp)
    ensures AllBacked(s')
  {
    hide Inv, Tracked, Grows, AllBacked, Said, Bound, PcBacked, Sends, Put, PhaseOf, Orders.Bound;
    var id := tp.internalOrderId;
    PhaseSaid(s, id);
    if PhaseOf(s.orders[id]) == PurchasedPhase { SaidStays(s, s', id, ProviderPurchased); }
    if PhaseOf(s.orders[id]) == RefundedPhase { SaidStays(s, s', id, ProviderCancelled); }
    PutBacked(s, h, Orders.Bound(s.orders[id], tp.credential, tp.orderId), s');
  }

  /** The bind step: a row that changes is one the answer is about. */
  ghost predicate Writes(s: State, h: nat, s': State, tp: ThirdPartyOrder) {
    var id := tp.internalOrderId;
    && id in s.orders && id in s.phases && s.phases[id] != [] && Sends(s, s') && OthersSame(s, h, s') && (h in s'.handlers ==> PcBacked(s', s'.handlers[h].pc))
    && var row := Orders.Bound(s.orders[id], tp.credential, tp.orderId);
       && row.id == id && PhaseOf(row) == PhaseOf(s.orders[id]) && id in s'.orders
       && s'.orders == Put(s, row).orders && s'.phases == Put(s, row).phases && Bound(s', id)
  }

  lemma BindWrites(s: State, h: nat, uid: nat, tp: ThirdPartyOrder)
    requires Tracked(s) && h in s.handlers && tp in s.answers
    ensures var s' := BindStep(s, h, uid, tp); Passes(s, h, s') || Writes(s, h, s', tp)
  {
    hide Framed, Conflicts;
    var id := tp.internalOrderId;
    if tp.uid == uid && tp.credential != "" && id in s.orders && CanBind(s.orders[id], uid, Google, tp.internalProductId, tp.credential, tp.orderId) {
      assert About(tp, Orders.Bound(s.orders[id], tp.credential, tp.orderId));
    }
  }

  lemma AnswerKnown(s: State, h: nat, uid: nat, tp: ThirdPartyOrder)
    requires Inv(s) && h in s.handlers && s.handlers[h].pc == Bind(uid, tp)
    ensures tp in s.answers
  {
    hide OrdersOk, TasksOk, LedgerOk, ConsumedOk, UniqueIndexes, Items.Valid;
    assert HandlerOk(s, s.handlers[h]);
  }

  lemma ReadBackBacked(s: State, h: nat, uid: nat, tp: ThirdPartyOrder)
    requires Inv(s) && h in s.handlers && s.handlers[h].pc == ReadBack(uid, tp) && s.phases.Keys == s.orders.Keys && AllBacked(s)
    ensures Tracked(s) && Tracked(Advance(s, h)) && AllBacked(Advance(s, h))
  {
    hide *;
    Stepped(s, h);
    AdvanceIs(s, h);
    PcOf(s, h);
    DispatchBacked(s, h, uid, tp);
    IdleBacked(s, h, Advance(s, h));
  }

  lemma PcOf(s: State, h: nat)
    requires h in s.handlers && s.phases.Keys == s.orders.Keys && AllBacked(s)
    ensures PcBacked(s, s.handlers[h].pc)
  {
    hide PcBacked, OrderBacked;
  }

  /** The table leads to a purchase only on a Purchased answer and to a cancellation only on a Cancelled one. */
  lemma NextPcBacked(s: State, origin: Origin, o: Order, tp: ThirdPartyOrder)
    requires o.id in s.orders && s.orders[o.id] == o && tp in s.answers && About(tp, o) && tp.productId == o.thirdPartyProductId
    ensures NextPc(origin, o, tp).Some? ==> PcBacked(s, NextPc(origin, o, tp).value)
  {
    hide About;
  }

  lemma PcBackedHere(s: State, s': State, pc: Pc)
    requires s'.orders == s.orders && s'.answers == s.answers && PcBacked(s, pc)
    ensures PcBacked(s', pc)
  {
    hide About;
  }

  lemma DispatchBacked(s: State, h: nat, uid: nat, tp: ThirdPartyOrder)
    requires Tracked(s) && h in s.handlers && s.handlers[h].pc == ReadBack(uid, tp) && PcBacked(s, s.handlers[h].pc)
    ensures Passes(s, h, ReadBackStep(s, h, uid, tp))
  {
    hide Framed, NextPc, TaskBacked;
    var s' := ReadBackStep(s, h, uid, tp);
    var id, origin := tp.internalOrderId, s.handlers[h].origin;
    if id in s.orders && BoundTo(s.orders[id], uid, Google, tp.internalProductId, tp.credential, tp.orderId) && ProductMatches(origin, tp, s.orders[id]) {
      var o := s.orders[id];
      NextPcBacked(s, origin, o, tp);
      if NextPc(origin, o, tp).Some? { PcBackedHere(s, s', NextPc(origin, o, tp).value); }
    }
    hide PcBacked, BoundTo, ProductMatches;
  }

  /** Steps in the middle of a pipeline that write no order. */
  lemma PassBacked(s: State, h: nat)
    requires Inv(s) && h in s.handlers && s.phases.Keys == s.orders.Keys && AllBacked(s)
    requires s.handlers[h].pc.ReadProduct? || s.handlers[h].pc.SendGrant? || s.handlers[h].pc.SendRevoke? || s.handlers[h].pc.Complete?
    ensures Tracked(s) && Tracked(Advance(s, h)) && AllBacked(Advance(s, h))
  {
    hide *;
    Stepped(s, h);
    AdvanceIs(s, h);
    PcOf(s, h);
    match s.handlers[h].pc
    case ReadProduct(o, tp) => { ReadProductPasses(s, h, o, tp); IdleBacked(s, h, Advance(s, h)); }
    case SendGrant(o, tp, rewards) => { SendGrantPasses(s, h, o, tp, rewards); IdleBacked(s, h, Advance(s, h)); }
    case SendRevoke(o, tp) => { SendRevokePasses(s, h, o, tp); IdleBacked(s, h, Advance(s, h)); }
    case Complete(o, tp) => { CompletePasses(s, h, tp); IdleBacked(s, h, Advance(s, h)); }
  }

  lemma ReadProductPasses(s: State, h: nat, o: Order, tp: ThirdPartyOrder)
    requires h in s.handlers && PcBacked(s, ReadProduct(o, tp))
    ensures Passes(s, h, ReadProductStep(s, h, o, tp))
  {
    hide Framed, About;
  }

  lemma SendGrantPasses(s: State, h: nat, o: Order, tp: ThirdPartyOrder, rewards: Snapshot)
    requires h in s.handlers && PcBacked(s, SendGrant(o, tp, rewards))
    ensures Passes(s, h, SendGrantStep(s, h, o, tp, rewards))
  {
    BackedSaid(s, o, tp, ProviderPurchased);
    SaidHere(s, SendGrantStep(s, h, o, tp, rewards), o.id, ProviderPurchased);
    hide Framed, About, Said;
  }

  lemma SendRevokePasses(s: State, h: nat, o: Order, tp: ThirdPartyOrder)
    requires h in s.handlers && PcBacked(s, SendRevoke(o, tp))
    ensures Passes(s, h, SendRevokeStep(s, h, o, tp))
  {
    BackedSaid(s, o, tp, ProviderCancelled);
    SaidHere(s, SendRevokeStep(s, h, o, tp), o.id, ProviderCancelled);
    hide Framed, About, Said;
  }

  lemma CompletePasses(s: State, h: nat, tp: ThirdPartyOrder)
    ensures Passes(s, h, CompleteStep(s, h, tp))
  {
    hide Framed;
  }

  /** A step that rewrites the row of order `o` to `row`, and what it leaves the handler with. */
  ghost predicate Rewrites(s: State, h: nat, s': State, row: Order) {
    && row.id in s.orders && row.id in s.phases && s.phases[row.id] != [] && Sends(s, s')
    && s'.orders == Put(s, row).orders && s'.phases == Put(s, row).phases && OthersSame(s, h, s')
    && (h in s'.handlers ==> PcBacked(s', s'.handlers[h].pc))
    && row.credentialHash == s.orders[row.id].credentialHash
  }

  lemma RewriteBacked(s: State, h: nat, s': State, row: Order, said: Option<ProviderStatus>)
    requires Inv(s) && Tracked(s) && Tracked(s') && Grows(s, s') && s.phases.Keys == s.orders.Keys && AllBacked(s) && Rewrites(s, h, s', row)
    requires said.Some? ==> Said(s, row.id, said.value)
    requires PhaseOf(row) == PhaseOf(s.orders[row.id]) || PhaseOf(row) == TimeoutPhase
             || (PhaseOf(row) == PurchasedPhase && said == Some(ProviderPurchased)) || (PhaseOf(row) == RefundedPhase && said == Some(ProviderCancelled))
    ensures AllBacked(s')
  {
    hide Inv, Tracked, Grows, AllBacked, Said, Bound, PcBacked, Sends, Put, PhaseOf;
    var id := row.id;
    PhaseSaid(s, id);
    if said.Some? { SaidStays(s, s', id, said.value); }
    if PhaseOf(s.orders[id]) == PurchasedPhase { SaidStays(s, s', id, ProviderPurchased); }
    if PhaseOf(s.orders[id]) == RefundedPhase { SaidStays(s, s', id, ProviderCancelled); }
    PutBacked(s, h, row, s');
  }

  lemma SaveRewardsBacked(s: State, h: nat, o: Order, tp: ThirdPartyOrder, rewards: Snapshot)
    requires Inv(s) && h in s.handlers && s.handlers[h].pc == SaveRewards(o, tp, rewards) && s.phases.Keys == s.orders.Keys && AllBacked(s)
    ensures Tracked(s) && Tracked(Advance(s, h)) && AllBacked(Advance(s, h))
  {
    hide *;
    Stepped(s, h);
    AdvanceIs(s, h);
    PcOf(s, h);
    SaveRewardsRewrites(s, h, o, tp, rewards);
    RewriteBacked(s, h, Advance(s, h), s.orders[o.id].(rewards := rewards), None);
  }

  lemma SaveRewardsRewrites(s: State, h: nat, o: Order, tp: ThirdPartyOrder, rewards: Snapshot)
    requires Tracked(s) && h in s.handlers && PcBacked(s, SaveRewards(o, tp, rewards))
    ensures o.id in s.orders && s.orders[o.id].id == o.id && Rewrites(s, h, SaveRewardsStep(s, h, o, tp, rewards), s.orders[o.id].(rewards := rewards))
    ensures PhaseOf(s.orders[o.id].(rewards := rewards)) == PhaseOf(s.orders[o.id])
  {
    hide Framed;
  }

  lemma SetPurchasedBacked(s: State, h: nat, o: Order, tp: ThirdPartyOrder)
    requires Inv(s) && h in s.handlers && s.handlers[h].pc == SetPurchased(o, tp) && s.phases.Keys == s.orders.Keys && AllBacked(s)
    ensures Tracked(s) && Tracked(Advance(s, h)) && AllBacked(Advance(s, h))
  {
    hide *;
    Stepped(s, h);
    AdvanceIs(s, h);
    PcOf(s, h);
    SetPurchasedRewrites(s, h, o, tp);
    var s' := Advance(s, h);
    if Passes(s, h, s') { IdleBacked(s, h, s'); }
    else { RewriteBacked(s, h, s', MarkedPurchased(s.orders[o.id], tp), Some(ProviderPurchased)); }
  }

  lemma SetPurchasedRewrites(s: State, h: nat, o: Order, tp: ThirdPartyOrder)
    requires Tracked(s) && h in s.handlers && PcBacked(s, SetPurchased(o, tp))
    ensures o.id in s.orders && Said(s, o.id, ProviderPurchased)
    ensures var s', row := SetPurchasedStep(s, h, o, tp), MarkedPurchased(s.orders[o.id], tp);
      row.id == o.id && PhaseOf(row) == PurchasedPhase && (Passes(s, h, s') || Rewrites(s, h, s', row))
  {
    hide Framed;
    BackedSaid(s, o, tp, ProviderPurchased);
  }

  lemma SetCancelledBacked(s: State, h: nat, o: Order, tp: ThirdPartyOrder)
    requires Inv(s) && h in s.handlers && s.handlers[h].pc == SetCancelled(o, tp) && s.phases.Keys == s.orders.Keys && AllBacked(s)
    ensures Tracked(s) && Tracked(Advance(s, h)) && AllBacked(Advance(s, h))
  {
    hide *;
    Stepped(s, h);
    AdvanceIs(s, h);
    PcOf(s, h);
    SetCancelledRewrites(s, h, o, tp);
    var s' := Advance(s, h);
    if Passes(s, h, s') { IdleBacked(s, h, s'); }
    else { RewriteBacked(s, h, s', MarkedCancelled(s.orders[o.id], tp, s.now), Some(ProviderCancelled)); }
  }

  lemma SetCancelledRewrites(s: State, h: nat, o: Order, tp: ThirdPartyOrder)
    requires Tracked(s) && h in s.handlers && PcBacked(s, SetCancelled(o, tp))
    ensures o.id in s.orders && Said(s, o.id, ProviderCancelled)
    ensures var s', row := SetCancelledStep(s, h, o, tp), MarkedCancelled(s.orders[o.id], tp, s.now);
      row.id == o.id && PhaseOf(row) == RefundedPhase && (Passes(s, h, s') || Rewrites(s, h, s', row))
  {
    hide Framed;
    BackedSaid(s, o, tp, ProviderCancelled);
  }

  lemma SetRefundedBacked(s: State, h: nat, o: Order, tp: ThirdPartyOrder)
    requires Inv(s) && h in s.handlers && s.handlers[h].pc == SetRefunded(o, tp) && s.phases.Keys == s.orders.Keys && AllBacked(s)
    ensures Tracked(s) && Tracked(Advance(s, h)) && AllBacked(Advance(s, h))
  {
    hide *;
    Stepped(s, h);
    AdvanceIs(s, h);
    PcOf(s, h);
    SetRefundedRewrites(s, h, o, tp);
    var s' := Advance(s, h);
    if Passes(s, h, s') { IdleBacked(s, h, s'); }
    else { RewriteBacked(s, h, s', MarkedRefunded(s.orders[o.id], tp, s.now), Some(ProviderCancelled)); }
  }

  lemma SetRefundedRewrites(s: State, h: nat, o: Order, tp: ThirdPartyOrder)
    requires Tracked(s) && h in s.handlers && PcBacked(s, SetRefunded(o, tp))
    ensures o.id in s.orders && Said(s, o.id, ProviderCancelled)
    ensures var s', row := SetRefundedStep(s, h, o, tp), MarkedRefunded(s.orders[o.id], tp, s.now);
      row.id == o.id && PhaseOf(row) == RefundedPhase && (Passes(s, h, s') || Rewrites(s, h, s', row))
  {
    hide Framed;
    BackedSaid(s, o, tp, ProviderCancelled);
  }

  lemma CloseBacked(s: State, h: nat)
    requires Inv(s) && h in s.handlers && (s.handlers[h].pc.CloseUnpaid? || s.handlers[h].pc.CloseWaiting?)
    requires s.phases.Keys == s.orders.Keys && AllBacked(s)
    ensures Tracked(s) && Tracked(Advance(s, h)) && AllBacked(Advance(s, h))
  {
    hide *;
    Stepped(s, h);
    AdvanceIs(s, h);
    var s' := Advance(s, h);
    var id, expiredAt, closes := CloseIs(s, h);
    if closes {
      CloseRewrites(s, h, id, expiredAt);
      if Passes(s, h, s') { IdleBacked(s, h, s'); } else { RewriteBacked(s, h, s', TimedOut(s.orders[id], s.now), None); }
    } else {
      IdleBacked(s, h, s');
    }
  }

  lemma CloseIs(s: State, h: nat) returns (id: nat, expiredAt: int, closes: bool)
    requires Tracked(s) && h in s.handlers && (s.handlers[h].pc.CloseUnpaid? || s.handlers[h].pc.CloseWaiting?)
    ensures if closes then CloseStep(s, h) == CloseByTimeout(s, h, id, expiredAt) else Passes(s, h, CloseStep(s, h))
  {
    hide Framed, CloseByTimeout;
    var origin, pc := s.handlers[h].origin, s.handlers[h].pc;
    closes := origin.Scan?;
    id := if pc.CloseWaiting? then pc.order.id else if origin.Scan? then origin.orderId else 0;
    expiredAt := if origin.Scan? then origin.expiredAt else 0;
  }

  lemma CloseRewrites(s: State, h: nat, id: nat, expiredAt: int)
    requires Tracked(s)
    ensures var s' := CloseByTimeout(s, h, id, expiredAt);
      Passes(s, h, s') || (id in s.orders && var row := TimedOut(s.orders[id], s.now); row.id == id && PhaseOf(row) == TimeoutPhase && Rewrites(s, h, s', row))
  {
    hide Framed;
  }

  /** Steps that begin or look. */
  lemma BeginBacked(s: State, h: nat)
    requires Inv(s) && h in s.handlers && (s.handlers[h].pc.Start? || s.handlers[h].pc.LookForPending?)
    requires s.phases.Keys == s.orders.Keys && AllBacked(s)
    ensures Tracked(s) && Tracked(Advance(s, h)) && AllBacked(Advance(s, h))
  {
    hide *;
    Stepped(s, h);
    AdvanceIs(s, h);
    if s.handlers[h].pc.Start? { StartPasses(s, h); } else { LookPasses(s, h, s.handlers[h].pc.params); }
    IdleBacked(s, h, Advance(s, h));
  }

  lemma StartPasses(s: State, h: nat)
    requires h in s.handlers
    ensures Passes(s, h, StartStep(s, h))
  {
    hide BeginScan, BeginCreation, Framed, Passes;
    match s.handlers[h].origin
    case Scan(orderId, expiredAt) => ScanPasses(s, h, orderId, expiredAt);
    case Creation(uid, paymentType, productId) => CreationPasses(s, h, uid, paymentType, productId);
    case _ => DropPasses(s, h);
  }

  lemma GoPasses(s: State, h: nat, pc: Pc, seen: set<nat>)
    requires h in s.handlers && (pc.CloseUnpaid? || pc.Ask? || pc.LookForPending?)
    ensures Passes(s, h, Go(s, h, pc).(sightings := seen))
  {
    hide Framed, TaskBacked;
  }

  lemma ScanPasses(s: State, h: nat, orderId: nat, expiredAt: int)
    requires h in s.handlers
    ensures Passes(s, h, BeginScan(s, h, orderId, expiredAt))
  {
    hide Passes, Framed, RowsKept, Drop;
    DropPasses(s, h);
    GoPasses(s, h, CloseUnpaid, s.sightings + {orderId});
    if orderId in s.orders && s.orders[orderId].credential.Some? {
      var ask := Ask(Some(s.orders[orderId].uid), s.orders[orderId].credential.value);
      GoPasses(s, h, ask, s.sightings);
      assert Go(s, h, ask).(sightings := s.sightings) == Go(s, h, ask);
    }
  }

  lemma CreationPasses(s: State, h: nat, uid: nat, paymentType: PaymentType, productId: int)
    requires h in s.handlers
    ensures Passes(s, h, BeginCreation(s, h, uid, paymentType, productId))
  {
    hide Framed, RowsKept, TaskBacked;
  }

  lemma DropPasses(s: State, h: nat)
    ensures Passes(s, h, Drop(s, h))
  {
    hide Framed, TaskBacked;
  }

  lemma LookPasses(s: State, h: nat, p: CreateParams)
    requires h in s.handlers
    ensures Passes(s, h, LookStep(s, h, p))
  {
    hide Framed, PendingFor;
  }

  lemma InsertBacked(s: State, h: nat, p: CreateParams)
    requires Inv(s) && h in s.handlers && s.handlers[h].pc == InsertOrder(p) && s.phases.Keys == s.orders.Keys && AllBacked(s)
    ensures Tracked(s) && Tracked(Advance(s, h)) && AllBacked(Advance(s, h))
  {
    Stepped(s, h);
    AdvanceIs(s, h);
    InsertOrders(s, p);
    var s', n := Advance(s, h), s.nextOrderId;
    assert s' == InsertStep(s, h, p);
    InsertPhases(s, h, p);
    hide Inv, Grows, InsertStep, Advance, Tracked, Framed, PcBacked, OrderBacked, Sends, TaskBacked;
    TrackedKeys(s');
    TasksStay(s, s');
    forall o | o in s'.orders ensures OrderBacked(s', o) {
      if o != n { InsertKeepsBacked(s, s', o); }
    }
    forall k | k in s'.handlers ensures PcBacked(s', s'.handlers[k].pc) { PcStays(s, s', s.handlers[k].pc); }
  }

  lemma InsertPhases(s: State, h: nat, p: CreateParams)
    ensures var s' := InsertStep(s, h, p);
      && Sends(s, s') && s'.phases == s.phases[s.nextOrderId := [PendingPhase]] && s.nextOrderId in s'.orders && OrderBacked(s', s.nextOrderId)
  {
    hide Framed;
  }

  lemma InsertKeepsBacked(s: State, s': State, o: nat)
    requires Tracked(s) && Tracked(s') && Grows(s, s') && o in s.orders && o in s.phases && OrderBacked(s, o)
    requires o in s'.orders && o in s'.phases && s'.orders[o] == s.orders[o] && s'.phases[o] == s.phases[o]
    ensures OrderBacked(s', o)
  {
    OrderStays(s, s', o, false, None);
  }

  lemma MoveBacked(s: State, h: nat)
    requires Inv(s) && h in s.handlers && !s.handlers[h].pc.Ask? && s.phases.Keys == s.orders.Keys && AllBacked(s)
    ensures Tracked(s) && Tracked(Advance(s, h)) && AllBacked(Advance(s, h))
  {
    hide *;
    match s.handlers[h].pc
    case Bind(uid, tp) => BindBacked(s, h, uid, tp);
    case ReadBack(uid, tp) => ReadBackBacked(s, h, uid, tp);
    case SaveRewards(o, tp, rewards) => SaveRewardsBacked(s, h, o, tp, rewards);
    case SetPurchased(o, tp) => SetPurchasedBacked(s, h, o, tp);
    case SetCancelled(o, tp) => SetCancelledBacked(s, h, o, tp);
    case SetRefunded(o, tp) => SetRefundedBacked(s, h, o, tp);
    case CloseUnpaid => CloseBacked(s, h);
    case CloseWaiting(_, _) => CloseBacked(s, h);
    case Start => BeginBacked(s, h);
    case LookForPending(_) => BeginBacked(s, h);
    case InsertOrder(p) => InsertBacked(s, h, p);
    case _ => PassBacked(s, h);
  }

  /** Changes around the orders: new handlers, answers, deliveries, configuration and time. */
  lemma AroundBacked(s: State, a: Action, s': State)
    requires Next(s, a, s') && !a.Move?
    ensures s'.orders == s.orders && s'.phases == s.phases && Sends(s, s')
    ensures forall k :: k in s'.handlers ==> (k in s.handlers && s'.handlers[k] == s.handlers[k]) || PcBacked(s', s'.handlers[k].pc)
  {
    hide Commits, Advance, Framed, Tracked;
  }

  lemma NextBacked(s: State, a: Action, s': State)
    requires Inv(s) && Next(s, a, s') && s.phases.Keys == s.orders.Keys && AllBacked(s)
    ensures s'.phases.Keys == s'.orders.Keys && AllBacked(s')
  {
    if a.Move? {
      hide Inv, Advance, AllBacked, Tracked;
      MoveBacked(s, a.h);
      TrackedKeys(s');
    } else {
      AroundBacked(s, a, s');
      hide Next, PcBacked, OrderBacked;
      NextInv(s, a, s');
      InvParts(s);
      InvParts(s');
      hide Inv, Grows, Tracked, Sends, TaskBacked;
      TasksStay(s, s');
      forall o | o in s'.orders ensures OrderBacked(s', o) { InsertKeepsBacked(s, s', o); }
      forall k | k in s'.handlers ensures PcBacked(s', s'.handlers[k].pc) {
        if k in s.handlers && s'.handlers[k] == s.handlers[k] { PcStays(s, s', s.handlers[k].pc); }
      }
    }
  }

  lemma {:induction false} RunBacked(tr: seq<State>, i: nat)
    requires IsRunFromInit(tr) && i < |tr|
    ensures tr[i].phases.Keys == tr[i].orders.Keys && AllBacked(tr[i])
  {
    if i > 0 {
      RunBacked(tr, i - 1);
      hide Next, AllBacked, Init;
      Reachable(tr, i - 1);
      var a := RunStep(tr, i - 1);
      NextBacked(tr[i - 1], a, tr[i]);
    }
  }

  // ----- theorems

  /**
   In every run: an order that ever became Purchased has an answer of the provider that says
   Purchased, names this order, its user and its product, is for the product ID it was created with
   and for the credential it is bound to. An order cancelled for refund has such an answer that says
   Cancelled. And a credential is bound only to the order its answer names.
   */
  lemma NothingWithoutAnswer(tr: seq<State>, i: nat, o: nat)
    requires IsRunFromInit(tr) && i < |tr| && o in tr[i].orders
    ensures o in tr[i].phases
    ensures PurchasedPhase in tr[i].phases[o] ==> Said(tr[i], o, ProviderPurchased)
    ensures RefundedPhase in tr[i].phases[o] ==> Said(tr[i], o, ProviderCancelled)
    ensures tr[i].orders[o].credentialHash.Some? ==> Bound(tr[i], o)
  {
    RunBacked(tr, i);
    hide Said, Bound, IsRunFromInit, PcBacked;
    assert OrderBacked(tr[i], o);
  }

  /** So every committed grant was paid for, and every committed revocation follows a cancellation. */
  lemma CommittedMeansSaid(tr: seq<State>, i: nat, j: nat)
    requires IsRunFromInit(tr) && i < |tr| && j < |tr[i].ledger|
    ensures var t := tr[i].ledger[j].task;
      t.orderId in tr[i].orders && Said(tr[i], t.orderId, if t.GrantTask? then ProviderPurchased else ProviderCancelled)
  {
    Reachable(tr, i);
    InvParts(tr[i]);
    var t := tr[i].ledger[j].task;
    assert t in tr[i].sent;
    RunBacked(tr, i);
    hide Said, IsRunFromInit, Inv, PcBacked, OrderBacked, LedgerOk;
    assert TaskBacked(tr[i], t);
  }
}
