/** When the timeout scan may close an order, and when two Pending orders may coexist. */
module ProtocolClosing {
  import opened Common
  import opened Orders
  import opened Protocol
  import opened ProtocolInvariants
  import opened ProtocolSteps
  import opened ProtocolTheorems

  // ----- timeouts

  /** Old enough to be closed, in whole seconds. */
  predicate OldEnough(s: State, o: nat)
    requires o in s.orders
  {
    s.orders[o].createAt + TIMEOUT_SECONDS <= s.now
  }

  /** The scan saw the order without a credential, or the provider answered Pending for its credential. */
  ghost predicate ClosingEvidence(s: State, o: nat)
    requires o in s.orders
  {
    o in s.sightings || exists tp :: tp in s.answers && PendingAnswer(tp, s.orders[o])
  }

  predicate PendingAnswer(tp: ThirdPartyOrder, o: Order) {
    tp.internalOrderId == o.id && tp.status == ProviderPending && o.credentialHash == Some(Sha256(tp.credential))
  }

  /** Start, lookup, product read and insert do not touch an existing row. */
  lemma ExistingRowsKept(s: State, h: nat, o: nat)
    requires Tracked(s) && h in s.handlers && o in s.orders && o < s.nextOrderId
    requires var pc := s.handlers[h].pc; pc.Start? || pc.ReadProduct? || pc.LookForPending? || pc.InsertOrder?
    ensures o in Advance(s, h).orders && Advance(s, h).orders[o] == s.orders[o]
  {
    AdvanceIs(s, h);
    hide Advance, StartStep, ReadProductStep, CloseStep, LookStep, InsertStep, Framed, Tracked, OthersSame;
  }

  lemma CloserEvidence(s: State, h: nat, o: nat)
    requires Inv(s) && h in s.handlers && o in s.orders && (s.handlers[h].pc.CloseUnpaid? || s.handlers[h].pc.CloseWaiting?)
    requires TimedOutRow(CloseStep(s, h), o) && !TimedOutRow(s, o)
    ensures s.orders[o].status == Pending && OldEnough(s, o) && ClosingEvidence(s, o)
  {
    assert HandlerOk(s, s.handlers[h]);
    var id, expiredAt := CloserTarget(s, h);
    hide CloseByTimeout, CloseStep, TimedOutRow, HandlerOk, Inv, ClosingEvidence;
  }

  /** What a handler at its closing step knows about the order it is about to close. */
  lemma CloserTarget(s: State, h: nat) returns (id: nat, expiredAt: int)
    requires Tracked(s) && h in s.handlers && (s.handlers[h].pc.CloseUnpaid? || s.handlers[h].pc.CloseWaiting?)
    requires HandlerOk(s, s.handlers[h])
    ensures id in s.orders && ClosingEvidence(s, id) && expiredAt + TIMEOUT_SECONDS <= s.now
    ensures CloseStep(s, h) == CloseByTimeout(s, h, id, expiredAt)
  {
    var origin, pc := s.handlers[h].origin, s.handlers[h].pc;
    expiredAt := origin.expiredAt;
    if pc.CloseUnpaid? {
      id := origin.orderId;
    } else {
      id := pc.order.id;
      assert PendingAnswer(pc.tp, s.orders[id]);
    }
    hide CloseByTimeout;
  }

  /** A step closes an order by timeout only if it is still Pending, old enough, and the evidence is there. */
  lemma TimeoutStep(s: State, a: Action, s': State, o: nat)
    requires Inv(s) && Next(s, a, s') && o in s.orders && TimedOutRow(s', o) && !TimedOutRow(s, o)
    ensures s.orders[o].status == Pending && OldEnough(s, o) && ClosingEvidence(s, o)
  {
    if a.Move? {
      assert OrderOk(s, o) && Tracked(s);
      var pc := s.handlers[a.h].pc;
      hide Advance, ClosingEvidence, Inv, StartStep, ReadProductStep, CloseStep, LookStep, InsertStep;
      if pc.CloseUnpaid? || pc.CloseWaiting? { AdvanceIs(s, a.h); CloserEvidence(s, a.h, o); }
      else if pc.Start? || pc.ReadProduct? || pc.LookForPending? || pc.InsertOrder? { ExistingRowsKept(s, a.h, o); }
      else { QuietMoves(s, a.h); }
    }
  }

  /** A sighting was made in an earlier state in which the order was Pending, old enough and had no credential. */
  ghost predicate SeenUnpaid(s: State, o: nat) {
    o in s.orders && s.orders[o].status == Pending && s.orders[o].credential == None && OldEnough(s, o)
  }

  /** A step other than the start of a scan records no sighting. */
  lemma MoveSightings(s: State, h: nat, o: nat)
    requires Tracked(s) && h in s.handlers && !s.handlers[h].pc.Ask?
    requires o in Advance(s, h).sightings && o !in s.sightings
    ensures SightedBy(s.handlers[h].origin, s, o)
  {
    var pc := s.handlers[h].pc;
    if pc.Start? || pc.CloseUnpaid? || pc.CloseWaiting? || pc.LookForPending? || pc.ReadProduct? || pc.InsertOrder? {
      AdvanceIs(s, h);
      hide *;
    } else {
      QuietMoves(s, h);
      hide Advance, Framed;
    }
  }

  lemma StepSightings(s: State, a: Action, s': State, o: nat)
    requires Inv(s) && Next(s, a, s') && o in s'.sightings && o !in s.sightings
    ensures SeenUnpaid(s, o)
  {
    if a.Move? {
      MoveSightings(s, a.h, o);
      assert HandlerOk(s, s.handlers[a.h]) && OrderOk(s, o);
      hide Advance, HandlersOk, TasksOk, LedgerOk, ConsumedOk;
    }
  }

  lemma {:induction false} SightingIsEarlier(tr: seq<State>, i: nat, o: nat) returns (k: nat)
    requires IsRunFromInit(tr) && i < |tr| && o in tr[i].sightings
    ensures k <= i && SeenUnpaid(tr[k], o)
  {
    assert i > 0 by { hide Next, Steps; }
    hide IsRunFromInit, Inv, Next, SeenUnpaid;
    if o in tr[i - 1].sightings {
      k := SightingIsEarlier(tr, i - 1, o);
    } else {
      k := i - 1;
      Reachable(tr, k);
      var a := RunStep(tr, k);
      StepSightings(tr[k], a, tr[i], o);
    }
  }

  /**
   The scan closes an order as timed out only if it is still Pending at that moment, at least
   15 minutes old, and was seen without a credential earlier in the run or is Pending at the
   provider according to an answer for its own credential.
   */
  lemma TimeoutOnlyWhenUnpaid(tr: seq<State>, i: nat, o: nat)
    requires IsRunFromInit(tr) && i + 1 < |tr| && o in tr[i].orders
    requires TimedOutRow(tr[i + 1], o) && !TimedOutRow(tr[i], o)
    ensures tr[i].orders[o].status == Pending && tr[i].orders[o].createAt + 900 <= tr[i].now
    ensures || (exists k :: 0 <= k <= i && SeenUnpaid(tr[k], o))
            || (exists tp :: tp in tr[i].answers && PendingAnswer(tp, tr[i].orders[o]))
  {
    Reachable(tr, i);
    var a := RunStep(tr, i);
    TimeoutStep(tr[i], a, tr[i + 1], o);
    if o in tr[i].sightings { var _ := SightingIsEarlier(tr, i, o); }
  }

  // ----- at most one Pending order per user, channel and product

  predicate SameRequest(p: CreateParams, q: CreateParams) {
    p.uid == q.uid && p.paymentType == q.paymentType && p.productId == q.productId
  }

  predicate Creating(h: Handler, p: CreateParams) {
    (h.pc.LookForPending? || h.pc.InsertOrder?) && SameRequest(h.pc.params, p)
  }

  /** Creations of one user, channel and product never overlap between the lookup and the insert. */
  ghost predicate SerialCreation(s: State) {
    forall h, k | h in s.handlers && k in s.handlers && h != k && (s.handlers[h].pc.LookForPending? || s.handlers[h].pc.InsertOrder?) ::
      !Creating(s.handlers[k], s.handlers[h].pc.params)
  }

  predicate SameKey(a: Order, b: Order) { a.uid == b.uid && a.paymentType == b.paymentType && a.productId == b.productId }

  ghost predicate OnePending(rows: map<nat, Order>) {
    forall a, b | a in rows && b in rows && a != b && rows[a].status == Pending && rows[b].status == Pending ::
      !SameKey(rows[a], rows[b])
  }

  /** A creator that is about to insert has found no Pending order, and there still is none. */
  ghost predicate InsertsAreFresh(s: State) {
    forall h, o | h in s.handlers && s.handlers[h].pc.InsertOrder? && o in s.orders :: !PendingFor(s.orders[o], s.handlers[h].pc.params)
  }

  /** Rows other than the inserted one keep their key and do not become Pending. */
  ghost predicate NoNewPending(s: State, s': State) {
    forall o :: o in s'.orders ==> o in s.orders && SameKey(s.orders[o], s'.orders[o]) && (s'.orders[o].status == Pending ==> s.orders[o].status == Pending)
  }

  lemma NoNewPendingKeeps(s: State, s': State)
    requires NoNewPending(s, s') && OnePending(s.orders) && InsertsAreFresh(s)
    requires forall h :: h in s'.handlers && s'.handlers[h].pc.InsertOrder? ==> h in s.handlers && s.handlers[h] == s'.handlers[h]
    ensures OnePending(s'.orders) && InsertsAreFresh(s')
  {
  }

  lemma RowKeepsPending(s: State, s': State, o: nat)
    requires Tracked(s) && Tracked(s') && o in s.orders && OrderGrows(s, s', o) && OrderOk(s, o) && OrderOk(s', o)
    ensures SameKey(s.orders[o], s'.orders[o]) && (s'.orders[o].status == Pending ==> s.orders[o].status == Pending)
  {
    if s'.orders[o].status == Pending {
      PendingNeverPurchased(s', o);
      assert s.phases[o] == [PendingPhase];
    }
  }

  lemma GrowthKeepsPending(s: State, s': State)
    requires Inv(s) && Inv(s') && Grows(s, s') && s'.orders.Keys == s.orders.Keys
    ensures NoNewPending(s, s')
  {
    hide OrderOk, OrderGrows, HandlersOk, TasksOk, LedgerOk, ConsumedOk, UniqueIndexes;
    forall o | o in s'.orders ensures SameKey(s.orders[o], s'.orders[o]) && (s'.orders[o].status == Pending ==> s.orders[o].status == Pending) {
      RowKeepsPending(s, s', o);
    }
  }

  lemma LookKeeps(s: State, h: nat, p: CreateParams)
    requires h in s.handlers && s.handlers[h].pc == LookForPending(p) && OnePending(s.orders) && InsertsAreFresh(s)
    ensures OnePending(LookStep(s, h, p).orders) && InsertsAreFresh(LookStep(s, h, p))
  {
    hide LookStep, Framed, PendingFor;
  }

  /** Adding a Pending row keeps the table free of duplicates exactly when its key has no Pending row yet. */
  lemma AddPendingRow(rows: map<nat, Order>, n: nat, p: CreateParams, now: int)
    requires n !in rows && OnePending(rows)
    ensures OnePending(rows[n := NewOrder(n, p, now)]) <==> forall o :: o in rows ==> !PendingFor(rows[o], p)
  {
    var o' := NewOrder(n, p, now);
    var rows' := rows[n := o'];
    assert forall o :: o in rows ==> rows'[o] == rows[o] && (PendingFor(rows[o], p) <==> rows[o].status == Pending && SameKey(rows[o], o'));
    if o :| o in rows && PendingFor(rows[o], p) {
      assert rows'[n] == o' && SameKey(rows'[o], rows'[n]);
    }
  }

  /** The insert itself: serial creation means no other creator is affected by the new row. */
  lemma InsertKeeps(s: State, h: nat, p: CreateParams)
    requires Inv(s) && h in s.handlers && s.handlers[h].pc == InsertOrder(p)
    requires OnePending(s.orders) && InsertsAreFresh(s) && SerialCreation(s)
    ensures OnePending(InsertStep(s, h, p).orders) && InsertsAreFresh(InsertStep(s, h, p))
  {
    var s' := InsertStep(s, h, p);
    InsertOrders(s, p);
    hide Inv, InsertStep, OnePending;
    AddPendingRow(s.orders, s.nextOrderId, p, s.now);
    forall k, o | k in s'.handlers && s'.handlers[k].pc.InsertOrder? && o in s'.orders
      ensures !PendingFor(s'.orders[o], s'.handlers[k].pc.params)
    {
      if o == s.nextOrderId { assert !Creating(s.handlers[h], s.handlers[k].pc.params); }
    }
  }

  /** A step other than a lookup or an insert starts no insert and adds no row. */
  lemma NoInsertStarted(s: State, h: nat, k: nat)
    requires Tracked(s) && h in s.handlers
    requires var pc := s.handlers[h].pc; !pc.Ask? && !pc.LookForPending? && !pc.InsertOrder?
    requires k in Advance(s, h).handlers && Advance(s, h).handlers[k].pc.InsertOrder?
    ensures k in s.handlers && s.handlers[k] == Advance(s, h).handlers[k]
  {
    var pc := s.handlers[h].pc;
    if pc.Start? || pc.ReadProduct? || pc.CloseUnpaid? || pc.CloseWaiting? {
      AdvanceIs(s, h);
      hide Advance, StartStep, ReadProductStep, CloseStep, LookStep, InsertStep, Framed, Tracked;
    } else {
      QuietMoves(s, h);
      hide Advance;
    }
  }

  lemma NoRowAdded(s: State, h: nat)
    requires Tracked(s) && h in s.handlers
    requires var pc := s.handlers[h].pc; !pc.Ask? && !pc.LookForPending? && !pc.InsertOrder?
    ensures Advance(s, h).orders.Keys == s.orders.Keys
  {
    if s.handlers[h].pc.ReadProduct? {
      AdvanceIs(s, h);
      hide Advance, StartStep, ReadProductStep, CloseStep, LookStep, InsertStep, Framed, Tracked, OthersSame;
    } else {
      AdvanceFramed(s, h);
      hide Advance;
    }
  }

  lemma MoveKeepsOnePending(s: State, h: nat)
    requires Inv(s) && h in s.handlers && !s.handlers[h].pc.Ask? && OnePending(s.orders) && InsertsAreFresh(s) && SerialCreation(s)
    ensures OnePending(Advance(s, h).orders) && InsertsAreFresh(Advance(s, h))
  {
    assert Tracked(s);
    var pc := s.handlers[h].pc;
    AdvanceIs(s, h);
    hide *;
    if pc.LookForPending? {
      LookKeeps(s, h, pc.params);
    } else if pc.InsertOrder? {
      InsertKeeps(s, h, pc.params);
    } else {
      MoveInv(s, h);
      NoRowAdded(s, h);
      GrowthKeepsPending(s, Advance(s, h));
      forall k | k in Advance(s, h).handlers && Advance(s, h).handlers[k].pc.InsertOrder?
        ensures k in s.handlers && s.handlers[k] == Advance(s, h).handlers[k]
      {
        NoInsertStarted(s, h, k);
      }
      NoNewPendingKeeps(s, Advance(s, h));
    }
  }

  lemma StepKeepsOnePending(s: State, a: Action, s': State)
    requires Inv(s) && Next(s, a, s') && OnePending(s.orders) && InsertsAreFresh(s) && SerialCreation(s)
    ensures OnePending(s'.orders) && InsertsAreFresh(s')
  {
    if a.Move? {
      hide Advance, Inv, OnePending, InsertsAreFresh, SerialCreation;
      MoveKeepsOnePending(s, a.h);
    } else {
      assert s'.orders == s.orders && forall h :: h in s'.handlers && s'.handlers[h].pc.InsertOrder? ==> h in s.handlers && s.handlers[h] == s'.handlers[h] by {
        hide Advance, Inv, OnePending, InsertsAreFresh, SerialCreation, Commits, Framed;
      }
      hide Next, Inv, OnePending, InsertsAreFresh, SerialCreation;
      NoNewPendingKeeps(s, s');
    }
  }

  lemma {:induction false} OnePendingHolds(tr: seq<State>, i: nat)
    requires IsRunFromInit(tr) && i < |tr| && forall k :: 0 <= k < i ==> SerialCreation(tr[k])
    ensures OnePending(tr[i].orders) && InsertsAreFresh(tr[i])
  {
    if i > 0 {
      OnePendingHolds(tr, i - 1);
      Reachable(tr, i - 1);
      var a := RunStep(tr, i - 1);
      StepKeepsOnePending(tr[i - 1], a, tr[i]);
    }
  }

  /** With order creation serialised, no run ever has two Pending orders for one user, channel and product. */
  lemma NoDuplicatePending(tr: seq<State>, i: nat)
    requires IsRunFromInit(tr) && i < |tr| && forall k :: 0 <= k < |tr| ==> SerialCreation(tr[k])
    ensures OnePending(tr[i].orders)
  {
    OnePendingHolds(tr, i);
  }

  /**
   The exact condition, one insert at a time: an insert leaves at most one Pending order per key
   if and only if no Pending order with its key exists when it runs.
   */
  lemma InsertKeepsOnePendingIff(s: State, h: nat, p: CreateParams)
    requires Inv(s) && OnePending(s.orders)
    ensures OnePending(InsertStep(s, h, p).orders) <==> forall o :: o in s.orders ==> !PendingFor(s.orders[o], p)
  {
    InsertOrders(s, p);
    hide Inv, InsertStep, OnePending, PendingFor;
    AddPendingRow(s.orders, s.nextOrderId, p, s.now);
  }

  // ----- the age of an order

  /** The columns of an order that has just been created at `now` as number `id`. */
  predicate JustCreated(o: Order, id: nat, p: CreateParams, now: int) {
    && o.id == id && o.uid == p.uid && o.productId == p.productId && o.thirdPartyProductId == p.thirdPartyProductId
    && o.paymentType == p.paymentType && o.rewards == p.rewards && o.createAt == now
    && o.status == Pending && o.reason == NoReason && o.cancelAt == 0 && o.payAt == 0 && o.refundAt == 0
    && o.credential == None && o.credentialHash == None && o.thirdPartyOrderId == None
  }

  lemma InsertCreates(s: State, h: nat, p: CreateParams)
    ensures var s' := InsertStep(s, h, p); s.nextOrderId in s'.orders && JustCreated(s'.orders[s.nextOrderId], s.nextOrderId, p, s.now)
  {
    hide Framed;
  }

  /** A row appears only by an insert, and it is stamped with the clock of that moment. */
  lemma NewRow(s: State, a: Action, s': State, o: nat) returns (p: CreateParams)
    requires Inv(s) && Next(s, a, s') && o !in s.orders && o in s'.orders
    ensures JustCreated(s'.orders[o], o, p, s.now)
  {
    if a.Move? {
      InvParts(s);
      var pc := s.handlers[a.h].pc;
      AdvanceIs(s, a.h);
      hide Inv, Advance, InsertStep, LookStep, StartStep, ReadProductStep, CloseStep, Framed, Tracked, JustCreated;
      if pc.InsertOrder? {
        p := pc.params;
        InsertCreates(s, a.h, p);
      } else if !pc.LookForPending? {
        NoRowAdded(s, a.h);
      }
    }
  }

  /** From then on the row carries that time. */
  lemma CreatedThen(tr: seq<State>, k: nat, i: nat, o: nat)
    requires IsRunFromInit(tr) && k < i < |tr| && o !in tr[k].orders && o in tr[k + 1].orders
    ensures o in tr[i].orders && tr[i].orders[o].createAt == tr[k].now
  {
    Reachable(tr, k);
    var a := RunStep(tr, k);
    var p := NewRow(tr[k], a, tr[k + 1], o);
    hide Inv, Next, IsRunFromInit;
    BindingsAreWriteOnce(tr, k + 1, i, o);
  }

  /** The scan closes no order that is younger than 15 minutes, counted from the step that created it. */
  lemma TimeoutAfterFifteenMinutes(tr: seq<State>, k: nat, i: nat, o: nat)
    requires IsRunFromInit(tr) && k < i && i + 1 < |tr| && o !in tr[k].orders && o in tr[k + 1].orders
    requires TimedOutRow(tr[i + 1], o) && !TimedOutRow(tr[i], o)
    ensures tr[k].now + 900 <= tr[i].now
  {
    hide TimedOutRow, IsRunFromInit;
    CreatedThen(tr, k, i, o);
    TimeoutOnlyWhenUnpaid(tr, i, o);
  }
}
