/** Runs that show where a tempting property fails, and that queued work is never stuck. */
module ProtocolWitnesses {
  import opened Common
  import opened Items
  import opened ItemLaws
  import opened ItemProgress
  import opened Orders
  import opened Protocol
  import opened ProtocolInvariants
  import opened ProtocolSteps
  import opened ProtocolTheorems
  import opened ProtocolClosing

  // ----- building runs

  ghost predicate Reach(s: State, s': State) { exists tr :: RunBetween(tr, s, s') }

  ghost predicate RunBetween(tr: seq<State>, s: State, s': State) { IsRun(tr) && tr[0] == s && tr[|tr| - 1] == s' }

  lemma ReachSelf(s: State)
    ensures Reach(s, s)
  {
    assert RunBetween([s], s, s);
  }

  lemma ReachNext(s: State, m: State, a: Action, s': State)
    requires Reach(s, m) && Next(m, a, s')
    ensures Reach(s, s')
  {
    hide Next;
    var tr :| RunBetween(tr, s, m);
    var tr' := tr + [s'];
    assert Steps(m, s');
    forall i | 0 <= i < |tr'| - 1 ensures Steps(tr'[i], tr'[i + 1]) {
      if i + 1 < |tr| { assert Steps(tr[i], tr[i + 1]); }
    }
    assert RunBetween(tr', s, s');
  }

  lemma ReachBoth(s: State, m: State, s': State)
    requires Reach(s, m) && Reach(m, s')
    ensures Reach(s, s')
  {
    var tr :| RunBetween(tr, m, s');
    Extend(s, tr, |tr| - 1);
  }

  lemma {:induction false} Extend(s: State, tr: seq<State>, n: nat)
    requires IsRun(tr) && n < |tr| && Reach(s, tr[0])
    ensures Reach(s, tr[n])
  {
    if n > 0 {
      hide Next, Reach;
      Extend(s, tr, n - 1);
      assert Steps(tr[n - 1], tr[n - 1 + 1]);
      var a :| Next(tr[n - 1], a, tr[n]);
      ReachNext(s, tr[n - 1], a, tr[n]);
    }
  }

  // ----- stretches of a run

  /** A handler moves once. */
  lemma ReachMove(s: State, m: State, h: nat, s': State)
    requires Reach(s, m) && Tracked(m) && h in m.handlers && !m.handlers[h].pc.Ask? && s' == Advance(m, h)
    ensures Reach(s, s')
  {
    assert Next(m, Move(h), s') by { hide Advance, Tracked, Reach; }
    hide Next, Advance, Tracked, Reach;
    ReachNext(s, m, Move(h), s');
  }

  /** The state after a notice was answered with `tp`, bound order `o` and left handler `h` at `pc`. */
  function Noticed(s: State, h: nat, tp: ThirdPartyOrder, o: Order, pc: Pc): State {
    s.(orders := s.orders[o.id := o], answers := s.answers + {tp}, handlers := s.handlers[h := Handler(Notice(tp.credential), pc)])
  }

  /** The answer fits the order row, which becomes `o`. */
  predicate Fits(s: State, tp: ThirdPartyOrder, o: Order) {
    && tp.internalOrderId in s.orders && tp.credential != "" && tp.productId == o.thirdPartyProductId
    && CanBind(s.orders[tp.internalOrderId], tp.uid, Google, tp.internalProductId, tp.credential, tp.orderId)
    && o == Bound(s.orders[tp.internalOrderId], tp.credential, tp.orderId) && !Conflicts(s.orders, o)
  }

  /** A notice whose answer fits order `o` binds it and reaches the step the decision table names. */
  lemma NoticeArrives(s: State, h: nat, tp: ThirdPartyOrder, o: Order, pc: Pc)
    requires Tracked(s) && h !in s.handlers && Fits(s, tp, o)
    requires o.id in s.phases && s.phases[o.id] != [] && s.phases[o.id][|s.phases[o.id]| - 1] == PhaseOf(o)
    requires NextPc(Notice(tp.credential), o, tp) == Some(pc)
    ensures Reach(s, Noticed(s, h, tp, o, pc))
  {
    var s2 := s.(handlers := s.handlers[h := Handler(Notice(tp.credential), Bind(tp.uid, tp))], answers := s.answers + {tp});
    var s3 := Noticed(s, h, tp, o, ReadBack(tp.uid, tp));
    assert Go(s3, h, pc) == Noticed(s, h, tp, o, pc) && tp.productId == o.thirdPartyProductId && o.id == tp.internalOrderId
      by { hide CanBind, Conflicts, NextPc, Reach, Framed; }
    hide *;
    NoticeAsked(s, h, tp);
    NoticeBinds(s, s2, s3, h, tp, o);
    NoticedIs(s, h, tp, o, ReadBack(tp.uid, tp));
    NoticeReads(s3, h, tp, o, pc);
    ReachMove(s, s2, h, s3);
    ReachMove(s, s3, h, Noticed(s, h, tp, o, pc));
  }

  lemma NoticeAsked(s: State, h: nat, tp: ThirdPartyOrder)
    requires Tracked(s) && h !in s.handlers
    ensures Reach(s, s.(handlers := s.handlers[h := Handler(Notice(tp.credential), Bind(tp.uid, tp))], answers := s.answers + {tp}))
  {
    var c := tp.credential;
    var s1 := s.(handlers := s.handlers[h := Handler(Notice(c), Ask(None, c))]);
    var s2 := s.(handlers := s.handlers[h := Handler(Notice(c), Bind(tp.uid, tp))], answers := s.answers + {tp});
    assert Next(s, Begin(h, Notice(c)), s1) by { hide Advance; }
    assert Next(s1, Answer(h, tp), s2) by { hide Advance; }
    hide Reach, Next;
    ReachSelf(s);
    ReachNext(s, s, Begin(h, Notice(c)), s1);
    ReachNext(s, s1, Answer(h, tp), s2);
  }

  /** The states before and after the binding. */
  lemma NoticeStates(s: State, s2: State, s3: State, h: nat, tp: ThirdPartyOrder, o: Order)
    requires Tracked(s) && Fits(s, tp, o) && o.id == tp.internalOrderId
    requires s2 == s.(handlers := s.handlers[h := Handler(Notice(tp.credential), Bind(tp.uid, tp))], answers := s.answers + {tp})
    requires s3 == s2.(orders := s.orders[o.id := o], handlers := s.handlers[h := Handler(Notice(tp.credential), ReadBack(tp.uid, tp))])
    ensures Tracked(s2) && Tracked(s3) && Fits(s2, tp, o)
  {
    hide CanBind, Bound, Conflicts;
  }

  lemma NoticeBinds(s: State, s2: State, s3: State, h: nat, tp: ThirdPartyOrder, o: Order)
    requires Tracked(s) && Fits(s, tp, o)
    requires o.id in s.phases && s.phases[o.id] != [] && s.phases[o.id][|s.phases[o.id]| - 1] == PhaseOf(o)
    requires s2 == s.(handlers := s.handlers[h := Handler(Notice(tp.credential), Bind(tp.uid, tp))], answers := s.answers + {tp})
    requires s3 == Noticed(s, h, tp, o, ReadBack(tp.uid, tp))
    ensures o.id == tp.internalOrderId && BoundTo(o, tp.uid, Google, tp.internalProductId, tp.credential, tp.orderId)
    ensures Tracked(s2) && Tracked(s3) && Advance(s2, h) == s3
  {
    hide *;
    FitsFacts(s, tp, o);
    NoticedIs(s, h, tp, o, ReadBack(tp.uid, tp));
    NoticeStates(s, s2, s3, h, tp, o);
    AdvanceIs(s2, h);
    BindsFitting(s2, h, tp, o);
    PutSamePhase(s2, o);
    GoIs(Put(s2, o), h, ReadBack(tp.uid, tp));
  }

  lemma NoticedIs(s: State, h: nat, tp: ThirdPartyOrder, o: Order, pc: Pc)
    ensures Noticed(s, h, tp, o, pc)
         == s.(orders := s.orders[o.id := o], answers := s.answers + {tp}, handlers := s.handlers[h := Handler(Notice(tp.credential), pc)])
  {
  }

  lemma GoIs(s: State, h: nat, pc: Pc)
    requires h in s.handlers
    ensures Go(s, h, pc) == s.(handlers := s.handlers[h := s.handlers[h].(pc := pc)])
  {
  }

  lemma PutSamePhase(s: State, o: Order)
    requires o.id in s.phases && s.phases[o.id] != [] && s.phases[o.id][|s.phases[o.id]| - 1] == PhaseOf(o)
    ensures Put(s, o) == s.(orders := s.orders[o.id := o])
  {
    hide Framed, PhaseOf;
  }

  lemma FitsFacts(s: State, tp: ThirdPartyOrder, o: Order)
    requires Tracked(s) && Fits(s, tp, o)
    ensures o.id == tp.internalOrderId && BoundTo(o, tp.uid, Google, tp.internalProductId, tp.credential, tp.orderId)
  {
    hide Conflicts;
  }

  lemma BindsFitting(s: State, h: nat, tp: ThirdPartyOrder, o: Order)
    requires Tracked(s) && h in s.handlers && Fits(s, tp, o)
    ensures BindStep(s, h, tp.uid, tp) == Go(Put(s, o), h, ReadBack(tp.uid, tp))
  {
    hide Put, Go, Quiet, Framed;
  }

  lemma NoticeReads(s3: State, h: nat, tp: ThirdPartyOrder, o: Order, pc: Pc)
    requires Tracked(s3) && h in s3.handlers && s3.handlers[h] == Handler(Notice(tp.credential), ReadBack(tp.uid, tp))
    requires tp.internalOrderId in s3.orders && o == s3.orders[tp.internalOrderId]
    requires BoundTo(o, tp.uid, Google, tp.internalProductId, tp.credential, tp.orderId) && tp.productId == o.thirdPartyProductId
    requires NextPc(Notice(tp.credential), o, tp) == Some(pc)
    ensures Advance(s3, h) == Go(s3, h, pc)
  {
    AdvanceIs(s3, h);
    hide Advance, NextPc, BoundTo;
    assert ReadBackStep(s3, h, tp.uid, tp) == Dispatch(s3, h, o, tp);
  }

  // ----- the common beginning: one order, bought once

  const UID: nat := 42
  const PRODUCT := 1
  const SKU := "sku"
  const TOKEN := "token"

  function Shop(list: RewardList): Product { Product(map[Google := SKU], true, Some(list)) }

  function Params(list: RewardList): CreateParams { CreateParams(UID, PRODUCT, SKU, Google, ListSnapshot(list)) }

  function Says(status: ProviderStatus): ThirdPartyOrder {
    ThirdPartyOrder(status, 1, PRODUCT, UID, "", SKU, TOKEN, Amount(0, 0, ""), 0, 0, "", false, true)
  }

  function Empty(list: RewardList, stacks: map<int, StackMode>): State {
    State(1000, map[PRODUCT := Shop(list)], stacks, map[], 1, map[], {}, Inventory(map[], 0), {}, map[], {}, map[], [], map[], {}, {})
  }

  /** One Pending order, created with `list` in its snapshot. */
  function Ordered(list: RewardList, stacks: map<int, StackMode>): State {
    Empty(list, stacks).(orders := map[1 := NewOrder(1, Params(list), 1000)], nextOrderId := 2,
                         phases := map[1 := [PendingPhase]], quotes := map[1 := {}])
  }

  lemma CreationStarts(s: State, h: nat, list: RewardList)
    requires Tracked(s) && h in s.handlers && s.handlers[h] == Handler(Creation(UID, Google, PRODUCT), Start)
    requires PRODUCT in s.products && s.products[PRODUCT] == Shop(list)
    ensures Advance(s, h) == Go(s, h, LookForPending(Params(list))) && Tracked(Advance(s, h))
  {
    AdvanceIs(s, h);
    hide Advance, BeginScan, Framed, RowsKept;
  }

  lemma CreationLooks(s: State, h: nat, p: CreateParams)
    requires Tracked(s) && h in s.handlers && s.handlers[h].pc == LookForPending(p)
    requires forall id :: id in s.orders ==> !PendingFor(s.orders[id], p)
    ensures Advance(s, h) == Go(s, h, InsertOrder(p)) && Tracked(Advance(s, h))
  {
    AdvanceIs(s, h);
    hide Advance, Framed, RowsKept, PendingFor;
  }

  lemma CreationInserts(s: State, h: nat, p: CreateParams)
    requires Tracked(s) && h in s.handlers && s.handlers[h].pc == InsertOrder(p)
    ensures Advance(s, h) == InsertStep(s, h, p) && Tracked(Advance(s, h))
  {
    AdvanceIs(s, h);
    hide Advance, Framed;
  }

  function Started(s: State, h: nat): State { s.(handlers := s.handlers[h := Handler(Creation(UID, Google, PRODUCT), Start)]) }

  lemma CreationBegins(s: State, h: nat)
    requires Tracked(s) && h !in s.handlers
    ensures Next(s, Begin(h, Creation(UID, Google, PRODUCT)), Started(s, h)) && Tracked(Started(s, h))
  {
    hide Advance;
  }

  lemma CreatedIs(list: RewardList, stacks: map<int, StackMode>)
    ensures var s1 := Started(Empty(list, stacks), 1);
            InsertStep(Go(Go(s1, 1, LookForPending(Params(list))), 1, InsertOrder(Params(list))), 1, Params(list)) == Ordered(list, stacks)
  {
    var s3 := Go(Go(Started(Empty(list, stacks), 1), 1, LookForPending(Params(list))), 1, InsertOrder(Params(list)));
    assert s3 == Empty(list, stacks).(handlers := s3.handlers) && s3.handlers.Keys == {1} by { hide Framed; }
    assert InsertStep(s3, 1, Params(list)).handlers == map[];
    hide Framed, Started, Go;
  }

  lemma OrderCreated(list: RewardList, stacks: map<int, StackMode>)
    ensures Init(Empty(list, stacks)) && Reach(Empty(list, stacks), Ordered(list, stacks))
  {
    var s, p := Empty(list, stacks), Params(list);
    var s1 := Started(s, 1);
    var s2 := Go(s1, 1, LookForPending(p));
    var s3 := Go(s2, 1, InsertOrder(p));
    var s4 := InsertStep(s3, 1, p);
    CreatedIs(list, stacks);
    assert Tracked(s);
    hide Reach, Next, Advance, Tracked, InsertStep, Framed, Ordered;
    CreationBegins(s, 1);
    CreationStarts(s1, 1, list);
    CreationLooks(s2, 1, p);
    CreationInserts(s3, 1, p);
    ReachSelf(s);
    ReachNext(s, s, Begin(1, Creation(UID, Google, PRODUCT)), s1);
    ReachMove(s, s1, 1, s2);
    ReachMove(s, s2, 1, s3);
    ReachMove(s, s3, 1, s4);
  }

  // ----- overlapping creations

  lemma EmptyInit(list: RewardList, stacks: map<int, StackMode>)
    ensures Init(Empty(list, stacks)) && Tracked(Empty(list, stacks))
  {
  }

  /** Creations 1 and 2 stand before their inserts. */
  function BothLooked(list: RewardList, stacks: map<int, StackMode>): State {
    var s2, p := Started(Started(Empty(list, stacks), 1), 2), Params(list);
    Go(Go(Go(Go(s2, 1, LookForPending(p)), 2, LookForPending(p)), 1, InsertOrder(p)), 2, InsertOrder(p))
  }

  lemma TwoInserted(list: RewardList, stacks: map<int, StackMode>)
    ensures !OnePending(InsertStep(InsertStep(BothLooked(list, stacks), 1, Params(list)), 2, Params(list)).orders)
  {
    var s, p := BothLooked(list, stacks), Params(list);
    assert s.orders == map[] && s.nextOrderId == 1 by { hide Framed; }
    var s1 := InsertStep(s, 1, p);
    assert s1.orders == map[1 := NewOrder(1, p, s.now)] && s1.nextOrderId == 2;
    var s2 := InsertStep(s1, 2, p);
    hide Framed, BothLooked;
    assert 1 in s2.orders && 2 in s2.orders && SameKey(s2.orders[1], s2.orders[2]);
  }

  /** Two creations that both look before either inserts leave two Pending orders for one request. */
  lemma OverlappingCreationsDuplicate(list: RewardList, stacks: map<int, StackMode>) returns (s': State)
    ensures Init(Empty(list, stacks)) && Reach(Empty(list, stacks), s') && !OnePending(s'.orders)
  {
    var s, p := Empty(list, stacks), Params(list);
    var s1 := Started(s, 1);
    var s2 := Started(s1, 2);
    var s3 := Go(s2, 1, LookForPending(p));
    var s4 := Go(s3, 2, LookForPending(p));
    var s5 := Go(s4, 1, InsertOrder(p));
    var s6 := Go(s5, 2, InsertOrder(p));
    var s7 := InsertStep(s6, 1, p);
    s' := InsertStep(s7, 2, p);
    TwoInserted(list, stacks);
    EmptyInit(list, stacks);
    hide Init, Framed, Reach, Next, Advance, Tracked, InsertStep, OnePending;
    CreationBegins(s, 1);
    CreationBegins(s1, 2);
    CreationStarts(s2, 1, list);
    CreationStarts(s3, 2, list);
    CreationLooks(s4, 1, p);
    CreationLooks(s5, 2, p);
    CreationInserts(s6, 1, p);
    CreationInserts(s7, 2, p);
    ReachSelf(s);
    ReachNext(s, s, Begin(1, Creation(UID, Google, PRODUCT)), s1);
    ReachNext(s, s1, Begin(2, Creation(UID, Google, PRODUCT)), s2);
    ReachMove(s, s2, 1, s3);
    ReachMove(s, s3, 2, s4);
    ReachMove(s, s4, 1, s5);
    ReachMove(s, s5, 2, s6);
    ReachMove(s, s6, 1, s7);
    ReachMove(s, s7, 2, s');
  }

  /** A purchase handler has saved `list`, queued the grant (unless one is queued) and is about to mark the order. */
  function GrantSent(s: State, h: nat, tp: ThirdPartyOrder, o: Order, list: RewardList): State
    requires o.id in s.orders && o.id in s.quotes
  {
    Enqueue(s.(quotes := s.quotes[o.id := s.quotes[o.id] + {list}],
               orders := s.orders[o.id := s.orders[o.id].(rewards := ListSnapshot(list))],
               handlers := s.handlers[h := Handler(Notice(tp.credential), SetPurchased(o, tp))]),
            GrantTask(o.id, o.uid, ListSnapshot(list)))
  }

  lemma GrantGetsSent(s: State, h: nat, tp: ThirdPartyOrder, o: Order, list: RewardList)
    requires Tracked(s) && h in s.handlers && s.handlers[h] == Handler(Notice(tp.credential), ReadProduct(o, tp))
    requires o.id in s.orders && s.phases[o.id][|s.phases[o.id]| - 1] == PhaseOf(s.orders[o.id])
    requires o.productId in s.products && s.products[o.productId].rewards == Some(list)
    ensures Reach(s, GrantSent(s, h, tp, o, list)) && Tracked(GrantSent(s, h, tp, o, list))
  {
    var origin := Notice(tp.credential);
    var s1 := s.(quotes := s.quotes[o.id := s.quotes[o.id] + {list}],
                 handlers := s.handlers[h := Handler(origin, SaveRewards(o, tp, ListSnapshot(list)))]);
    var s2 := s1.(orders := s.orders[o.id := s.orders[o.id].(rewards := ListSnapshot(list))],
                  handlers := s.handlers[h := Handler(origin, SendGrant(o, tp, ListSnapshot(list)))]);
    ReadsProduct(s, h, tp, o, list, s1);
    hide Advance, Reach;
    SavesRewards(s1, h, tp, o, list, s2);
    SendsGrant(s, s2, h, tp, o, list);
    hide Tracked, GrantSent, PhaseOf;
    ReachSelf(s);
    ReachMove(s, s, h, s1);
    ReachMove(s, s1, h, s2);
    ReachMove(s, s2, h, GrantSent(s, h, tp, o, list));
  }

  lemma SendsGrant(s: State, s2: State, h: nat, tp: ThirdPartyOrder, o: Order, list: RewardList)
    requires Tracked(s2) && h in s.handlers && o.id in s.orders && o.id in s.quotes
    requires s2 == s.(quotes := s.quotes[o.id := s.quotes[o.id] + {list}],
                      orders := s.orders[o.id := s.orders[o.id].(rewards := ListSnapshot(list))],
                      handlers := s.handlers[h := Handler(Notice(tp.credential), SendGrant(o, tp, ListSnapshot(list)))])
    ensures Advance(s2, h) == GrantSent(s, h, tp, o, list) && Tracked(GrantSent(s, h, tp, o, list))
  {
    AdvanceIs(s2, h);
    hide Advance, Framed, Quiet;
  }

  lemma ReadsProduct(s: State, h: nat, tp: ThirdPartyOrder, o: Order, list: RewardList, s1: State)
    requires Tracked(s) && h in s.handlers && s.handlers[h] == Handler(Notice(tp.credential), ReadProduct(o, tp))
    requires o.id in s.orders && o.productId in s.products && s.products[o.productId].rewards == Some(list)
    requires s1 == s.(quotes := s.quotes[o.id := s.quotes[o.id] + {list}],
                      handlers := s.handlers[h := Handler(Notice(tp.credential), SaveRewards(o, tp, ListSnapshot(list)))])
    ensures Tracked(s1) && Advance(s, h) == s1
  {
    AdvanceIs(s, h);
    hide Advance, RowsKept, Framed;
  }

  lemma SavesRewards(s1: State, h: nat, tp: ThirdPartyOrder, o: Order, list: RewardList, s2: State)
    requires Tracked(s1) && h in s1.handlers && s1.handlers[h] == Handler(Notice(tp.credential), SaveRewards(o, tp, ListSnapshot(list)))
    requires o.id in s1.orders && s1.phases[o.id][|s1.phases[o.id]| - 1] == PhaseOf(s1.orders[o.id])
    requires s2 == s1.(orders := s1.orders[o.id := s1.orders[o.id].(rewards := ListSnapshot(list))],
                       handlers := s1.handlers[h := Handler(Notice(tp.credential), SendGrant(o, tp, ListSnapshot(list)))])
    ensures Tracked(s2) && Advance(s1, h) == s2
  {
    AdvanceIs(s1, h);
    hide Advance, Framed, Quiet;
  }

  // ----- a refunded order whose grant is never revoked

  function Row1(list: RewardList): Order { Bound(NewOrder(1, Params(list), 1000), TOKEN, "") }

  /** The order is bound, its grant is queued, and the purchase handler died before marking it Purchased. */
  function Interrupted(list: RewardList, stacks: map<int, StackMode>): State {
    var t := GrantTask(1, UID, ListSnapshot(list));
    Ordered(list, stacks).(orders := map[1 := Row1(list)], quotes := map[1 := {list}], answers := {Says(ProviderPurchased)},
                           queue := map[TaskRef(GrantKind, 1) := t], sent := {t})
  }

  lemma InterruptedIs(list: RewardList, stacks: map<int, StackMode>)
    ensures var tp, o := Says(ProviderPurchased), Row1(list);
            var s := Noticed(Ordered(list, stacks), 2, tp, o, ReadProduct(o, tp));
            o.id in s.orders && o.id in s.quotes && Drop(GrantSent(s, 2, tp, o, list), 2) == Interrupted(list, stacks)
  {
    var tp, o := Says(ProviderPurchased), Row1(list);
    var s := Noticed(Ordered(list, stacks), 2, tp, o, ReadProduct(o, tp));
    var a, b := Drop(GrantSent(s, 2, tp, o, list), 2), Interrupted(list, stacks);
    hide Framed;
    assert a.handlers == b.handlers;
    assert a.orders == b.orders;
    assert s.quotes[1] + {list} == {list};
    assert a.quotes == b.quotes;
    assert a.queue == b.queue;
  }

  lemma OrderedFits(list: RewardList, stacks: map<int, StackMode>)
    ensures var s, tp, o := Ordered(list, stacks), Says(ProviderPurchased), Row1(list);
      && Tracked(s) && Fits(s, tp, o) && Tracked(Noticed(s, 2, tp, o, ReadProduct(o, tp))) && o.id == 1
      && s.handlers == map[] && s.phases == map[1 := [PendingPhase]] && PhaseOf(o) == PendingPhase
      && NextPc(Notice(tp.credential), o, tp) == Some(ReadProduct(o, tp))
      && o.productId in s.products && s.products[o.productId].rewards == Some(list)
  {
  }

  lemma PurchaseInterrupted(list: RewardList, stacks: map<int, StackMode>)
    ensures Reach(Ordered(list, stacks), Interrupted(list, stacks)) && Tracked(Interrupted(list, stacks))
  {
    var s, tp, o := Ordered(list, stacks), Says(ProviderPurchased), Row1(list);
    var s1 := Noticed(s, 2, tp, o, ReadProduct(o, tp));
    OrderedFits(list, stacks);
    InterruptedIs(list, stacks);
    hide Reach, Fits, Ordered, Interrupted, Row1, Says, Tracked, NextPc, PhaseOf;
    var s2 := GrantSent(s1, 2, tp, o, list);
    assert 2 in s2.handlers;
    NoticeArrives(s, 2, tp, o, ReadProduct(o, tp));
    GrantGetsSent(s1, 2, tp, o, list);
    hide *;
    Stops(s2, 2);
    ReachBoth(s, s1, s2);
    ReachNext(s, s2, Stop(2), Interrupted(list, stacks));
  }

  /** The queued grant is delivered. */
  lemma GrantDelivered(s: State, t: Task, items: Inventory)
    requires Tracked(s) && t in s.sent && Commits(s, t, items)
    ensures Next(s, Deliver(t, items), Delivered(s, t, items)) && Tracked(Delivered(s, t, items))
  {
    hide Advance, Commits;
  }

  lemma Cancels(s: State, h: nat, tp: ThirdPartyOrder, o: Order)
    requires Tracked(s) && h in s.handlers && s.handlers[h].pc == SetCancelled(o, tp) && o.id in s.orders && s.orders[o.id].status == Pending
    ensures Advance(s, h) == Drop(Put(s, MarkedCancelled(s.orders[o.id], tp, s.now)), h)
  {
    AdvanceIs(s, h);
    hide Advance, Framed, Quiet, Put, Drop, MarkedCancelled;
  }

  /** The interrupted order, granted, and then a notice that reports the purchase cancelled. */
  function CancelNoticed(list: RewardList, stacks: map<int, StackMode>, items: Inventory): State {
    Noticed(Delivered(Interrupted(list, stacks), GrantTask(1, UID, ListSnapshot(list)), items), 3,
            Says(ProviderCancelled), Row1(list), SetCancelled(Row1(list), Says(ProviderCancelled)))
  }

  /** A delivery followed by a notice. */
  lemma DeliverThenNotice(s: State, t: Task, items: Inventory, h: nat, tp: ThirdPartyOrder, o: Order, pc: Pc)
    requires Tracked(s) && t in s.sent && Commits(s, t, items) && h !in s.handlers && Fits(s, tp, o) && o.id in s.orders
    requires s.phases[o.id][|s.phases[o.id]| - 1] == PhaseOf(o) && NextPc(Notice(tp.credential), o, tp) == Some(pc)
    ensures Reach(s, Noticed(Delivered(s, t, items), h, tp, o, pc)) && Tracked(Noticed(Delivered(s, t, items), h, tp, o, pc))
  {
    var s1 := Delivered(s, t, items);
    assert Fits(s1, tp, o) by { hide CanBind, Bound, Tracked, Commits; }
    assert Tracked(Noticed(s1, h, tp, o, pc)) by { hide Fits, Commits; }
    hide Reach, Fits, Commits, NextPc, PhaseOf;
    GrantDelivered(s, t, items);
    NoticeArrives(s1, h, tp, o, pc);
    hide *;
    ReachSelf(s);
    ReachNext(s, s, Deliver(t, items), s1);
    ReachBoth(s, s1, Noticed(s1, h, tp, o, pc));
  }

  lemma CancelArrives(list: RewardList, stacks: map<int, StackMode>, items: Inventory)
    requires Grants(Inventory(map[], 0), UID, list, stacks, 1000, items)
    ensures Reach(Interrupted(list, stacks), CancelNoticed(list, stacks, items)) && Tracked(CancelNoticed(list, stacks, items))
  {
    var s, t := Interrupted(list, stacks), GrantTask(1, UID, ListSnapshot(list));
    var tp, o := Says(ProviderCancelled), Row1(list);
    assert Commits(s, t, items) by { hide Grants; }
    assert Tracked(s) && Fits(s, tp, o) && s.phases[1] == [PendingPhase] by { hide Grants, Commits; }
    hide Reach, Fits, Commits, Grants, Tracked;
    DeliverThenNotice(s, t, items, 3, tp, o, SetCancelled(o, tp));
  }

  /**
   A refunded order can keep its rewards: the grant is queued, the handler stops before marking the
   order Purchased, the provider then reports the purchase cancelled, and no revocation is ever queued.
   Whatever the reward list, such a run exists.
   */
  lemma RefundWithoutRevocation(list: RewardList, stacks: map<int, StackMode>) returns (s': State)
    requires forall r :: r in list ==> Grantable(r, stacks)
    ensures Init(Empty(list, stacks)) && Reach(Empty(list, stacks), s')
    ensures 1 in s'.orders && PhaseOf(s'.orders[1]) == RefundedPhase && !RevokeSafe(s', 1)
    ensures s'.ledger == [Entry(GrantTask(1, UID, ListSnapshot(list)), 1000, stacks)]
  {
    var s0, s1, s2 := Empty(list, stacks), Ordered(list, stacks), Interrupted(list, stacks);
    var items := GrantsPossible(Inventory(map[], 0), UID, list, stacks, 1000);
    var s3 := CancelNoticed(list, stacks, items);
    CancelArrives(list, stacks, items);
    s' := CancelFinishes(list, stacks, items);
    hide Advance, Reach, CancelNoticed, RevokeSafe, Tracked, PhaseOf, Interrupted;
    OrderCreated(list, stacks);
    PurchaseInterrupted(list, stacks);
    ReachBoth(s0, s1, s2);
    ReachBoth(s0, s2, s3);
    ReachMove(s0, s3, 3, s');
  }

  lemma CancelFinishes(list: RewardList, stacks: map<int, StackMode>, items: Inventory) returns (s': State)
    requires Tracked(CancelNoticed(list, stacks, items))
    ensures var s := CancelNoticed(list, stacks, items); 3 in s.handlers && !s.handlers[3].pc.Ask? && s' == Advance(s, 3)
    ensures 1 in s'.orders && PhaseOf(s'.orders[1]) == RefundedPhase && !RevokeSafe(s', 1)
    ensures s'.ledger == [Entry(GrantTask(1, UID, ListSnapshot(list)), 1000, stacks)]
  {
    var s := CancelNoticed(list, stacks, items);
    assert s.orders[1] == Row1(list) && 3 in s.handlers;
    Cancels(s, 3, Says(ProviderCancelled), Row1(list));
    s' := Advance(s, 3);
    hide Advance, Framed, Tracked;
  }

  // ----- a changed configuration

  /** The row after a second handler saved `second` over the snapshot and marked the order Purchased. */
  function PaidRow(first: RewardList, second: RewardList): Order {
    MarkedPurchased(Row1(first).(rewards := ListSnapshot(second)), Says(ProviderPurchased))
  }

  /** `first` was sent for granting, then the product changed to `second` and the order became Purchased. */
  function Reconfigured(first: RewardList, second: RewardList, stacks: map<int, StackMode>): State {
    Interrupted(first, stacks).(products := map[PRODUCT := Shop(second)], orders := map[1 := PaidRow(first, second)],
                                quotes := map[1 := {first, second}], phases := map[1 := [PendingPhase, PurchasedPhase]])
  }

  lemma ProductChanges(s: State, second: RewardList)
    requires Tracked(s) && s.products.Keys == {PRODUCT}
    ensures Next(s, SetProduct(PRODUCT, Some(Shop(second))), s.(products := map[PRODUCT := Shop(second)]))
    ensures Tracked(s.(products := map[PRODUCT := Shop(second)]))
  {
    hide Advance;
    assert s.products[PRODUCT := Shop(second)] == map[PRODUCT := Shop(second)];
  }

  lemma Purchases(s: State, h: nat, tp: ThirdPartyOrder, o: Order)
    requires Tracked(s) && h in s.handlers && s.handlers[h].pc == SetPurchased(o, tp) && o.id in s.orders && CanPurchase(s.orders[o.id])
    ensures Advance(s, h) == Go(Put(s, MarkedPurchased(s.orders[o.id], tp)), h, Complete(o, tp)) && Tracked(Advance(s, h))
  {
    AdvanceIs(s, h);
    PutTracked(s, MarkedPurchased(s.orders[o.id], tp));
    hide Advance, Framed, Quiet, Put, MarkedPurchased, CanPurchase;
  }

  lemma Stops(s: State, h: nat)
    requires Tracked(s) && h in s.handlers
    ensures Next(s, Stop(h), Drop(s, h)) && Tracked(Drop(s, h))
  {
    hide Advance;
  }

  /** `Reconfigured` one step earlier: the second handler has saved `second` and is about to mark the order. */
  function AboutToPurchase(first: RewardList, second: RewardList, stacks: map<int, StackMode>): State {
    var tp, o := Says(ProviderPurchased), Row1(first);
    Interrupted(first, stacks).(products := map[PRODUCT := Shop(second)], orders := map[1 := o.(rewards := ListSnapshot(second))],
                                quotes := map[1 := {first, second}], handlers := map[3 := Handler(Notice(TOKEN), SetPurchased(o, tp))])
  }

  lemma AboutToPurchaseTracked(first: RewardList, second: RewardList, stacks: map<int, StackMode>)
    ensures var tp, o := Says(ProviderPurchased), Row1(first);
            Tracked(Noticed(Interrupted(first, stacks).(products := map[PRODUCT := Shop(second)]), 3, tp, o, ReadProduct(o, tp)))
  {
  }

  lemma InterruptedParts(list: RewardList, stacks: map<int, StackMode>)
    ensures var s := Interrupted(list, stacks);
      && s.orders == map[1 := Row1(list)] && s.quotes == map[1 := {list}] && s.handlers == map[] && TaskRef(GrantKind, 1) in s.queue
      && s.answers == {Says(ProviderPurchased)} && Row1(list).id == 1 && Says(ProviderPurchased).credential == TOKEN
  {
  }

  /** A second grant of an order whose first one is still queued adds nothing to the queue. */
  lemma GrantSentAgain(s: State, h: nat, tp: ThirdPartyOrder, o: Order, list: RewardList)
    requires o.id in s.orders && o.id in s.quotes && TaskRef(GrantKind, o.id) in s.queue
    ensures GrantSent(s, h, tp, o, list)
         == s.(quotes := s.quotes[o.id := s.quotes[o.id] + {list}],
               orders := s.orders[o.id := s.orders[o.id].(rewards := ListSnapshot(list))],
               handlers := s.handlers[h := Handler(Notice(tp.credential), SetPurchased(o, tp))])
  {
    hide Framed;
  }

  lemma AboutToPurchaseIs(first: RewardList, second: RewardList, stacks: map<int, StackMode>)
    ensures var tp, o := Says(ProviderPurchased), Row1(first);
            var s := Noticed(Interrupted(first, stacks).(products := map[PRODUCT := Shop(second)]), 3, tp, o, ReadProduct(o, tp));
            Tracked(s) && o.id in s.orders && GrantSent(s, 3, tp, o, second) == AboutToPurchase(first, second, stacks)
  {
    hide *;
    var tp, o := Says(ProviderPurchased), Row1(first);
    var s0 := Interrupted(first, stacks).(products := map[PRODUCT := Shop(second)]);
    var s := Noticed(s0, 3, tp, o, ReadProduct(o, tp));
    InterruptedParts(first, stacks);
    NoticedIs(s0, 3, tp, o, ReadProduct(o, tp));
    AboutToPurchaseTracked(first, second, stacks);
    GrantSentAgain(s, 3, tp, o, second);
    AboutToPurchaseParts(first, second, stacks);
    assert {first} + {second} == {first, second} && {tp} + {tp} == {tp};
  }

  lemma AboutToPurchaseParts(first: RewardList, second: RewardList, stacks: map<int, StackMode>)
    ensures var tp, o := Says(ProviderPurchased), Row1(first);
      AboutToPurchase(first, second, stacks)
      == Interrupted(first, stacks).(products := map[PRODUCT := Shop(second)], orders := map[1 := o.(rewards := ListSnapshot(second))],
                                     quotes := map[1 := {first, second}], handlers := map[3 := Handler(Notice(TOKEN), SetPurchased(o, tp))])
  {
    hide Interrupted, Row1, Says, Shop;
  }

  lemma ReconfiguredIs(first: RewardList, second: RewardList, stacks: map<int, StackMode>)
    ensures var tp, o, s := Says(ProviderPurchased), Row1(first), AboutToPurchase(first, second, stacks);
            && o.id in s.orders && CanPurchase(s.orders[o.id]) && o.id in s.phases && s.phases[o.id] != []
            && Drop(Go(Put(s, MarkedPurchased(s.orders[o.id], tp)), 3, Complete(o, tp)), 3) == Reconfigured(first, second, stacks)
  {
    var tp, o, s := Says(ProviderPurchased), Row1(first), AboutToPurchase(first, second, stacks);
    hide Framed;
    var a, b := Drop(Go(Put(s, MarkedPurchased(s.orders[o.id], tp)), 3, Complete(o, tp)), 3), Reconfigured(first, second, stacks);
    assert a.handlers == b.handlers;
    assert a.orders == b.orders;
    assert s.phases[1] + [PurchasedPhase] == [PendingPhase, PurchasedPhase];
    assert a.phases == b.phases;
  }

  lemma InterruptedFacts(first: RewardList, second: RewardList, stacks: map<int, StackMode>)
    ensures var s, tp, o := Interrupted(first, stacks), Says(ProviderPurchased), Row1(first);
      var s1 := s.(products := map[PRODUCT := Shop(second)]);
      && Tracked(s) && Tracked(s1) && Fits(s1, tp, o) && o.id == 1 && o.productId == PRODUCT && o.status == Pending && tp.credential == TOKEN
      && s.products.Keys == {PRODUCT} && s.handlers == map[] && s.phases == map[1 := [PendingPhase]] && PhaseOf(o) == PendingPhase
      && NextPc(Notice(tp.credential), o, tp) == Some(ReadProduct(o, tp))
  {
  }

  lemma ReconfiguredReached(first: RewardList, second: RewardList, stacks: map<int, StackMode>)
    ensures Reach(Interrupted(first, stacks), Reconfigured(first, second, stacks))
  {
    var s := Interrupted(first, stacks);
    var tp, o := Says(ProviderPurchased), Row1(first);
    var s1 := s.(products := map[PRODUCT := Shop(second)]);
    var s2 := Noticed(s1, 3, tp, o, ReadProduct(o, tp));
    hide Advance, Framed, Reach, Fits, Interrupted, Row1, Says, NextPc;
    InterruptedFacts(first, second, stacks);
    ProductChanges(s, second);
    NoticeArrives(s1, 3, tp, o, ReadProduct(o, tp));
    AboutToPurchaseIs(first, second, stacks);
    ReconfiguredIs(first, second, stacks);
    hide AboutToPurchase, Reconfigured, GrantSent;
    ReconfiguredPurchase(s2, tp, o, second);
    hide *;
    ReachSelf(s);
    ReachNext(s, s, SetProduct(PRODUCT, Some(Shop(second))), s1);
    ReachBoth(s, s1, s2);
    ReachBoth(s, s2, Reconfigured(first, second, stacks));
  }

  /** From reading the product to dying just after the order was marked Purchased. */
  lemma ReconfiguredPurchase(s2: State, tp: ThirdPartyOrder, o: Order, list: RewardList)
    requires Tracked(s2) && 3 in s2.handlers && s2.handlers[3] == Handler(Notice(tp.credential), ReadProduct(o, tp))
    requires o.id in s2.orders && s2.phases[o.id][|s2.phases[o.id]| - 1] == PhaseOf(s2.orders[o.id])
    requires o.productId in s2.products && s2.products[o.productId].rewards == Some(list)
    requires var s3 := GrantSent(s2, 3, tp, o, list);
             && 3 in s3.handlers && s3.handlers[3].pc == SetPurchased(o, tp) && o.id in s3.orders && CanPurchase(s3.orders[o.id])
             && o.id in s3.phases && s3.phases[o.id] != []
    ensures var s3 := GrantSent(s2, 3, tp, o, list);
            Reach(s2, Drop(Go(Put(s3, MarkedPurchased(s3.orders[o.id], tp)), 3, Complete(o, tp)), 3))
  {
    var s3 := GrantSent(s2, 3, tp, o, list);
    var s4 := Go(Put(s3, MarkedPurchased(s3.orders[o.id], tp)), 3, Complete(o, tp));
    hide Advance, Framed, Reach, Put, MarkedPurchased, CanPurchase, GrantSent;
    GrantGetsSent(s2, 3, tp, o, list);
    Purchases(s3, 3, tp, o);
    hide Tracked, Next, Drop;
    Stops(s4, 3);
    ReachMove(s2, s3, 3, s4);
    ReachNext(s2, s4, Stop(3), Drop(s4, 3));
  }

  lemma RevokeSends(s: State, h: nat, tp: ThirdPartyOrder, o: Order)
    requires Tracked(s) && h in s.handlers && s.handlers[h].pc == SendRevoke(o, tp) && TaskRef(RevokeKind, o.id) !in s.queue
    ensures Tracked(Advance(s, h)) && RevokeTask(o.id, o.uid, o.rewards) in Advance(s, h).sent
    ensures Advance(s, h).ledger == s.ledger && Advance(s, h).items == s.items && Advance(s, h).nonces == s.nonces && Advance(s, h).now == s.now
  {
    AdvanceIs(s, h);
    hide Advance, Quiet;
  }

  /** The reconfigured order after its grant, and then a notice that reports the purchase cancelled. */
  function RefundNoticed(first: RewardList, second: RewardList, stacks: map<int, StackMode>, items: Inventory): State {
    var o, tp := PaidRow(first, second), Says(ProviderCancelled);
    Noticed(Delivered(Reconfigured(first, second, stacks), GrantTask(1, UID, ListSnapshot(first)), items), 4, tp, o, SendRevoke(o, tp))
  }

  lemma RefundArrives(first: RewardList, second: RewardList, stacks: map<int, StackMode>, items: Inventory)
    requires Grants(Inventory(map[], 0), UID, first, stacks, 1000, items)
    ensures Reach(Reconfigured(first, second, stacks), RefundNoticed(first, second, stacks, items))
    ensures Tracked(RefundNoticed(first, second, stacks, items))
  {
    var s, t := Reconfigured(first, second, stacks), GrantTask(1, UID, ListSnapshot(first));
    var tp, o := Says(ProviderCancelled), PaidRow(first, second);
    assert Commits(s, t, items) by { hide Grants; }
    assert Tracked(s) && Fits(s, tp, o) && s.phases[1] == [PendingPhase, PurchasedPhase] by { hide Grants, Commits; }
    hide Reach, Fits, Commits, Grants, Tracked;
    DeliverThenNotice(s, t, items, 4, tp, o, SendRevoke(o, tp));
  }

  /** The revocation is queued with the second list and commits. */
  lemma RefundRevokes(first: RewardList, second: RewardList, stacks: map<int, StackMode>, items: Inventory, left: Inventory) returns (s': State)
    requires Tracked(RefundNoticed(first, second, stacks, items)) && Revokes(items, UID, second, 1000, left)
    ensures Reach(RefundNoticed(first, second, stacks, items), s') && s'.quotes == RefundNoticed(first, second, stacks, items).quotes
    ensures s'.ledger == [Entry(GrantTask(1, UID, ListSnapshot(first)), 1000, stacks), Entry(RevokeTask(1, UID, ListSnapshot(second)), 1000, stacks)]
  {
    var s := RefundNoticed(first, second, stacks, items);
    var tp, o, t := Says(ProviderCancelled), PaidRow(first, second), RevokeTask(1, UID, ListSnapshot(second));
    hide Advance, Framed, Reach;
    RevokeSends(s, 4, tp, o);
    var s1 := Advance(s, 4);
    RevokeStacks(s, 4);
    assert Commits(s1, t, left) by { hide Tracked; }
    s' := Delivered(s1, t, left);
    GrantDelivered(s1, t, left);
    assert s'.ledger == s.ledger + [Entry(t, 1000, stacks)];
    hide Tracked, Commits, Revokes, Next;
    ReachSelf(s);
    ReachMove(s, s, 4, s1);
    ReachNext(s, s1, Deliver(t, left), s');
  }

  lemma RevokeStacks(s: State, h: nat)
    requires Tracked(s) && h in s.handlers && s.handlers[h].pc.SendRevoke?
    ensures Advance(s, h).stacks == s.stacks && Advance(s, h).quotes == s.quotes
  {
    AdvanceIs(s, h);
    hide Advance, Quiet, Framed;
  }

  /**
   With a configuration change in between, the lists can differ: for any two lists there is a run
   whose committed grant uses the first and whose committed revocation uses the second.
   */
  lemma ConfigChangeSplitsRewards(first: RewardList, second: RewardList, stacks: map<int, StackMode>) returns (s': State)
    requires (forall r :: r in first ==> Grantable(r, stacks)) && None !in second
    ensures Init(Empty(first, stacks)) && Reach(Empty(first, stacks), s') && s'.quotes == map[1 := {first, second}]
    ensures s'.ledger == [Entry(GrantTask(1, UID, ListSnapshot(first)), 1000, stacks), Entry(RevokeTask(1, UID, ListSnapshot(second)), 1000, stacks)]
  {
    var s0 := Empty(first, stacks);
    RefundQuotes(first, second, stacks);
    var items := GrantsPossible(Inventory(map[], 0), UID, first, stacks, 1000);
    GrantKeepsValid(first, stacks, items);
    var left := RevokesPossible(items, UID, second, 1000);
    hide Reach, Tracked, Grants, Revokes, Reconfigured, Interrupted, RefundNoticed;
    OrderCreated(first, stacks);
    PurchaseInterrupted(first, stacks);
    ReconfiguredReached(first, second, stacks);
    RefundArrives(first, second, stacks, items);
    s' := RefundRevokes(first, second, stacks, items, left);
    ReachBoth(s0, Ordered(first, stacks), Interrupted(first, stacks));
    ReachBoth(s0, Interrupted(first, stacks), Reconfigured(first, second, stacks));
    ReachBoth(s0, Reconfigured(first, second, stacks), RefundNoticed(first, second, stacks, items));
    ReachBoth(s0, RefundNoticed(first, second, stacks, items), s');
  }

  lemma RefundQuotes(first: RewardList, second: RewardList, stacks: map<int, StackMode>)
    ensures forall items :: RefundNoticed(first, second, stacks, items).quotes == map[1 := {first, second}]
  {
  }

  /** The state belongs to a run of the protocol. */
  ghost predicate Attainable(s: State) { exists s0 :: Init(s0) && Reach(s0, s) }

  /** All lists ever read from the configuration for the order are among `a` and `b`. */
  ghost predicate QuotedOnly(s: State, o: nat, a: RewardList, b: RewardList) { o in s.quotes && s.quotes[o] <= {a, b} }

  /** The order's committed revocation took back the list its committed grant gave. */
  ghost predicate Agrees(s: State, o: nat) {
    forall j, k | 0 <= j < |s.ledger| && 0 <= k < |s.ledger| && Grant(s.ledger[j], o) && Revocation(s.ledger[k], o) ::
      Unmarshal(s.ledger[j].task.rewards) == Unmarshal(s.ledger[k].task.rewards)
  }

  lemma QuotedOnceAgrees(s: State, o: nat, a: RewardList)
    requires Attainable(s) && QuotedOnly(s, o, a, a)
    ensures Agrees(s, o)
  {
    hide Init, Next;
    var s0 :| Init(s0) && Reach(s0, s);
    var tr :| RunBetween(tr, s0, s);
    forall j | 0 <= j < |s.ledger| && (Grant(s.ledger[j], o) || Revocation(s.ledger[j], o))
      ensures Unmarshal(s.ledger[j].task.rewards) == a
    {
      RewardsWereQuoted(tr, |tr| - 1, j);
    }
  }

  /**
   Grant and revocation of an order agree in every run that reads only `a` and `b` for it, if and
   only if `a` and `b` are the same list.
   */
  lemma RewardsAgreeIff(a: RewardList, b: RewardList, stacks: map<int, StackMode>)
    requires (forall r :: r in a ==> Grantable(r, stacks)) && None !in b
    ensures (forall s, o :: Attainable(s) && QuotedOnly(s, o, a, b) ==> Agrees(s, o)) <==> a == b
  {
    if a == b {
      forall s, o | Attainable(s) && QuotedOnly(s, o, a, b) ensures Agrees(s, o) {
        hide Attainable, Agrees;
        QuotedOnceAgrees(s, o, a);
      }
    } else {
      hide Reach, Init, Grantable;
      var s := ConfigChangeSplitsRewards(a, b, stacks);
      assert Attainable(s) && QuotedOnly(s, 1, a, b);
      assert Grant(s.ledger[0], 1) && Revocation(s.ledger[1], 1);
      assert Unmarshal(s.ledger[0].task.rewards) == a && Unmarshal(s.ledger[1].task.rewards) == b;
      assert !Agrees(s, 1);
    }
  }

  lemma GrantKeepsValid(list: RewardList, stacks: map<int, StackMode>, items: Inventory)
    requires Grants(Inventory(map[], 0), UID, list, stacks, 1000, items)
    ensures Valid(items)
  {
    GrantsValid(Inventory(map[], 0), UID, list, stacks, 1000, items);
  }

  // ----- queued work is never stuck

  /**
   In every reachable state a queued grant with a grantable list is committed or can be committed now,
   and a queued revocation either can, or waits for a grant that is itself still queued.
   */
  lemma QueuedTaskCanProceed(tr: seq<State>, i: nat, ref: TaskRef)
    requires IsRunFromInit(tr) && i < |tr| && ref in tr[i].queue
    requires var list := Unmarshal(tr[i].queue[ref].rewards);
             if ref.kind == GrantKind then forall r :: r in list ==> Grantable(r, tr[i].stacks) else None !in list
    ensures var s, t := tr[i], tr[i].queue[ref];
            || NonceOf(t) in s.nonces
            || (exists items :: Commits(s, t, items))
            || (ref.kind == RevokeKind && TaskRef(GrantKind, ref.orderId) in s.queue)
  {
    Reachable(tr, i);
    var s, t := tr[i], tr[i].queue[ref];
    assert TaskOk(s, t) && OrderOk(s, t.orderId) && Valid(s.items) && RefOf(t) == ref;
    hide Inv, IsRunFromInit, Tracked;
    if NonceOf(t) !in s.nonces {
      if ref.kind == GrantKind {
        var items := GrantsPossible(s.items, t.uid, Unmarshal(t.rewards), s.stacks, s.now);
        assert Commits(s, t, items);
      } else if TaskRef(GrantKind, ref.orderId) !in s.queue {
        var items := RevokesPossible(s.items, t.uid, Unmarshal(t.rewards), s.now);
        assert Commits(s, t, items);
      }
    }
  }

  // ----- the scan does close orders

  /** The unpaid order 900 seconds later, with a scan of it under way at `pc`. */
  function Scanned(list: RewardList, stacks: map<int, StackMode>, pc: Pc, seen: set<nat>): State {
    Ordered(list, stacks).(now := 1900, handlers := map[2 := Handler(Scan(1, 1000), pc)], sightings := seen)
  }

  lemma ScanBegins(list: RewardList, stacks: map<int, StackMode>)
    ensures Reach(Ordered(list, stacks), Scanned(list, stacks, Start, {})) && Tracked(Scanned(list, stacks, Start, {}))
  {
    var s := Ordered(list, stacks);
    var s1, s2 := s.(now := 1900), Scanned(list, stacks, Start, {});
    assert Next(s, Tick(1900), s1) && Next(s1, Begin(2, Scan(1, 1000)), s2) && Tracked(s2) by { hide Advance, Reach; }
    hide *;
    ReachSelf(s);
    ReachNext(s, s, Tick(1900), s1);
    ReachNext(s, s1, Begin(2, Scan(1, 1000)), s2);
  }

  lemma ScanLooks(list: RewardList, stacks: map<int, StackMode>)
    ensures var s, s' := Scanned(list, stacks, Start, {}), Scanned(list, stacks, CloseUnpaid, {1});
      Tracked(s) && Tracked(s') && Advance(s, 2) == s'
  {
    AdvanceIs(Scanned(list, stacks, Start, {}), 2);
    hide Advance, Framed, RowsKept;
  }

  lemma ScanEnds(list: RewardList, stacks: map<int, StackMode>)
    requires Tracked(Scanned(list, stacks, CloseUnpaid, {1}))
    ensures TimedOutRow(Advance(Scanned(list, stacks, CloseUnpaid, {1}), 2), 1)
  {
    AdvanceIs(Scanned(list, stacks, CloseUnpaid, {1}), 2);
    hide Advance, Framed, Tracked;
  }

  /** An order left unpaid for 15 minutes can be closed by the scan. */
  lemma ScanCloses(list: RewardList, stacks: map<int, StackMode>) returns (s: State, s': State)
    ensures Init(Empty(list, stacks)) && Reach(Empty(list, stacks), s) && Steps(s, s')
    ensures 1 in s.orders && !TimedOutRow(s, 1) && TimedOutRow(s', 1)
  {
    hide *;
    var s0, s1 := Ordered(list, stacks), Scanned(list, stacks, Start, {});
    s := Scanned(list, stacks, CloseUnpaid, {1});
    ScannedFacts(list, stacks);
    OrderCreated(list, stacks);
    ScanBegins(list, stacks);
    ScanLooks(list, stacks);
    ScanEnds(list, stacks);
    ReachBoth(Empty(list, stacks), s0, s1);
    ReachMove(Empty(list, stacks), s1, 2, s);
    s' := Advance(s, 2);
    MoveSteps(s, 2);
  }

  lemma ScannedFacts(list: RewardList, stacks: map<int, StackMode>)
    ensures var s := Scanned(list, stacks, Start, {}); 2 in s.handlers && s.handlers[2].pc == Start
    ensures var s := Scanned(list, stacks, CloseUnpaid, {1});
      2 in s.handlers && s.handlers[2].pc == CloseUnpaid && 1 in s.orders && !TimedOutRow(s, 1)
  {
  }

  lemma MoveSteps(s: State, h: nat)
    requires Tracked(s) && h in s.handlers && !s.handlers[h].pc.Ask?
    ensures Steps(s, Advance(s, h))
  {
    hide Advance, Tracked;
    assert Next(s, Move(h), Advance(s, h));
  }
}
