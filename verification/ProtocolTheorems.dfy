/** What holds in every state of every run of the payment protocol. */
module ProtocolTheorems {
  import opened Common
  import opened Items
  import opened Orders
  import opened Protocol
  import opened ProtocolInvariants
  import opened ProtocolSteps

  /** The invariant along a run that starts from an empty system. */
  lemma Reachable(tr: seq<State>, i: nat)
    requires IsRunFromInit(tr) && i < |tr|
    ensures Inv(tr[i])
  {
    InitInv(tr[0]);
    RunInv(tr, i, i);
  }

  /** The action behind a step of a run. */
  lemma RunStep(tr: seq<State>, i: nat) returns (a: Action)
    requires IsRunFromInit(tr) && i + 1 < |tr|
    ensures Next(tr[i], a, tr[i + 1])
  {
    hide Next, Init;
    assert Steps(tr[i], tr[i + 1]);
    a :| Next(tr[i], a, tr[i + 1]);
  }

  // ----- 1. exactly-once effects

  /** One ledger entry applied to the inventory. */
  ghost predicate Applied(t: Inventory, e: Entry, t': Inventory) {
    match e.task
    case GrantTask(_, uid, rewards) => Grants(t, uid, Unmarshal(rewards), e.stacks, e.at, t')
    case RevokeTask(_, uid, rewards) => Revokes(t, uid, Unmarshal(rewards), e.at, t')
  }

  /** `t'` is `t` after every entry of the ledger was applied once, in order. */
  ghost predicate Replays(t: Inventory, ledger: seq<Entry>, t': Inventory) {
    if ledger == [] then t' == t
    else
      var n := |ledger| - 1;
      exists mid :: Replays(t, ledger[..n], mid) && Applied(mid, ledger[n], t')
  }

  /** Most steps of a handler are quiet. */
  lemma QuietMoves(s: State, h: nat)
    requires h in s.handlers && Tracked(s)
    requires var pc := s.handlers[h].pc;
             || pc.Bind? || pc.ReadBack? || pc.SaveRewards? || pc.SendGrant? || pc.SetPurchased?
             || pc.Complete? || pc.SetCancelled? || pc.SendRevoke? || pc.SetRefunded?
    ensures Quiet(s, h, Advance(s, h))
  {
    AdvanceIs(s, h);
    hide *;
  }

  lemma AdvanceFramed(s: State, h: nat)
    requires h in s.handlers && Tracked(s)
    requires var pc := s.handlers[h].pc; !pc.Ask? && !pc.ReadProduct? && !pc.InsertOrder?
    ensures Framed(s, Advance(s, h))
  {
    var pc := s.handlers[h].pc;
    if pc.Start? || pc.LookForPending? || pc.CloseUnpaid? || pc.CloseWaiting? {
      AdvanceIs(s, h);
      hide *;
    } else {
      QuietMoves(s, h);
      hide Advance, Framed;
    }
  }

  lemma AdvanceKeepsInventory(s: State, h: nat)
    requires h in s.handlers && Tracked(s) && !s.handlers[h].pc.Ask?
    ensures Advance(s, h).items == s.items && Advance(s, h).ledger == s.ledger
  {
    if s.handlers[h].pc.ReadProduct? || s.handlers[h].pc.InsertOrder? {
      AdvanceIs(s, h);
      hide *;
    } else {
      AdvanceFramed(s, h);
      hide Advance;
    }
  }

  lemma StepReplays(base: Inventory, s: State, a: Action, s': State)
    requires Next(s, a, s') && Replays(base, s.ledger, s.items)
    ensures Replays(base, s'.ledger, s'.items)
  {
    if a.Move? { AdvanceKeepsInventory(s, a.h); }
    if a.Deliver? {
      var n := |s.ledger|;
      assert s'.ledger[..n] == s.ledger && Applied(s.items, s'.ledger[n], s'.items);
    }
  }

  /**
   However handlers interleave and crash and however often tasks are redelivered, the inventory is
   the initial one with each ledger entry applied once.
   */
  lemma {:induction false} InventoryIsReplay(tr: seq<State>, i: nat)
    requires IsRunFromInit(tr) && i < |tr|
    ensures Replays(tr[0].items, tr[i].ledger, tr[i].items)
  {
    if i > 0 {
      hide Next, Init, Replays, Steps;
      InventoryIsReplay(tr, i - 1);
      var a := RunStep(tr, i - 1);
      StepReplays(tr[0].items, tr[i - 1], a, tr[i]);
    }
  }

  predicate Grant(e: Entry, o: nat) { e.task.GrantTask? && e.task.orderId == o }

  predicate Revocation(e: Entry, o: nat) { e.task.RevokeTask? && e.task.orderId == o }

  /** Each order is granted at most once and revoked at most once, and only after its grant. */
  lemma ExactlyOnce(tr: seq<State>, i: nat, o: nat)
    requires IsRunFromInit(tr) && i < |tr|
    ensures var l := tr[i].ledger;
            && (forall j, k | 0 <= j < |l| && 0 <= k < |l| && Grant(l[j], o) && Grant(l[k], o) :: j == k)
            && (forall j, k | 0 <= j < |l| && 0 <= k < |l| && Revocation(l[j], o) && Revocation(l[k], o) :: j == k)
            && (forall k | 0 <= k < |l| && Revocation(l[k], o) :: exists j :: 0 <= j < k && Grant(l[j], o))
  {
    Reachable(tr, i);
    var s := tr[i];
    var l := s.ledger;
    forall j, k | 0 <= j < k < |l| ensures !(Grant(l[j], o) && Grant(l[k], o)) && !(Revocation(l[j], o) && Revocation(l[k], o)) {
      assert TaskOk(s, l[j].task) && TaskOk(s, l[k].task);
    }
    forall k | 0 <= k < |l| && Revocation(l[k], o) ensures exists j :: 0 <= j < k && Grant(l[j], o) {
      assert GrantedBefore(l, k);
      var j :| 0 <= j < k && l[j].task.GrantTask? && l[j].task.orderId == l[k].task.orderId;
      assert Grant(l[j], o);
    }
  }

  // ----- 2. no accepted work is lost

  /** A committed nonce has its ledger entry. */
  lemma CommittedEntry(s: State, o: nat, kind: Kind) returns (i: nat)
    requires Inv(s) && o in s.orders && Nonce(s.orders[o].uid, kind, o) in s.nonces
    ensures i < |s.ledger| && s.ledger[i].task in s.sent
    ensures if kind == GrantKind then Grant(s.ledger[i], o) else Revocation(s.ledger[i], o)
  {
    i :| 0 <= i < |s.ledger| && NonceOf(s.ledger[i].task) == Nonce(s.orders[o].uid, kind, o);
  }

  /** An order that was ever Purchased has its grant queued or committed; refunded after that, its revocation too. */
  lemma NoWorkLost(tr: seq<State>, i: nat, o: nat)
    requires IsRunFromInit(tr) && i < |tr| && o in tr[i].orders
    ensures EverPurchased(tr[i], o) ==> GrantSafe(tr[i], o)
    ensures EverPurchased(tr[i], o) && PhaseOf(tr[i].orders[o]) == RefundedPhase ==> RevokeSafe(tr[i], o)
  {
    Reachable(tr, i);
    assert OrderOk(tr[i], o);
  }

  /** Once the queue is drained, every order ever Purchased was granted, and every one refunded after that was revoked. */
  lemma DrainedMeansDone(tr: seq<State>, i: nat, o: nat)
    requires IsRunFromInit(tr) && i < |tr| && o in tr[i].orders && tr[i].queue == map[] && EverPurchased(tr[i], o)
    ensures exists j :: 0 <= j < |tr[i].ledger| && Grant(tr[i].ledger[j], o)
    ensures PhaseOf(tr[i].orders[o]) == RefundedPhase ==> exists j :: 0 <= j < |tr[i].ledger| && Revocation(tr[i].ledger[j], o)
  {
    Reachable(tr, i);
    NoWorkLost(tr, i, o);
    var _ := CommittedEntry(tr[i], o, GrantKind);
    if PhaseOf(tr[i].orders[o]) == RefundedPhase { var _ := CommittedEntry(tr[i], o, RevokeKind); }
  }

  /** A purchase is consumed at the provider only when some order bound to it has its grant queued or committed. */
  lemma ConsumedMeansGranted(tr: seq<State>, i: nat, c: string)
    requires IsRunFromInit(tr) && i < |tr| && c in tr[i].consumed
    ensures exists o :: o in tr[i].orders && tr[i].orders[o].credentialHash == Some(Sha256(c)) && GrantSafe(tr[i], o)
  {
    Reachable(tr, i);
    assert HeldByPurchased(tr[i], c);
    var o :| o in tr[i].orders && tr[i].orders[o].credentialHash == Some(Sha256(c)) && EverPurchased(tr[i], o);
    assert OrderOk(tr[i], o);
  }

  /**
   "Every refunded order is revoked" fails; the exact condition is that the order was Purchased at
   some time: then, and only then, a refunded order has its revocation queued or committed.
   */
  lemma RefundRevokedIffPurchased(tr: seq<State>, i: nat, o: nat)
    requires IsRunFromInit(tr) && i < |tr| && o in tr[i].orders && PhaseOf(tr[i].orders[o]) == RefundedPhase
    ensures RevokeSafe(tr[i], o) <==> EverPurchased(tr[i], o)
  {
    Reachable(tr, i);
    var s := tr[i];
    assert OrderOk(s, o);
    if RevokeSafe(s, o) {
      if TaskRef(RevokeKind, o) in s.queue {
        assert TaskOk(s, s.queue[TaskRef(RevokeKind, o)]);
      } else {
        var j := CommittedEntry(s, o, RevokeKind);
        assert TaskOk(s, s.ledger[j].task);
      }
    }
  }

  // ----- 3. the rewards of grant and revocation

  /** Whatever a committed transaction used was read from the configuration for that very order. */
  lemma RewardsWereQuoted(tr: seq<State>, i: nat, j: nat)
    requires IsRunFromInit(tr) && i < |tr| && j < |tr[i].ledger|
    ensures var t := tr[i].ledger[j].task; t.orderId in tr[i].quotes && Unmarshal(t.rewards) in tr[i].quotes[t.orderId]
  {
    Reachable(tr, i);
    assert TaskOk(tr[i], tr[i].ledger[j].task);
  }

  ghost predicate SameRewards(s: State, productId: int, list: RewardList) {
    productId in s.products ==> Listed(s.products[productId]) == list
  }

  /** Only `ReadProduct` adds a quote, and what it adds is the list in force. */
  lemma MoveQuotes(s: State, h: nat, o: nat)
    requires Tracked(s) && h in s.handlers && !s.handlers[h].pc.Ask?
    requires o in s.orders && o < s.nextOrderId && o in Advance(s, h).quotes
    requires Advance(s, h).quotes[o] != s.quotes[o]
    ensures var pc := s.handlers[h].pc;
            && pc.ReadProduct? && pc.order.id == o && pc.order.productId in s.products
            && Advance(s, h).quotes[o] == s.quotes[o] + {Listed(s.products[pc.order.productId])}
  {
    if s.handlers[h].pc.ReadProduct? || s.handlers[h].pc.InsertOrder? {
      AdvanceIs(s, h);
      assert s.quotes.Keys == s.orders.Keys;
      hide *;
    } else {
      AdvanceFramed(s, h);
      hide Advance;
    }
  }

  lemma NewOrderUnquoted(s: State, h: nat, o: nat)
    requires Tracked(s) && h in s.handlers && !s.handlers[h].pc.Ask?
    requires o !in s.orders && o in Advance(s, h).orders
    ensures o in Advance(s, h).quotes && Advance(s, h).quotes[o] == {}
  {
    if s.handlers[h].pc.ReadProduct? || s.handlers[h].pc.InsertOrder? {
      AdvanceIs(s, h);
      assert s.quotes.Keys == s.orders.Keys;
      hide *;
    } else {
      AdvanceFramed(s, h);
      hide Advance;
    }
  }

  /** A step quotes nothing but the list in force. */
  lemma StepQuotes(s: State, a: Action, s': State, o: nat, productId: int, list: RewardList)
    requires Inv(s) && Next(s, a, s')
    requires o in s.orders ==> SameRewards(s, productId, list) && o in s.quotes && s.orders[o].productId == productId && s.quotes[o] <= {list}
    requires o in s'.orders && o in s'.quotes
    ensures s'.quotes[o] <= {list}
  {
    if a.Move? {
      if o !in s.orders {
        NewOrderUnquoted(s, a.h, o);
      } else if s'.quotes[o] != s.quotes[o] {
        assert OrderOk(s, o);
        MoveQuotes(s, a.h, o);
        assert HandlerOk(s, s.handlers[a.h]);
      }
    }
  }

  /** While the product's rewards stay the same from the order's creation on, they are the only list ever quoted for it. */
  lemma {:induction false} StableQuotes(tr: seq<State>, i: nat, o: nat, productId: int, list: RewardList)
    requires IsRun(tr) && Inv(tr[0]) && i < |tr|
    requires forall k :: 0 <= k <= i && o in tr[k].orders ==> SameRewards(tr[k], productId, list)
    requires o in tr[0].orders ==> tr[0].quotes[o] == {}
    requires o in tr[i].orders && tr[i].orders[o].productId == productId
    ensures o in tr[i].quotes && tr[i].quotes[o] <= {list}
  {
    RunInv(tr, i, i);
    if i > 0 {
      RunInv(tr, i - 1, i);
      if o in tr[i - 1].orders {
        assert OrderGrows(tr[i - 1], tr[i], o);
        StableQuotes(tr, i - 1, o, productId, list);
      }
      assert Steps(tr[i - 1], tr[i - 1 + 1]);
      var a :| Next(tr[i - 1], a, tr[i]);
      StepQuotes(tr[i - 1], a, tr[i], o, productId, list);
    }
  }

  /**
   While a product's reward configuration stays the same from an order's creation on, the order's
   committed grant and committed revocation use the same list, across retries, stale handlers and snapshot overwrites.
   */
  lemma StableRewardsAgree(tr: seq<State>, i: nat, o: nat, list: RewardList, j: nat, k: nat)
    requires IsRunFromInit(tr) && i < |tr| && o in tr[i].orders
    requires forall n :: 0 <= n <= i && o in tr[n].orders ==> SameRewards(tr[n], tr[i].orders[o].productId, list)
    requires j < |tr[i].ledger| && k < |tr[i].ledger| && Grant(tr[i].ledger[j], o) && Revocation(tr[i].ledger[k], o)
    ensures Unmarshal(tr[i].ledger[j].task.rewards) == Unmarshal(tr[i].ledger[k].task.rewards) == list
  {
    InitInv(tr[0]);
    StableQuotes(tr, i, o, tr[i].orders[o].productId, list);
    RewardsWereQuoted(tr, i, j);
    RewardsWereQuoted(tr, i, k);
  }

  // ----- 4. status histories

  const LIFE: seq<Phase> := [PendingPhase, TimeoutPhase, PurchasedPhase, RefundedPhase]

  /** `a` is `b` with some elements left out. */
  predicate Subsequence<T(==)>(a: seq<T>, b: seq<T>) {
    if a == [] then true
    else if b == [] then false
    else if a[0] == b[0] then Subsequence(a[1..], b[1..])
    else Subsequence(a, b[1..])
  }

  lemma {:induction false} AscendingIsSubsequence(ps: seq<Phase>, from: nat)
    requires from <= 4 && Ascending(ps) && forall p :: p in ps ==> Rank(p) >= from
    ensures Subsequence(ps, LIFE[from..]) && |ps| <= 4 - from
    decreases 4 - from
  {
    if ps != [] {
      assert ps[0] in ps && Rank(ps[0]) >= from;
      assert from < 4 && LIFE[from..][0] == LIFE[from] && LIFE[from..][1..] == LIFE[from + 1..];
      assert LIFE[Rank(ps[0])] == ps[0];
      var rest := if Rank(ps[0]) == from then ps[1..] else ps;
      forall p | p in rest ensures Rank(p) >= from + 1 {
        var i :| 0 <= i < |rest| && rest[i] == p;
        if Rank(ps[0]) == from { assert rest[i] == ps[i + 1]; } else if i > 0 { assert Rank(ps[0]) < Rank(ps[i]); }
      }
      AscendingIsSubsequence(rest, from + 1);
    }
  }

  /** Each order's status history is a subsequence of Pending, timeout-Cancelled, Purchased, refund-Cancelled. */
  lemma StatusHistory(tr: seq<State>, i: nat, o: nat)
    requires IsRunFromInit(tr) && i < |tr| && o in tr[i].orders
    ensures o in tr[i].phases && Subsequence(tr[i].phases[o], LIFE) && 1 <= |tr[i].phases[o]| <= 4
    ensures tr[i].orders[o].status == Cancelled <==> tr[i].orders[o].reason != NoReason
    ensures tr[i].orders[o].status == Cancelled <==> tr[i].orders[o].cancelAt > 0
  {
    Reachable(tr, i);
    assert OrderOk(tr[i], o);
    AscendingIsSubsequence(tr[i].phases[o], 0);
    assert LIFE[0..] == LIFE;
  }

  lemma LastRankGrows(a: seq<Phase>, b: seq<Phase>)
    requires a != [] && a <= b && Ascending(b)
    ensures Rank(a[|a| - 1]) <= Rank(b[|b| - 1])
  {
    assert a[|a| - 1] == b[|a| - 1];
  }

  /** Between any two moments of a run an order's phase can only move up, and refund-Cancelled is final. */
  lemma StatusNeverGoesBack(tr: seq<State>, i: nat, j: nat, o: nat)
    requires IsRunFromInit(tr) && i <= j < |tr| && o in tr[i].orders
    ensures o in tr[j].orders && Rank(PhaseOf(tr[i].orders[o])) <= Rank(PhaseOf(tr[j].orders[o]))
  {
    InitInv(tr[0]);
    RunInv(tr, i, j);
    assert OrderOk(tr[i], o) && OrderGrows(tr[i], tr[j], o) && OrderOk(tr[j], o);
    hide Inv, Grows, OrderOk, OrderGrows;
    LastRankGrows(tr[i].phases[o], tr[j].phases[o]);
  }

  /** How often an order's phase differs from one state of a run to the next. */
  function Changes(tr: seq<State>, o: nat): nat {
    if |tr| < 2 then 0
    else
      var n := |tr| - 1;
      Changes(tr[..n], o)
      + if o in tr[n - 1].orders && o in tr[n].orders && PhaseOf(tr[n - 1].orders[o]) != PhaseOf(tr[n].orders[o]) then 1 else 0
  }

  lemma {:induction false} ChangesBoundedByRank(tr: seq<State>, o: nat)
    requires IsRunFromInit(tr)
    ensures var s := tr[|tr| - 1]; if o in s.orders then Changes(tr, o) <= Rank(PhaseOf(s.orders[o])) else Changes(tr, o) == 0
  {
    var n := |tr| - 1;
    if n > 0 {
      ChangesBoundedByRank(tr[..n], o);
      if o in tr[n - 1].orders {
        StatusNeverGoesBack(tr, n - 1, n, o);
        RankInjective(PhaseOf(tr[n - 1].orders[o]), PhaseOf(tr[n].orders[o]));
      }
    }
  }

  lemma RankInjective(a: Phase, b: Phase)
    ensures Rank(a) == Rank(b) ==> a == b
  {
  }

  /** No run ever changes the status of an order more than three times. */
  lemma AtMostThreeChanges(tr: seq<State>, o: nat)
    requires IsRunFromInit(tr)
    ensures Changes(tr, o) <= 3
  {
    ChangesBoundedByRank(tr, o);
  }

  // ----- 5. credentials

  /** Bindings are write-once, whatever `MarkOrderPurchased` rewrites. */
  lemma BindingsAreWriteOnce(tr: seq<State>, i: nat, j: nat, o: nat)
    requires IsRunFromInit(tr) && i <= j < |tr| && o in tr[i].orders
    ensures o in tr[j].orders && RowGrows(tr[i].orders[o], tr[j].orders[o])
  {
    InitInv(tr[0]);
    RunInv(tr, i, j);
    assert OrderGrows(tr[i], tr[j], o);
  }

  /** The stored credential always hashes to the stored hash, and no two orders of a channel hold the same credential or provider order ID. */
  lemma CredentialsConsistent(tr: seq<State>, i: nat, o: nat, p: nat)
    requires IsRunFromInit(tr) && i < |tr| && o in tr[i].orders && p in tr[i].orders
    ensures var a := tr[i].orders[o]; a.credentialHash == if a.credential.Some? then Some(Sha256(a.credential.value)) else None
    ensures var a, b := tr[i].orders[o], tr[i].orders[p];
            o != p && a.paymentType == b.paymentType ==>
              && (a.credential.Some? ==> a.credential != b.credential)
              && (a.thirdPartyOrderId.Some? ==> a.thirdPartyOrderId != b.thirdPartyOrderId)
  {
    Reachable(tr, i);
    assert OrderOk(tr[i], o) && OrderOk(tr[i], p);
    assert o != p ==> !SameIndexKey(tr[i].orders[o], tr[i].orders[p]);
  }
}
