/** How tasks and nonces are named in the queue and in the nonce table. */
module Names {
  import opened ItemStore
  import opened Protocol
  import Decimal

  const GRANT_TASK := "payment-grant-rewards-"
  const REVOKE_TASK := "payment-revoke-rewards-"
  const GRANT_NONCE := "订单发货-"
  const REVOKE_NONCE := "订单退款-"

  function TaskId(r: TaskRef): string {
    (if r.kind == GrantKind then GRANT_TASK else REVOKE_TASK) + Decimal.Show(r.orderId)
  }

  function NonceText(kind: Kind, orderId: nat): string {
    (if kind == GrantKind then GRANT_NONCE else REVOKE_NONCE) + Decimal.Show(orderId)
  }

  /** The indexed columns of a nonce row. */
  function IndexKey(n: Nonce): NonceKey {
    NonceKey(n.uid, NonceText(n.kind, n.orderId), if n.kind == GrantKind then GrantOp else RevokeOp)
  }

  /** What the names look like. */
  lemma NamesLookLike(n: nat)
    ensures TaskId(TaskRef(GrantKind, n)) == "payment-grant-rewards-" + Decimal.Show(n)
    ensures TaskId(TaskRef(RevokeKind, n)) == "payment-revoke-rewards-" + Decimal.Show(n)
    ensures NonceText(GrantKind, n) == "订单发货-" + Decimal.Show(n) && NonceText(RevokeKind, n) == "订单退款-" + Decimal.Show(n)
    ensures Decimal.Show(42) == "42"
  {
    assert Decimal.Show(4) == "4";
  }

  /** Task IDs of distinct orders, and the two task IDs of one order, never collide. */
  lemma TaskIdsDistinct(a: TaskRef, b: TaskRef)
    requires TaskId(a) == TaskId(b)
    ensures a == b
  {
    assert TaskId(a)[8] == if a.kind == GrantKind then 'g' else 'r';
    assert TaskId(b)[8] == if b.kind == GrantKind then 'g' else 'r';
    Decimal.PrefixedInjective(if a.kind == GrantKind then GRANT_TASK else REVOKE_TASK, a.orderId, b.orderId);
  }

  /** Nonce texts of distinct orders, and the two of one order, never collide. */
  lemma NonceTextsDistinct(k: Kind, a: nat, l: Kind, b: nat)
    requires NonceText(k, a) == NonceText(l, b)
    ensures k == l && a == b
  {
    assert NonceText(k, a)[2] == if k == GrantKind then '发' else '退';
    assert NonceText(l, b)[2] == if l == GrantKind then '发' else '退';
    Decimal.PrefixedInjective(if k == GrantKind then GRANT_NONCE else REVOKE_NONCE, a, b);
  }

  /** The nonce table as rows of indexed columns. */
  function NonceRows(nonces: set<Nonce>): set<NonceKey> { set n | n in nonces :: IndexKey(n) }

  /** Looking a nonce up by its columns finds exactly that nonce. */
  lemma NonceLookup(nonces: set<Nonce>, n: Nonce)
    ensures IndexKey(n) in NonceRows(nonces) <==> n in nonces
    ensures NonceRows(nonces + {n}) == NonceRows(nonces) + {IndexKey(n)}
  {
    if IndexKey(n) in NonceRows(nonces) {
      var m :| m in nonces && IndexKey(m) == IndexKey(n);
      NonceTextsDistinct(m.kind, m.orderId, n.kind, n.orderId);
    }
    forall k | k in NonceRows(nonces) + {IndexKey(n)} ensures k in NonceRows(nonces + {n}) {
      if k != IndexKey(n) {
        var m :| m in nonces && IndexKey(m) == k;
        assert m in nonces + {n};
      }
    }
  }

  /** Looking a task up by its ID finds exactly that task. */
  lemma TaskLookup(queue: map<TaskRef, Task>, r: TaskRef)
    ensures TaskId(r) in (set q | q in queue :: TaskId(q)) <==> r in queue
  {
    if TaskId(r) in (set q | q in queue :: TaskId(q)) {
      var q :| q in queue && TaskId(q) == TaskId(r);
      TaskIdsDistinct(q, r);
    }
  }
}

/** The queue's task handlers: each delivery is a `Deliver` step of the protocol, or changes nothing. */
module TaskHandlers {
  import opened Common
  import opened Items
  import opened ItemStore
  import opened Orders
  import opened Protocol
  import opened Names

  /** The store holds the inventory and the nonce rows of a protocol state. */
  ghost predicate Holds(inv: Inventory, nonces: set<NonceKey>, s: State) {
    inv == s.items && nonces == NonceRows(s.nonces)
  }

  /** Success means the nonce is there; the transaction is committed by this delivery or was by an earlier one. */
  method ProcessGrantTask(store: Store, task: Task, stacks: map<int, StackMode>, now: int, clock: nat -> int, ghost s: State) returns (ok: bool)
    requires task.GrantTask? && Valid(store.inv) && forall k :: clock(k) >= now
    requires Holds(store.inv, store.nonces, s) && s.stacks == stacks && s.now == now
    modifies store
    ensures Valid(store.inv)
    ensures ok <==> NonceOf(task) in s.nonces || Commits(s, task, store.inv)
    ensures ok && NonceOf(task) !in s.nonces ==> Holds(store.inv, store.nonces, s.(items := store.inv, nonces := s.nonces + {NonceOf(task)}))
    ensures !ok || NonceOf(task) in s.nonces ==> Holds(store.inv, store.nonces, s)
  {
    NonceLookup(s.nonces, NonceOf(task));
    var rewards := Unmarshal(task.rewards);
    var r := store.AddItems(task.uid, NonceText(GrantKind, task.orderId), rewards, stacks, now, clock);
    if r.RolledBack? { BadRewardBlocks(s.items, task.uid, rewards, stacks, now, store.inv); }
    ok := r.Committed? || r.AlreadyDone?;
  }

  /** A list with a bad entry cannot be granted. */
  lemma {:induction false} BadRewardBlocks(t: Inventory, uid: nat, rewards: RewardList, stacks: map<int, StackMode>, now: int, t': Inventory)
    requires exists k :: 0 <= k < |rewards| && !Grantable(rewards[k], stacks)
    ensures !Grants(t, uid, rewards, stacks, now, t')
    decreases |rewards|
  {
    if Grants(t, uid, rewards, stacks, now, t') {
      var mid :| Granted1(t, uid, rewards[0], stacks, now, mid) && Grants(mid, uid, rewards[1..], stacks, now, t');
      var k :| 0 <= k < |rewards| && !Grantable(rewards[k], stacks);
      assert !Grantable(rewards[1..][k - 1], stacks);
      BadRewardBlocks(mid, uid, rewards[1..], stacks, now, t');
    }
  }

  /** A revocation waits until its grant is committed: until then the delivery fails and its entry stays queued. */
  method ProcessRevokeTask(store: Store, task: Task, now: int, ghost s: State) returns (ok: bool)
    requires task.RevokeTask? && Valid(store.inv)
    requires Holds(store.inv, store.nonces, s) && s.now == now
    modifies store
    ensures Valid(store.inv)
    ensures ok ==> Nonce(task.uid, GrantKind, task.orderId) in s.nonces
    ensures ok ==> NonceOf(task) in s.nonces || Commits(s, task, store.inv)
    ensures Nonce(task.uid, GrantKind, task.orderId) in s.nonces && None !in Unmarshal(task.rewards) ==> ok
    ensures ok && NonceOf(task) !in s.nonces ==> Holds(store.inv, store.nonces, s.(items := store.inv, nonces := s.nonces + {NonceOf(task)}))
    ensures !ok || NonceOf(task) in s.nonces ==> Holds(store.inv, store.nonces, s)
  {
    NonceLookup(s.nonces, NonceOf(task));
    NonceLookup(s.nonces, Nonce(task.uid, GrantKind, task.orderId));
    var r := store.RevokeItems(task.uid, NonceText(GrantKind, task.orderId), NonceText(RevokeKind, task.orderId), Unmarshal(task.rewards), now);
    ok := r.Committed? || r.AlreadyDone?;
  }
}
