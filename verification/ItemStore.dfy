/** The item store: each transaction as it runs against the tables, with its loops and its rollback. */
module ItemStore {
  import opened Common
  import opened Items
  import opened ItemLaws

  datatype Operation = GrantOp | UseOp | RevokeOp

  /** The unique index of the nonce table: (uid, nonce, op_type). */
  datatype NonceKey = NonceKey(uid: nat, text: string, op: Operation)

  datatype Filter =
    | UsableRows(uid: nat, itemId: int, now: int)
    | TimedRows(uid: nat, itemId: int, now: int)

  predicate Matches(r: Row, f: Filter) {
    match f
    case UsableRows(uid, itemId, now) => Usable(r, uid, itemId, now)
    case TimedRows(uid, itemId, now) => Timed(r, uid, itemId, now)
  }

  ghost predicate Ordered(q: seq<nat>, rows: map<nat, Row>) {
    && (forall i :: 0 <= i < |q| ==> q[i] in rows)
    && forall i, j :: 0 <= i < j < |q| ==> q[i] != q[j] && !Before(rows[q[j]], rows[q[i]])
  }

  /** `q` lists exactly the matching rows, each once, in the query's order (ties in any order). */
  ghost predicate Selects(q: seq<nat>, rows: map<nat, Row>, f: Filter) {
    && Ordered(q, rows)
    && forall id :: id in q <==> id in rows && Matches(rows[id], f)
  }

  function Place(q: seq<nat>, id: nat, rows: map<nat, Row>): (r: seq<nat>)
    requires id in rows && forall k :: k in q ==> k in rows
    ensures forall k :: k in r <==> k == id || k in q
    ensures |r| == |q| + 1
  {
    if q == [] then [id]
    else if Before(rows[id], rows[q[0]]) then [id] + q
    else
      assert forall k :: k in q <==> k == q[0] || k in q[1..];
      [q[0]] + Place(q[1..], id, rows)
  }

  lemma {:induction false} PlaceOrdered(q: seq<nat>, id: nat, rows: map<nat, Row>)
    requires id in rows && Ordered(q, rows) && id !in q
    ensures Ordered(Place(q, id, rows), rows)
  {
    var r := Place(q, id, rows);
    if q != [] && !Before(rows[id], rows[q[0]]) {
      PlaceOrdered(q[1..], id, rows);
      var tail := Place(q[1..], id, rows);
      forall j | 0 < j < |r| ensures r[j] != q[0] && !Before(rows[r[j]], rows[q[0]]) {
        assert r[j] == tail[j - 1] && tail[j - 1] in tail;
      }
      assert forall i, j :: 0 < i < j < |r| ==> r[i] == tail[i - 1] && r[j] == tail[j - 1];
    }
  }

  datatype TxResult = Committed | AlreadyDone | GrantMissing | RolledBack

  lemma GrantsNothing(t: Inventory, uid: nat, config: map<int, StackMode>, now: int)
    ensures Grants(t, uid, [], config, now, t)
  {
  }

  lemma {:induction false} GrantsThenOne(t: Inventory, uid: nat, rewards: RewardList, config: map<int, StackMode>, now: int,
                                         mid: Inventory, r: Option<Reward>, t': Inventory)
    requires Grants(t, uid, rewards, config, now, mid) && Granted1(mid, uid, r, config, now, t')
    ensures Grants(t, uid, rewards + [r], config, now, t')
    decreases |rewards|
  {
    if rewards == [] {
      assert Grants(t', uid, ([r])[1..], config, now, t');
      assert rewards + [r] == [r];
    } else {
      var first :| Granted1(t, uid, rewards[0], config, now, first) && Grants(first, uid, rewards[1..], config, now, mid);
      GrantsThenOne(first, uid, rewards[1..], config, now, mid, r, t');
      assert (rewards + [r])[1..] == rewards[1..] + [r];
    }
  }

  lemma {:induction false} RevokesThenOne(t: Inventory, uid: nat, rewards: RewardList, now: int,
                                          mid: Inventory, r: Option<Reward>, t': Inventory)
    requires Revokes(t, uid, rewards, now, mid) && Revoked1(mid, uid, r, now, t')
    ensures Revokes(t, uid, rewards + [r], now, t')
    decreases |rewards|
  {
    if rewards == [] {
      assert Revokes(t', uid, ([r])[1..], now, t');
      assert rewards + [r] == [r];
    } else {
      var first :| Revoked1(t, uid, rewards[0], now, first) && Revokes(first, uid, rewards[1..], now, mid);
      RevokesThenOne(first, uid, rewards[1..], now, mid, r, t');
      assert (rewards + [r])[1..] == rewards[1..] + [r];
    }
  }

  /** A reward that is there, of a configured type with one of the two stack modes. */
  predicate Known(r: Option<Reward>, config: map<int, StackMode>) {
    && r.Some? && r.value.itemTypeId in config
    && (config[r.value.itemTypeId] == CountStack || config[r.value.itemTypeId] == TimeStack)
  }

  class Store {
    var inv: Inventory
    var nonces: set<NonceKey>

    constructor ()
      ensures Valid(inv) && inv.rows == map[] && nonces == {}
    {
      inv := Inventory(map[], 0);
      nonces := {};
    }

    /** `SELECT ... ORDER BY (expire_at_unix = 0) ASC, expire_at_unix ASC`. */
    method Query(f: Filter) returns (q: seq<nat>)
      requires Valid(inv)
      ensures Selects(q, inv.rows, f)
    {
      q := [];
      for id := 0 to inv.nextId
        invariant Ordered(q, inv.rows)
        invariant forall k :: k in q <==> k < id && k in inv.rows && Matches(inv.rows[k], f)
      {
        if id in inv.rows && Matches(inv.rows[id], f) {
          PlaceOrdered(q, id, inv.rows);
          q := Place(q, id, inv.rows);
        }
      }
    }

    /** Returns the units left on the row it inserted or topped up, 0 when there is nothing to add. */
    method AddUnlimited(uid: nat, itemId: int, count: int, expireAt: int, now: int) returns (left: int)
      requires Valid(inv)
      modifies this`inv
      ensures Valid(inv) && CountStacked(old(inv), uid, itemId, count, expireAt, now, inv)
      ensures count <= 0 ==> left == 0
      ensures count > 0 ==> exists id :: id in inv.rows && SameBatch(inv.rows[id], uid, itemId, expireAt) && left == Left(inv.rows[id])
    {
      if count <= 0 { return 0; }
      if id :| id in inv.rows && SameBatch(inv.rows[id], uid, itemId, expireAt) {
        left := inv.rows[id].count + count - inv.rows[id].used;
        inv := Update(inv, id, TopUp(inv.rows[id], count, now));
        assert id in inv.rows && left == Left(inv.rows[id]);
      } else {
        ghost var id := inv.nextId;
        inv := Insert(inv, Row(uid, itemId, count, 0, expireAt, now, now));
        left := count;
        assert id in inv.rows && left == Left(inv.rows[id]);
      }
    }

    method AddTimeStack(uid: nat, itemId: int, count: int, expireAt: int, now: int) returns (left: int)
      requires Valid(inv)
      modifies this`inv
      ensures Valid(inv) && TimeStacked(old(inv), uid, itemId, count, expireAt, now, inv)
      ensures count <= 0 || (expireAt != 0 && expireAt <= now) ==> left == 0
      ensures count > 0 && expireAt != 0 && expireAt > now ==> left == 1
    {
      if count <= 0 { return 0; }
      if expireAt == 0 {
        left := AddUnlimited(uid, itemId, count, expireAt, now);
        return;
      }
      var unitDuration := expireAt - now;
      if unitDuration <= 0 { return 0; }

      var q := Query(TimedRows(uid, itemId, now));
      var totalDuration := SumDurations(q, uid, itemId, now, unitDuration * count);
      var end := now + totalDuration;
      left := 1;
      if |q| == 0 {
        inv := Insert(inv, Row(uid, itemId, 1, 0, end, now, now));
        TimeStackedValid(old(inv), uid, itemId, count, expireAt, now, inv);
        return;
      }

      var keep := q[0];
      ghost var before := inv;
      for k := 1 to |q|
        invariant inv.nextId == before.nextId
        invariant inv.rows == before.rows - (set j | 1 <= j < k :: q[j])
      {
        inv := inv.(rows := inv.rows - {q[k]});
      }
      assert keep in inv.rows by { assert forall j :: 1 <= j < |q| ==> q[0] != q[j]; }
      inv := Update(inv, keep, inv.rows[keep].(count := 1, used := 0, expireAt := end, updateAt := now));
      MergedByDeletes(before, q, uid, itemId, now, end);
      assert FirstToExpire(before, keep, uid, itemId, now) by { HeadExpiresFirst(before, q, uid, itemId, now); }
      TimeStackedValid(before, uid, itemId, count, expireAt, now, inv);
    }

    /** The merge loop: `start` plus the remaining time of every selected row that has units left. */
    method SumDurations(q: seq<nat>, uid: nat, itemId: int, now: int, start: int) returns (totalDuration: int)
      requires Valid(inv) && Selects(q, inv.rows, TimedRows(uid, itemId, now))
      ensures totalDuration == start + Total(inv, Seconds(uid, itemId, now))
    {
      totalDuration := start;
      ghost var m := Seconds(uid, itemId, now);
      ghost var rest := inv.rows;
      for k := 0 to |q|
        invariant rest == inv.rows - (set j | 0 <= j < k :: q[j])
        invariant totalDuration + Sum(rest, inv.nextId, m) == start + Total(inv, m)
      {
        var row := inv.rows[q[k]];
        var available := row.count - row.used;
        if available > 0 {
          totalDuration := totalDuration + (row.expireAt - now) * available;
        }
        assert q[k] in rest by { assert forall j :: 0 <= j < k ==> q[j] != q[k]; }
        assert q[k] in q;
        ghost var rest' := rest - {q[k]};
        SumChangesAt(rest, rest', inv.nextId, q[k], m);
        rest := rest';
      }
      SumZero(rest, inv.nextId, m);
    }

    /** The deduction loop of a revocation. */
    method RevokeItem(uid: nat, itemId: int, count: int, now: int)
      requires Valid(inv) && count > 0
      modifies this`inv
      ensures Valid(inv) && Revoked(old(inv), uid, itemId, count, now, inv)
    {
      var q := Query(UsableRows(uid, itemId, now));
      ghost var before := inv;
      ghost var m := Units(uid, itemId, now);
      var remaining := count;
      var k := 0;
      while k < |q| && remaining > 0
        invariant 0 <= k <= |q| && 0 <= remaining <= count
        invariant inv.nextId == before.nextId && inv.rows.Keys == before.rows.Keys
        invariant forall id :: id in before.rows ==> Debited(before.rows[id], inv.rows[id], uid, itemId, now)
        invariant forall id :: id in before.rows && id !in q[..k] ==> inv.rows[id] == before.rows[id]
        invariant Total(inv, m) == Total(before, m) - (count - remaining)
        invariant forall j :: 0 <= j < k && (remaining > 0 || j < k - 1) ==> Left(inv.rows[q[j]]) == 0
      {
        var id := q[k];
        assert id in q;
        assert id !in q[..k] by { assert forall j :: 0 <= j < k ==> q[j] != q[k]; }
        var row := inv.rows[id];
        var available := row.count - row.used;
        var deduct := Min(available, remaining);
        ghost var prior := inv;
        inv := Update(inv, id, row.(used := row.used + deduct, updateAt := now));
        SumChangesAt(prior.rows, inv.rows, inv.nextId, id, m);
        assert forall x :: x in q[..k + 1] <==> x in q[..k] || x == id;
        remaining := remaining - deduct;
        k := k + 1;
      }
      RevokeDone(before, q, k, remaining, uid, itemId, count, now, inv);
    }

    /**
     The grant transaction. The nonce row and the rewards commit together; a nonce that is
     already there ends the call without touching the inventory, a bad reward rolls back. `clock(k)`
     is the reading made for the `k`th reward.
     */
    method AddItems(uid: nat, nonce: string, rewards: RewardList, config: map<int, StackMode>, now: int, clock: nat -> int) returns (r: TxResult)
      requires Valid(inv) && forall k :: clock(k) >= now
      modifies this
      ensures Valid(inv)
      ensures r.AlreadyDone? <==> NonceKey(uid, nonce, GrantOp) in old(nonces)
      ensures r.Committed? <==> NonceKey(uid, nonce, GrantOp) !in old(nonces) && forall k :: 0 <= k < |rewards| ==> Grantable(rewards[k], config)
      ensures r.Committed? || r.AlreadyDone? || r.RolledBack?
      ensures r.Committed? <==> NonceKey(uid, nonce, GrantOp) !in old(nonces) && forall k :: 0 <= k < |rewards| ==> Known(rewards[k], config)
      ensures r.Committed? ==> nonces == old(nonces) + {NonceKey(uid, nonce, GrantOp)}
                               && Grants(old(inv), uid, rewards, config, now, inv)
      ensures !r.Committed? ==> nonces == old(nonces) && inv == old(inv)
    {
      hide CountStacked, TimeStacked, Valid, Grants;
      GrantsNothing(inv, uid, config, now);
      var savedInv, savedNonces := inv, nonces;
      var key := NonceKey(uid, nonce, GrantOp);
      if key in nonces { return AlreadyDone; }
      nonces := nonces + {key};
      for k := 0 to |rewards|
        invariant Valid(inv) && nonces == savedNonces + {key}
        invariant Grants(savedInv, uid, rewards[..k], config, now, inv)
        invariant forall j :: 0 <= j < k ==> Grantable(rewards[j], config)
      {
        var reward := rewards[k];
        if reward.None? || reward.value.itemTypeId !in config || config[reward.value.itemTypeId].OtherStack? {
          inv, nonces := savedInv, savedNonces;
          return RolledBack;
        }
        ghost var prior := inv;
        var expireAt := Expiry(reward.value, now);
        if config[reward.value.itemTypeId].TimeStack? {
          var _ := AddTimeStack(uid, reward.value.itemTypeId, reward.value.count, expireAt, clock(k));
        } else {
          var _ := AddUnlimited(uid, reward.value.itemTypeId, reward.value.count, expireAt, clock(k));
        }
        assert Stacked(prior, uid, reward.value, config[reward.value.itemTypeId], now, clock(k), inv);
        GrantsThenOne(savedInv, uid, rewards[..k], config, now, prior, reward, inv);
        assert rewards[..k + 1] == rewards[..k] + [reward];
      }
      assert rewards[..|rewards|] == rewards;
      r := Committed;
    }

    /** The revocation transaction: refused until the grant nonce is there, and done at most once. */
    method RevokeItems(uid: nat, grantNonce: string, revokeNonce: string, rewards: RewardList, now: int) returns (r: TxResult)
      requires Valid(inv)
      modifies this
      ensures Valid(inv)
      ensures r.GrantMissing? <==> NonceKey(uid, grantNonce, GrantOp) !in old(nonces)
      ensures r.AlreadyDone? <==> !r.GrantMissing? && NonceKey(uid, revokeNonce, RevokeOp) in old(nonces)
      ensures r.RolledBack? <==> !r.GrantMissing? && !r.AlreadyDone? && None in rewards
      ensures r.Committed? ==> nonces == old(nonces) + {NonceKey(uid, revokeNonce, RevokeOp)}
                               && Revokes(old(inv), uid, rewards, now, inv)
      ensures !r.Committed? ==> nonces == old(nonces) && inv == old(inv)
    {
      var savedInv, savedNonces := inv, nonces;
      if NonceKey(uid, grantNonce, GrantOp) !in nonces { return GrantMissing; }
      var key := NonceKey(uid, revokeNonce, RevokeOp);
      if key in nonces { return AlreadyDone; }
      nonces := nonces + {key};
      for k := 0 to |rewards|
        invariant Valid(inv) && nonces == savedNonces + {key}
        invariant Revokes(savedInv, uid, rewards[..k], now, inv)
        invariant None !in rewards[..k]
      {
        var reward := rewards[k];
        if reward.None? {
          inv, nonces := savedInv, savedNonces;
          return RolledBack;
        }
        ghost var prior := inv;
        if reward.value.count > 0 {
          RevokeItem(uid, reward.value.itemTypeId, reward.value.count, now);
        }
        RevokesThenOne(savedInv, uid, rewards[..k], now, prior, reward, inv);
        assert rewards[..k + 1] == rewards[..k] + [reward];
      }
      assert rewards[..|rewards|] == rewards;
      r := Committed;
    }
  }

  // ----- proof steps of the loops

  lemma HeadExpiresFirst(t: Inventory, q: seq<nat>, uid: nat, itemId: int, now: int)
    requires Selects(q, t.rows, TimedRows(uid, itemId, now)) && q != []
    ensures FirstToExpire(t, q[0], uid, itemId, now)
  {
    assert q[0] in q;
    forall k | k in t.rows && Timed(t.rows[k], uid, itemId, now)
      ensures !Before(t.rows[k], t.rows[q[0]])
    {
      assert k in q;
      var j :| 0 <= j < |q| && q[j] == k;
    }
  }

  lemma MergedByDeletes(t: Inventory, q: seq<nat>, uid: nat, itemId: int, now: int, end: int)
    requires Selects(q, t.rows, TimedRows(uid, itemId, now)) && q != []
    ensures var kept := t.rows - (set j | 1 <= j < |q| :: q[j]);
            && q[0] in kept
            && kept[q[0] := kept[q[0]].(count := 1, used := 0, expireAt := end, updateAt := now)]
               == Merged(t, q[0], uid, itemId, now, end).rows
  {
    var gone := set j | 1 <= j < |q| :: q[j];
    assert q[0] in q && q[0] !in gone;
    forall id | id in t.rows ensures id in gone <==> id != q[0] && Timed(t.rows[id], uid, itemId, now) {
      if id != q[0] && Timed(t.rows[id], uid, itemId, now) {
        assert id in q;
        var j :| 0 <= j < |q| && q[j] == id;
        assert q[j] in gone;
      }
      if id in gone {
        var j :| 1 <= j < |q| && q[j] == id;
        assert q[j] in q;
      }
    }
  }

  /** When every selected row is empty, nothing of the type is left. */
  lemma NothingLeft(t: Inventory, q: seq<nat>, uid: nat, itemId: int, now: int, t': Inventory)
    requires Selects(q, t.rows, UsableRows(uid, itemId, now)) && t'.rows.Keys == t.rows.Keys
    requires forall id :: id in t.rows ==> Debited(t.rows[id], t'.rows[id], uid, itemId, now)
    requires forall j :: 0 <= j < |q| ==> Left(t'.rows[q[j]]) == 0
    ensures Total(t', Units(uid, itemId, now)) == 0
  {
    var m := Units(uid, itemId, now);
    forall id: nat | id < t'.nextId ensures Share(t'.rows, id, m) == 0 {
      if id in t'.rows && Usable(t.rows[id], uid, itemId, now) {
        assert id in q;
        var j :| 0 <= j < |q| && q[j] == id;
      }
    }
    SumZero(t'.rows, t'.nextId, m);
  }

  lemma RevokeDone(t: Inventory, q: seq<nat>, k: nat, remaining: int, uid: nat, itemId: int, count: int, now: int, t': Inventory)
    requires Selects(q, t.rows, UsableRows(uid, itemId, now)) && k <= |q|
    requires 0 <= remaining <= count && count > 0 && (k == |q| || remaining == 0)
    requires t'.nextId == t.nextId && t'.rows.Keys == t.rows.Keys
    requires forall id :: id in t.rows ==> Debited(t.rows[id], t'.rows[id], uid, itemId, now)
    requires forall id :: id in t.rows && id !in q[..k] ==> t'.rows[id] == t.rows[id]
    requires Total(t', Units(uid, itemId, now)) == Total(t, Units(uid, itemId, now)) - (count - remaining)
    requires forall j :: 0 <= j < k && (remaining > 0 || j < k - 1) ==> Left(t'.rows[q[j]]) == 0
    ensures Revoked(t, uid, itemId, count, now, t')
  {
    var m := Units(uid, itemId, now);
    SumNonNegative(t'.rows, t'.nextId, m);
    if remaining > 0 { NothingLeft(t, q, uid, itemId, now, t'); }
    assert Total(t', m) == Total(t, m) - Min(count, Total(t, m));
    hide Sum, Total;
    forall a, b | Touched(t, t', b) && a in t.rows && Usable(t.rows[a], uid, itemId, now) && Before(t.rows[a], t.rows[b])
      ensures Left(t'.rows[a]) == 0
    {
      assert b in q[..k];
      assert a in q;
      var j :| 0 <= j < k && q[j] == b;
      var i :| 0 <= i < |q| && q[i] == a;
      assert i < j;
    }
    forall a, b | Touched(t, t', a) && Touched(t, t', b) && a != b
      ensures Left(t'.rows[a]) == 0 || Left(t'.rows[b]) == 0
    {
      assert a in q[..k] && b in q[..k];
      var i :| 0 <= i < k && q[i] == a;
      var j :| 0 <= j < k && q[j] == b;
    }
  }
}
