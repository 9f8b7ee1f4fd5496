/** Item transactions always have an outcome: nothing but a bad reward list can block a task. */
module ItemProgress {
  import opened Common
  import opened Items
  import opened ItemLaws
  import opened ItemStore

  /** A matching row that no other matching row comes before. */
  lemma {:induction false} FirstMatch(rows: map<nat, Row>, n: nat, f: Filter) returns (id: nat)
    requires exists k :: k in rows && k < n && Matches(rows[k], f)
    ensures id in rows && id < n && Matches(rows[id], f)
    ensures forall k :: k in rows && k < n && Matches(rows[k], f) ==> !Before(rows[k], rows[id])
  {
    if exists k :: k in rows && k < n - 1 && Matches(rows[k], f) {
      id := FirstMatch(rows, n - 1, f);
      if n - 1 in rows && Matches(rows[n - 1], f) && Before(rows[n - 1], rows[id]) { id := n - 1; }
    } else {
      id := n - 1;
    }
  }

  lemma CountStackedPossible(t: Inventory, uid: nat, itemId: int, count: int, expireAt: int, now: int) returns (t': Inventory)
    ensures CountStacked(t, uid, itemId, count, expireAt, now, t')
  {
    if count <= 0 {
      t' := t;
    } else if id :| id in t.rows && SameBatch(t.rows[id], uid, itemId, expireAt) {
      t' := Update(t, id, TopUp(t.rows[id], count, now));
    } else {
      t' := Insert(t, Row(uid, itemId, count, 0, expireAt, now, now));
    }
  }

  lemma TimeStackedPossible(t: Inventory, uid: nat, itemId: int, count: int, expireAt: int, now: int) returns (t': Inventory)
    requires Valid(t)
    ensures TimeStacked(t, uid, itemId, count, expireAt, now, t')
  {
    if count <= 0 || (expireAt != 0 && expireAt <= now) {
      t' := t;
    } else if expireAt == 0 {
      t' := CountStackedPossible(t, uid, itemId, count, expireAt, now);
    } else {
      var end := now + (expireAt - now) * count + Total(t, Seconds(uid, itemId, now));
      if exists id :: id in t.rows && Timed(t.rows[id], uid, itemId, now) {
        var id := FirstMatch(t.rows, t.nextId, TimedRows(uid, itemId, now));
        t' := Merged(t, id, uid, itemId, now, end);
        assert FirstToExpire(t, id, uid, itemId, now);
      } else {
        t' := Insert(t, Row(uid, itemId, 1, 0, end, now, now));
      }
    }
  }

  /** Every list of configured rewards can be granted. */
  lemma {:induction false} GrantsPossible(t: Inventory, uid: nat, rewards: RewardList, config: map<int, StackMode>, now: int) returns (t': Inventory)
    requires Valid(t) && forall r :: r in rewards ==> Grantable(r, config)
    ensures Grants(t, uid, rewards, config, now, t')
    decreases |rewards|
  {
    if rewards == [] {
      t' := t;
    } else {
      assert rewards[0] in rewards;
      var r := rewards[0].value;
      var mid;
      if config[r.itemTypeId].TimeStack? {
        mid := TimeStackedPossible(t, uid, r.itemTypeId, r.count, Expiry(r, now), now);
        TimeStackedValid(t, uid, r.itemTypeId, r.count, Expiry(r, now), now, mid);
      } else {
        mid := CountStackedPossible(t, uid, r.itemTypeId, r.count, Expiry(r, now), now);
        CountStackedValid(t, uid, r.itemTypeId, r.count, Expiry(r, now), now, mid);
      }
      t' := GrantsPossible(mid, uid, rewards[1..], config, now);
      assert Stacked(t, uid, r, config[r.itemTypeId], now, now, mid);
      assert Granted1(t, uid, rewards[0], config, now, mid);
    }
  }

  /** Emptying one row and then debiting the rest takes min(count, available) in all. */
  lemma TotalAfterFirst(t: Inventory, uid: nat, itemId: int, count: int, now: int, id: nat, mid: Inventory, t': Inventory)
    requires id in t.rows && id < t.nextId && Usable(t.rows[id], uid, itemId, now) && Left(t.rows[id]) < count
    requires mid == Update(t, id, t.rows[id].(used := t.rows[id].count, updateAt := now))
    requires Revoked(mid, uid, itemId, count - Left(t.rows[id]), now, t')
    ensures var m := Units(uid, itemId, now); Total(t', m) == Total(t, m) - Min(count, Total(t, m))
  {
    var m := Units(uid, itemId, now);
    SumChangesAt(t.rows, mid.rows, t.nextId, id, m);
    SumNonNegative(mid.rows, mid.nextId, m);
    hide Debited, Touched, Before, Sum;
  }

  /** Taking everything from the first usable row and then revoking the rest is one revocation. */
  lemma RevokedAfterFirst(t: Inventory, uid: nat, itemId: int, count: int, now: int, id: nat, mid: Inventory, t': Inventory)
    requires id in t.rows && id < t.nextId && Usable(t.rows[id], uid, itemId, now) && Left(t.rows[id]) < count
    requires forall k :: k in t.rows && Usable(t.rows[k], uid, itemId, now) ==> !Before(t.rows[k], t.rows[id])
    requires mid == Update(t, id, t.rows[id].(used := t.rows[id].count, updateAt := now))
    requires Revoked(mid, uid, itemId, count - Left(t.rows[id]), now, t')
    ensures Revoked(t, uid, itemId, count, now, t')
  {
    hide Sum, Total;
    TotalAfterFirst(t, uid, itemId, count, now, id, mid, t');
    assert Debited(mid.rows[id], t'.rows[id], uid, itemId, now) && t'.rows[id] == mid.rows[id];
    forall b | b in t.rows && b != id ensures Touched(t, t', b) <==> Touched(mid, t', b) { assert mid.rows[b] == t.rows[b]; }
    assert Left(t'.rows[id]) == 0;
    forall a, b | Touched(t, t', b) && a in t.rows && Usable(t.rows[a], uid, itemId, now) && Before(t.rows[a], t.rows[b])
      ensures Left(t'.rows[a]) == 0
    {
      if a != id && b != id { assert Touched(mid, t', b) && mid.rows[a] == t.rows[a] && mid.rows[b] == t.rows[b]; }
    }
    hide Before, Usable;
  }

  lemma {:induction false} RevokedPossible(t: Inventory, uid: nat, itemId: int, count: int, now: int) returns (t': Inventory)
    requires Valid(t) && count > 0
    ensures Revoked(t, uid, itemId, count, now, t')
    decreases count
  {
    var m := Units(uid, itemId, now);
    SumNonNegative(t.rows, t.nextId, m);
    if !exists k :: k in t.rows && Usable(t.rows[k], uid, itemId, now) {
      t' := t;
      SumZero(t.rows, t.nextId, m);
    } else {
      var id := FirstMatch(t.rows, t.nextId, UsableRows(uid, itemId, now));
      var left := Left(t.rows[id]);
      if left >= count {
        t' := Update(t, id, t.rows[id].(used := t.rows[id].used + count, updateAt := now));
        SumChangesAt(t.rows, t'.rows, t.nextId, id, m);
        SumNonNegative(t'.rows, t'.nextId, m);
      } else {
        var mid := Update(t, id, t.rows[id].(used := t.rows[id].count, updateAt := now));
        t' := RevokedPossible(mid, uid, itemId, count - left, now);
        RevokedAfterFirst(t, uid, itemId, count, now, id, mid, t');
      }
    }
  }

  /** Every list without nil entries can be revoked. */
  lemma {:induction false} RevokesPossible(t: Inventory, uid: nat, rewards: RewardList, now: int) returns (t': Inventory)
    requires Valid(t) && None !in rewards
    ensures Revokes(t, uid, rewards, now, t')
    decreases |rewards|
  {
    if rewards == [] {
      t' := t;
    } else {
      assert rewards[0] in rewards && rewards[0].Some?;
      var r := rewards[0].value;
      var mid := t;
      if r.count > 0 { mid := RevokedPossible(t, uid, r.itemTypeId, r.count, now); }
      assert Revoked1(t, uid, rewards[0], now, mid);
      t' := RevokesPossible(mid, uid, rewards[1..], now);
    }
  }
}
