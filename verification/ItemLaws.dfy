/** Conservation laws of the inventory transactions, for every table and every reward list. */
module ItemLaws {
  import opened Common
  import opened Items

  // ----- rows stay well formed

  lemma CountStackedValid(t: Inventory, uid: nat, itemId: int, count: int, expireAt: int, now: int, t': Inventory)
    requires Valid(t) && CountStacked(t, uid, itemId, count, expireAt, now, t')
    ensures Valid(t')
  {
  }

  lemma TimeStackedValid(t: Inventory, uid: nat, itemId: int, count: int, expireAt: int, now: int, t': Inventory)
    requires Valid(t) && TimeStacked(t, uid, itemId, count, expireAt, now, t')
    ensures Valid(t')
  {
  }

  /** No run of grants ever leaves a row with more units used than it holds. */
  lemma {:induction false} GrantsValid(t: Inventory, uid: nat, rewards: RewardList, config: map<int, StackMode>, now: int, t': Inventory)
    requires Valid(t) && Grants(t, uid, rewards, config, now, t')
    ensures Valid(t')
    decreases |rewards|
  {
    if rewards != [] {
      var mid :| Granted1(t, uid, rewards[0], config, now, mid) && Grants(mid, uid, rewards[1..], config, now, t');
      var r := rewards[0].value;
      var at :| at >= now && Stacked(t, uid, r, config[r.itemTypeId], now, at, mid);
      if config[r.itemTypeId].TimeStack? {
        TimeStackedValid(t, uid, r.itemTypeId, r.count, Expiry(r, now), at, mid);
      } else {
        CountStackedValid(t, uid, r.itemTypeId, r.count, Expiry(r, now), at, mid);
      }
      GrantsValid(mid, uid, rewards[1..], config, now, t');
    }
  }

  lemma {:induction false} RevokesValid(t: Inventory, uid: nat, rewards: RewardList, now: int, t': Inventory)
    requires Valid(t) && Revokes(t, uid, rewards, now, t')
    ensures Valid(t')
    decreases |rewards|
  {
    if rewards != [] {
      var mid :| Revoked1(t, uid, rewards[0], now, mid) && Revokes(mid, uid, rewards[1..], now, t');
      RevokesValid(mid, uid, rewards[1..], now, t');
    }
  }

  // ----- count stacking adds exactly what was promised

  /** A count-stacked batch adds its units to every reading at which its expiry is still to come. */
  lemma CountStackedAdds(t: Inventory, uid: nat, itemId: int, count: int, expireAt: int, now: int, t': Inventory, m: Measure)
    requires Valid(t) && m.Units?
    requires CountStacked(t, uid, itemId, count, expireAt, now, t')
    ensures Total(t', m) == Total(t, m)
              + if m.uid == uid && m.itemId == itemId && (expireAt == 0 || expireAt > m.now) then Max(0, count) else 0
  {
    if count > 0 {
      if forall id :: id in t.rows ==> !SameBatch(t.rows[id], uid, itemId, expireAt) {
        SumBeyond(t, t'.nextId, m);
        SumChangesAt(t.rows, t'.rows, t'.nextId, t.nextId, m);
      } else {
        var id :| && id in t.rows && SameBatch(t.rows[id], uid, itemId, expireAt)
                  && t' == Update(t, id, TopUp(t.rows[id], count, now));
        SumChangesAt(t.rows, t'.rows, t.nextId, id, m);
      }
    }
  }

  // ----- a granted list, seen at every later moment

  /**
   Whether a reward granted at `now` is still good at `at`: a fixed end wins over a duration, and
   neither means for ever. An end at the epoch itself is stored as no end.
   */
  predicate Alive(r: Reward, now: int, at: int) {
    if r.expireTimeUnix > 0 then r.expireTimeUnix > at
    else if r.expireDurationSec > 0 then now + r.expireDurationSec > at || now + r.expireDurationSec == 0
    else true
  }

  /** The units of one type that a list granted at `now` is worth at `at`. */
  function Worth(rewards: RewardList, itemId: int, now: int, at: int): int {
    if rewards == [] then 0
    else
      (if rewards[0].Some? && rewards[0].value.itemTypeId == itemId && rewards[0].value.count > 0 && Alive(rewards[0].value, now, at)
       then rewards[0].value.count else 0)
      + Worth(rewards[1..], itemId, now, at)
  }

  ghost predicate CountStackedTypes(rewards: RewardList, config: map<int, StackMode>) {
    forall r :: r in rewards ==> Grantable(r, config) && config[r.value.itemTypeId].CountStack?
  }

  /**
   A committed list of count-stacked rewards adds, at every clock reading, exactly the units of the
   rewards that are alive then, to exactly that user.
   */
  lemma {:induction false} GrantsAddAt(t: Inventory, uid: nat, rewards: RewardList, config: map<int, StackMode>, now: int, t': Inventory, m: Measure)
    requires Valid(t) && m.Units?
    requires CountStackedTypes(rewards, config) && Grants(t, uid, rewards, config, now, t')
    ensures Total(t', m) == Total(t, m) + if m.uid == uid then Worth(rewards, m.itemId, now, m.now) else 0
    decreases |rewards|
  {
    if rewards != [] {
      var mid :| Granted1(t, uid, rewards[0], config, now, mid) && Grants(mid, uid, rewards[1..], config, now, t');
      assert rewards[0] in rewards;
      var r := rewards[0].value;
      var at :| at >= now && Stacked(t, uid, r, config[r.itemTypeId], now, at, mid);
      CountStackedValid(t, uid, r.itemTypeId, r.count, Expiry(r, now), at, mid);
      CountStackedAdds(t, uid, r.itemTypeId, r.count, Expiry(r, now), at, mid, m);
      hide Total, Grants, Valid;
      GrantsAddAt(mid, uid, rewards[1..], config, now, t', m);
    }
  }

  /** Units of one type that a single reward promises. */
  function Promise(r: Option<Reward>, itemId: int): int {
    if r.Some? && r.value.itemTypeId == itemId then Max(0, r.value.count) else 0
  }

  /** Units of one type that a reward list promises. */
  function Promised(rewards: RewardList, itemId: int): int {
    if rewards == [] then 0
    else Promise(rewards[0], itemId) + Promised(rewards[1..], itemId)
  }

  predicate CountStackedReward(r: Option<Reward>, config: map<int, StackMode>, now: int) {
    && Grantable(r, config) && config[r.value.itemTypeId].CountStack?
    && (Expiry(r.value, now) == 0 || Expiry(r.value, now) > now)
  }

  ghost predicate AllCountStacked(rewards: RewardList, config: map<int, StackMode>, now: int) {
    forall r :: r in rewards ==> CountStackedReward(r, config, now)
  }

  /** Right when it is granted, a list of unexpired count-stacked rewards is worth what it promises. */
  lemma {:induction false} WorthAtOnce(rewards: RewardList, config: map<int, StackMode>, itemId: int, now: int)
    requires AllCountStacked(rewards, config, now)
    ensures CountStackedTypes(rewards, config) && Worth(rewards, itemId, now, now) == Promised(rewards, itemId)
  {
    if rewards != [] {
      assert rewards[0] in rewards;
      WorthAtOnce(rewards[1..], config, itemId, now);
    }
  }

  lemma GrantsAdd(t: Inventory, uid: nat, rewards: RewardList, config: map<int, StackMode>, now: int, t': Inventory, m: Measure)
    requires Valid(t) && m.Units? && m.now == now
    requires AllCountStacked(rewards, config, now)
    requires Grants(t, uid, rewards, config, now, t')
    ensures Total(t', m) == Total(t, m) + if m.uid == uid then Promised(rewards, m.itemId) else 0
  {
    WorthAtOnce(rewards, config, m.itemId, now);
    GrantsAddAt(t, uid, rewards, config, now, t', m);
  }

  // ----- revocation takes what is there, up to what was promised

  /** Other users and other item types keep every unit. */
  lemma RevokedElsewhere(t: Inventory, uid: nat, itemId: int, count: int, now: int, t': Inventory, m: Measure)
    requires Revoked(t, uid, itemId, count, now, t')
    requires m.uid != uid || m.itemId != itemId
    ensures Total(t', m) == Total(t, m)
  {
    SumSame(t.rows, t'.rows, t.nextId, m);
  }

  lemma Revoked1Takes(t: Inventory, uid: nat, r: Option<Reward>, now: int, t': Inventory, m: Measure)
    requires m.Units? && m.now == now
    requires Revoked1(t, uid, r, now, t')
    ensures Total(t', m) == if m.uid == uid then Max(0, Total(t, m) - Promise(r, m.itemId)) else Total(t, m)
  {
    SumNonNegative(t.rows, t.nextId, m);
    if r.value.count > 0 && (m.uid != uid || m.itemId != r.value.itemTypeId) {
      RevokedElsewhere(t, uid, r.value.itemTypeId, r.value.count, now, t', m);
    }
  }

  /**
   A revocation list leaves max(0, before - promised) units of every type: each entry takes
   min(count, available), and truncated subtraction composes.
   */
  lemma {:induction false} RevokesTake(t: Inventory, uid: nat, rewards: RewardList, now: int, t': Inventory, m: Measure)
    requires m.Units? && m.now == now
    requires Revokes(t, uid, rewards, now, t')
    ensures Total(t', m) == if m.uid == uid then Max(0, Total(t, m) - Promised(rewards, m.itemId)) else Total(t, m)
    decreases |rewards|
  {
    if rewards == [] {
      SumNonNegative(t.rows, t.nextId, m);
    } else {
      var mid :| Revoked1(t, uid, rewards[0], now, mid) && Revokes(mid, uid, rewards[1..], now, t');
      Revoked1Takes(t, uid, rewards[0], now, mid, m);
      RevokesTake(mid, uid, rewards[1..], now, t', m);
      PromisedNonNegative(rewards[1..], m.itemId);
    }
  }

  lemma {:induction false} PromisedNonNegative(rewards: RewardList, itemId: int)
    ensures Promised(rewards, itemId) >= 0
  {
    if rewards != [] { PromisedNonNegative(rewards[1..], itemId); }
  }

  /**
   Granting a list of unexpired count-stacked rewards and revoking the same list at the same
   clock reading restores the available quantity of every item type of every user, whichever
   rows the two transactions happened to pick.
   */
  lemma GrantThenRevokeRestores(t: Inventory, uid: nat, rewards: RewardList, config: map<int, StackMode>, now: int,
                                t1: Inventory, t2: Inventory, m: Measure)
    requires Valid(t) && m.Units? && m.now == now
    requires AllCountStacked(rewards, config, now)
    requires Grants(t, uid, rewards, config, now, t1) && Revokes(t1, uid, rewards, now, t2)
    ensures Total(t2, m) == Total(t, m)
  {
    GrantsValid(t, uid, rewards, config, now, t1);
    GrantsAdd(t, uid, rewards, config, now, t1, m);
    RevokesTake(t1, uid, rewards, now, t2, m);
    SumNonNegative(t.rows, t.nextId, m);
  }

  // ----- revocation, row by row

  /** The units taken from the first `n` rows. */
  function Taken(rows: map<nat, Row>, rows': map<nat, Row>, n: nat): int {
    if n == 0 then 0
    else Taken(rows, rows', n - 1) + if n - 1 in rows && n - 1 in rows' then rows'[n - 1].used - rows[n - 1].used else 0
  }

  lemma {:induction false} TakenIsTotal(rows: map<nat, Row>, rows': map<nat, Row>, uid: nat, itemId: int, now: int, n: nat)
    requires rows'.Keys == rows.Keys && forall id :: id in rows ==> Debited(rows[id], rows'[id], uid, itemId, now)
    ensures var m := Units(uid, itemId, now); Taken(rows, rows', n) == Sum(rows, n, m) - Sum(rows', n, m)
  {
    if n > 0 { TakenIsTotal(rows, rows', uid, itemId, now, n - 1); }
  }

  /** A row of the user and type that has not expired: it has no end, or its end is still to come. */
  predicate Live(r: Row, uid: nat, itemId: int, now: int) { r.uid == uid && r.itemId == itemId && (r.expireAt == 0 || r.expireAt > now) }

  /**
   A revocation touches live rows of the user and type only, and of them nothing but the used count.
   It takes `count` units in all, or every live row ends up empty. A row is touched only when every
   live row that ends before it is empty, and rows without an end come last.
   */
  lemma RevokedRowByRow(t: Inventory, uid: nat, itemId: int, count: int, now: int, t': Inventory)
    requires Valid(t) && count > 0 && Revoked(t, uid, itemId, count, now, t')
    ensures t'.rows.Keys == t.rows.Keys
    ensures forall id :: id in t.rows && t'.rows[id] != t.rows[id] ==>
      && Live(t.rows[id], uid, itemId, now) && t.rows[id].used < t'.rows[id].used <= t.rows[id].count
      && t'.rows[id] == t.rows[id].(used := t'.rows[id].used, updateAt := now)
    ensures Taken(t.rows, t'.rows, t.nextId) <= count
    ensures Taken(t.rows, t'.rows, t.nextId) == count
            || forall id :: id in t.rows && Live(t.rows[id], uid, itemId, now) ==> t'.rows[id].used == t.rows[id].count
    ensures forall a, b :: a in t.rows && b in t.rows && t'.rows[b] != t.rows[b] && Live(t.rows[a], uid, itemId, now)
                           && t.rows[a].expireAt != 0 && (t.rows[b].expireAt == 0 || t.rows[a].expireAt < t.rows[b].expireAt) ==>
      t'.rows[a].used == t.rows[a].count
  {
    var m := Units(uid, itemId, now);
    TakenIsTotal(t.rows, t'.rows, uid, itemId, now, t.nextId);
    SumNonNegative(t'.rows, t.nextId, m);
    if Taken(t.rows, t'.rows, t.nextId) != count {
      assert Total(t', m) == 0;
      forall id | id in t.rows && Live(t.rows[id], uid, itemId, now) ensures t'.rows[id].used == t.rows[id].count {
        ZeroSum(t'.rows, t.nextId, m, id);
      }
    }
    forall a, b | a in t.rows && b in t.rows && t'.rows[b] != t.rows[b] && Live(t.rows[a], uid, itemId, now)
                  && t.rows[a].expireAt != 0 && (t.rows[b].expireAt == 0 || t.rows[a].expireAt < t.rows[b].expireAt)
      ensures t'.rows[a].used == t.rows[a].count
    {
      assert Touched(t, t', b) && Before(t.rows[a], t.rows[b]);
    }
  }

  /** Where nothing is left in all, nothing is left in any row. */
  lemma {:induction false} ZeroSum(rows: map<nat, Row>, n: nat, m: Measure, id: nat)
    requires id < n && Sum(rows, n, m) == 0 && forall k :: k in rows ==> 0 <= rows[k].used <= rows[k].count
    ensures Share(rows, id, m) == 0
  {
    SumNonNegative(rows, n - 1, m);
    if n - 1 in rows { WeightNonNegative(rows[n - 1], m); }
    if id < n - 1 { ZeroSum(rows, n - 1, m, id); }
  }

  // ----- time stacking conserves item-seconds

  /**
   After a timed grant the type has exactly one dated unexpired row, and the time left on it is
   the old total of (expiry - now) * available plus unit duration * count.
   */
  lemma TimeStackingConserves(t: Inventory, uid: nat, itemId: int, count: int, expireAt: int, now: int, t': Inventory)
    returns (id: nat)
    requires Valid(t) && TimeStacked(t, uid, itemId, count, expireAt, now, t')
    requires count > 0 && expireAt > now && expireAt != 0
    ensures id in t'.rows && Timed(t'.rows[id], uid, itemId, now)
    ensures forall k :: k in t'.rows && Timed(t'.rows[k], uid, itemId, now) ==> k == id
    ensures Left(t'.rows[id]) == 1
    ensures t'.rows[id].expireAt - now == Total(t, Seconds(uid, itemId, now)) + (expireAt - now) * count
    ensures Total(t', Seconds(uid, itemId, now)) == Total(t, Seconds(uid, itemId, now)) + (expireAt - now) * count
  {
    var m := Seconds(uid, itemId, now);
    Products(expireAt - now, count);
    SumNonNegative(t.rows, t.nextId, m);
    if forall k :: k in t.rows ==> !Timed(t.rows[k], uid, itemId, now) {
      id := t.nextId;
    } else {
      var end := now + (expireAt - now) * count + Total(t, m);
      id :| FirstToExpire(t, id, uid, itemId, now) && t' == Merged(t, id, uid, itemId, now, end);
    }
    SumOnlyAt(t'.rows, t'.nextId, id, m);
  }

  /** A timed grant leaves every row of other users and other types, and permanent and expired rows, as they were. */
  lemma TimeStackingFrame(t: Inventory, uid: nat, itemId: int, count: int, expireAt: int, now: int, t': Inventory, k: nat)
    requires Valid(t) && TimeStacked(t, uid, itemId, count, expireAt, now, t')
    requires expireAt != 0 && k in t.rows && !Timed(t.rows[k], uid, itemId, now)
    ensures k in t'.rows && t'.rows[k] == t.rows[k]
  {
  }

  /** Whether a reward is timed, and when one unit of it ends. */
  function End(r: Reward, now: int): Option<int> {
    if r.expireTimeUnix > 0 then Some(r.expireTimeUnix)
    else if r.expireDurationSec > 0 then Some(now + r.expireDurationSec) else None
  }

  predicate Dated(r: Row, uid: nat, itemId: int, now: int) { r.uid == uid && r.itemId == itemId && r.expireAt > now }

  /**
   A time-stacked reward that is timed and not over at `at` leaves one dated row of the type. It ends
   one unit duration after `at` for every unit, plus the time left on the dated row there was before,
   if there was one with units left.
   */
  lemma TimedGrantEnds(t: Inventory, uid: nat, r: Reward, now: int, at: int, t': Inventory) returns (id: nat)
    requires Valid(t) && r.count > 0 && End(r, now).Some? && End(r, now).value > at >= now && End(r, now).value != 0
    requires Stacked(t, uid, r, TimeStack, now, at, t')
    ensures id in t'.rows && Dated(t'.rows[id], uid, r.itemTypeId, at) && t'.rows[id].count == 1 && t'.rows[id].used == 0
    ensures forall k :: k in t'.rows && Dated(t'.rows[k], uid, r.itemTypeId, at) ==> k == id
    ensures (forall k :: k in t.rows ==> !Dated(t.rows[k], uid, r.itemTypeId, at)) ==>
      t'.rows[id].expireAt == at + (End(r, now).value - at) * r.count
    ensures forall k :: k in t.rows && Dated(t.rows[k], uid, r.itemTypeId, at)
                        && (forall l :: l in t.rows && Dated(t.rows[l], uid, r.itemTypeId, at) ==> l == k) ==>
      t'.rows[id].expireAt == at + (End(r, now).value - at) * r.count + (t.rows[k].expireAt - at) * (t.rows[k].count - t.rows[k].used)
  {
    var m, e := Seconds(uid, r.itemTypeId, at), End(r, now).value;
    id := TimeStackingConserves(t, uid, r.itemTypeId, r.count, e, at, t');
    if forall k :: k in t.rows ==> !Dated(t.rows[k], uid, r.itemTypeId, at) {
      SumZero(t.rows, t.nextId, m);
    }
    forall k | k in t.rows && Dated(t.rows[k], uid, r.itemTypeId, at)
               && (forall l :: l in t.rows && Dated(t.rows[l], uid, r.itemTypeId, at) ==> l == k)
      ensures Total(t, m) == (t.rows[k].expireAt - at) * (t.rows[k].count - t.rows[k].used)
    {
      SumOnlyAt(t.rows, t.nextId, k, m);
    }
  }
}
