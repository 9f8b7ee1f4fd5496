/**
 The item tables and the meaning of the inventory transactions: which new tables a grant or
 a revocation may produce. Ties in the `ORDER BY` and the row picked by `First` are left open.
 */
module Items {
  import opened Common

  datatype StackMode = CountStack | TimeStack | OtherStack(code: int)

  datatype Row = Row(uid: nat, itemId: int, count: int, used: int, expireAt: int, createAt: int, updateAt: int)

  /** Rows by primary key; `nextId` is the auto-increment counter. */
  datatype Inventory = Inventory(rows: map<nat, Row>, nextId: nat)

  // ----- row predicates

  function Left(r: Row): int { r.count - r.used }

  predicate Owned(r: Row, uid: nat, itemId: int) { r.uid == uid && r.itemId == itemId }

  predicate Unexpired(r: Row, now: int) { r.expireAt == 0 || r.expireAt > now }

  predicate Usable(r: Row, uid: nat, itemId: int, now: int) {
    Owned(r, uid, itemId) && Unexpired(r, now) && r.count > r.used
  }

  /** Rows a timed grant merges: same user and type, expiring in the future. */
  predicate Timed(r: Row, uid: nat, itemId: int, now: int) { Owned(r, uid, itemId) && r.expireAt > now }

  /** `ORDER BY (expire_at_unix = 0) ASC, expire_at_unix ASC`: dated rows by expiry, permanent rows last. */
  predicate Before(a: Row, b: Row) {
    if a.expireAt == 0 then false else b.expireAt == 0 || a.expireAt < b.expireAt
  }

  ghost predicate Valid(t: Inventory) {
    forall id :: id in t.rows ==> id < t.nextId && 0 <= t.rows[id].used <= t.rows[id].count
  }

  // ----- totals over a table

  datatype Measure =
    | Units(uid: nat, itemId: int, now: int)    // units that can still be spent
    | Seconds(uid: nat, itemId: int, now: int)  // remaining time of dated rows, per unit

  function Weight(r: Row, m: Measure): int {
    match m
    case Units(uid, itemId, now) => if Usable(r, uid, itemId, now) then Left(r) else 0
    case Seconds(uid, itemId, now) =>
      if Timed(r, uid, itemId, now) && Left(r) > 0 then (r.expireAt - now) * Left(r) else 0
  }

  function Share(rows: map<nat, Row>, id: nat, m: Measure): int {
    if id in rows then Weight(rows[id], m) else 0
  }

  function Sum(rows: map<nat, Row>, n: nat, m: Measure): int {
    if n == 0 then 0 else Sum(rows, n - 1, m) + Share(rows, n - 1, m)
  }

  /** The total of a measure over the whole table. */
  function Total(t: Inventory, m: Measure): int { Sum(t.rows, t.nextId, m) }

  lemma {:induction false} SumChangesAt(rows: map<nat, Row>, rows': map<nat, Row>, n: nat, id: nat, m: Measure)
    requires id < n
    requires forall k: nat :: k < n && k != id ==> Share(rows, k, m) == Share(rows', k, m)
    ensures Sum(rows', n, m) == Sum(rows, n, m) - Share(rows, id, m) + Share(rows', id, m)
  {
    if id == n - 1 {
      SumSame(rows, rows', n - 1, m);
    } else {
      SumChangesAt(rows, rows', n - 1, id, m);
    }
  }

  lemma {:induction false} SumSame(rows: map<nat, Row>, rows': map<nat, Row>, n: nat, m: Measure)
    requires forall k: nat :: k < n ==> Share(rows, k, m) == Share(rows', k, m)
    ensures Sum(rows, n, m) == Sum(rows', n, m)
  {
    if n > 0 { SumSame(rows, rows', n - 1, m); }
  }

  lemma {:induction false} SumNonNegative(rows: map<nat, Row>, n: nat, m: Measure)
    ensures Sum(rows, n, m) >= 0
  {
    if n > 0 {
      SumNonNegative(rows, n - 1, m);
      if n - 1 in rows { WeightNonNegative(rows[n - 1], m); }
    }
  }

  lemma WeightNonNegative(r: Row, m: Measure)
    ensures Weight(r, m) >= 0
  {
    if m.Seconds? && Timed(r, m.uid, m.itemId, m.now) && Left(r) > 0 {
      Products(r.expireAt - m.now, Left(r));
    }
  }

  lemma Products(a: int, b: int)
    requires a > 0 && b > 0
    ensures a * b > 0
  {
  }

  /** Only one row weighs anything: it is the total. */
  lemma SumOnlyAt(rows: map<nat, Row>, n: nat, id: nat, m: Measure)
    requires id < n
    requires forall k: nat :: k < n && k != id ==> Share(rows, k, m) == 0
    ensures Sum(rows, n, m) == Share(rows, id, m)
  {
    SumChangesAt(map[], rows, n, id, m);
    SumZero(map[], n, m);
  }

  lemma {:induction false} SumZero(rows: map<nat, Row>, n: nat, m: Measure)
    requires forall k: nat :: k < n ==> Share(rows, k, m) == 0
    ensures Sum(rows, n, m) == 0
  {
    if n > 0 { SumZero(rows, n - 1, m); }
  }

  /** Raising `n` past the last row adds nothing. */
  lemma {:induction false} SumBeyond(t: Inventory, n: nat, m: Measure)
    requires Valid(t) && t.nextId <= n
    ensures Sum(t.rows, n, m) == Total(t, m)
    decreases n
  {
    if n > t.nextId { SumBeyond(t, n - 1, m); }
  }

  // ----- what one statement sequence may do

  function Min(a: int, b: int): int { if a <= b then a else b }

  function Max(a: int, b: int): int { if a >= b then a else b }

  predicate SameBatch(r: Row, uid: nat, itemId: int, expireAt: int) {
    Owned(r, uid, itemId) && r.expireAt == expireAt
  }

  /** Count stacking: top up one row of the same expiry, or insert one when there is none. */
  ghost predicate CountStacked(t: Inventory, uid: nat, itemId: int, count: int, expireAt: int, now: int, t': Inventory) {
    if count <= 0 then t' == t
    else if forall id :: id in t.rows ==> !SameBatch(t.rows[id], uid, itemId, expireAt) then
      t' == Insert(t, Row(uid, itemId, count, 0, expireAt, now, now))
    else
      exists id :: && id in t.rows && SameBatch(t.rows[id], uid, itemId, expireAt)
                   && t' == Update(t, id, TopUp(t.rows[id], count, now))
  }

  function TopUp(r: Row, count: int, now: int): Row { r.(count := r.count + count, updateAt := now) }

  function Insert(t: Inventory, r: Row): Inventory { Inventory(t.rows[t.nextId := r], t.nextId + 1) }

  function Update(t: Inventory, id: nat, r: Row): Inventory { t.(rows := t.rows[id := r]) }

  /** Time stacking: all dated unexpired rows of the type collapse into one that carries the summed time. */
  ghost predicate TimeStacked(t: Inventory, uid: nat, itemId: int, count: int, expireAt: int, now: int, t': Inventory) {
    if count <= 0 then t' == t
    else if expireAt == 0 then CountStacked(t, uid, itemId, count, expireAt, now, t')
    else if expireAt - now <= 0 then t' == t
    else
      var end := now + (expireAt - now) * count + Total(t, Seconds(uid, itemId, now));
      if forall id :: id in t.rows ==> !Timed(t.rows[id], uid, itemId, now) then
        t' == Insert(t, Row(uid, itemId, 1, 0, end, now, now))
      else
        exists id :: FirstToExpire(t, id, uid, itemId, now) && t' == Merged(t, id, uid, itemId, now, end)
  }

  ghost predicate FirstToExpire(t: Inventory, id: nat, uid: nat, itemId: int, now: int) {
    && id in t.rows && Timed(t.rows[id], uid, itemId, now)
    && forall k :: k in t.rows && Timed(t.rows[k], uid, itemId, now) ==> !Before(t.rows[k], t.rows[id])
  }

  function Merged(t: Inventory, keep: nat, uid: nat, itemId: int, now: int, end: int): Inventory
    requires keep in t.rows
  {
    t.(rows := (map id | id in t.rows && (id == keep || !Timed(t.rows[id], uid, itemId, now)) ::
                  if id == keep then t.rows[id].(count := 1, used := 0, expireAt := end, updateAt := now)
                  else t.rows[id]))
  }

  predicate Touched(t: Inventory, t': Inventory, id: nat) {
    id in t.rows && id in t'.rows && t.rows[id].used < t'.rows[id].used
  }

  /** A row is either unchanged or one usable row whose used count went up, not above its count. */
  predicate Debited(r: Row, r': Row, uid: nat, itemId: int, now: int) {
    || r' == r
    || (Usable(r, uid, itemId, now) && r.used < r'.used <= r.count && r' == r.(used := r'.used, updateAt := now))
  }

  /**
   Revocation of `count` units: rows are debited in `Before` order until `count` units are gone
   or nothing is left, so the total falls by exactly min(count, available).
   */
  ghost predicate Revoked(t: Inventory, uid: nat, itemId: int, count: int, now: int, t': Inventory) {
    && t'.rows.Keys == t.rows.Keys && t'.nextId == t.nextId
    && (forall id :: id in t.rows ==> Debited(t.rows[id], t'.rows[id], uid, itemId, now))
    && Total(t', Units(uid, itemId, now))
       == Total(t, Units(uid, itemId, now)) - Min(count, Total(t, Units(uid, itemId, now)))
    && (forall a, b | Touched(t, t', b) && a in t.rows && Usable(t.rows[a], uid, itemId, now) ::
          Before(t.rows[a], t.rows[b]) ==> Left(t'.rows[a]) == 0)
    && (forall a, b | Touched(t, t', a) && Touched(t, t', b) && a != b ::
          Left(t'.rows[a]) == 0 || Left(t'.rows[b]) == 0)
  }

  // ----- reward lists

  function Expiry(r: Reward, now: int): int {
    if r.expireTimeUnix > 0 then r.expireTimeUnix
    else if r.expireDurationSec > 0 then now + r.expireDurationSec
    else 0
  }

  /** The reward is not nil, its type is configured, and the stack mode is a known one. */
  predicate Grantable(r: Option<Reward>, config: map<int, StackMode>) {
    r.Some? && r.value.itemTypeId in config && !config[r.value.itemTypeId].OtherStack?
  }

  /** One reward of a transaction that began at `now`, stacked at the clock reading `at`. */
  ghost predicate Stacked(t: Inventory, uid: nat, r: Reward, mode: StackMode, now: int, at: int, t': Inventory) {
    if mode.TimeStack? then TimeStacked(t, uid, r.itemTypeId, r.count, Expiry(r, now), at, t')
    else CountStacked(t, uid, r.itemTypeId, r.count, Expiry(r, now), at, t')
  }

  /** The transaction reads the clock when it begins, and each reward reads it again. */
  ghost predicate Granted1(t: Inventory, uid: nat, r: Option<Reward>, config: map<int, StackMode>, now: int, t': Inventory) {
    Grantable(r, config) && exists at :: at >= now && Stacked(t, uid, r.value, config[r.value.itemTypeId], now, at, t')
  }

  /** The rewards are granted one after the other; any bad entry makes the whole list impossible. */
  ghost predicate Grants(t: Inventory, uid: nat, rewards: RewardList, config: map<int, StackMode>, now: int, t': Inventory)
    decreases |rewards|
  {
    if rewards == [] then t' == t
    else exists mid :: Granted1(t, uid, rewards[0], config, now, mid) && Grants(mid, uid, rewards[1..], config, now, t')
  }

  ghost predicate Revoked1(t: Inventory, uid: nat, r: Option<Reward>, now: int, t': Inventory) {
    && r.Some?
    && if r.value.count <= 0 then t' == t else Revoked(t, uid, r.value.itemTypeId, r.value.count, now, t')
  }

  ghost predicate Revokes(t: Inventory, uid: nat, rewards: RewardList, now: int, t': Inventory)
    decreases |rewards|
  {
    if rewards == [] then t' == t
    else exists mid :: Revoked1(t, uid, rewards[0], now, mid) && Revokes(mid, uid, rewards[1..], now, t')
  }
}
