/**
 The login store's calls as they run against the tables when nothing interferes and no statement
 fails; `Accounts` has them interleaved. A call that returns an error leaves both tables as they were.
 */
module AccountStore {
  import opened Common
  import opened Accounts
  import opened AccountRuns

  /** Column limits, checked before a row is sent to the database. */
  predicate Fits(key: Key, unionId: string) { |key.appId| <= 255 && |key.openId| <= 255 && |unionId| <= 255 }

  /** An empty union ID is stored as null. */
  function Nullable(unionId: string): (r: Option<string>)
    ensures r.None? <==> unionId == ""
    ensures r.Some? ==> r.value == unionId
  {
    if unionId == "" then None else Some(unionId)
  }

  /** The row `id` is the new one, everything else stayed. */
  ghost predicate Inserted(rows: Rows, rows': Rows, id: nat, row: Identity) { id !in rows && rows' == rows[id := row] }

  datatype LoginResult = LoggedIn(uid: nat, registered: bool) | LoginError(error: Error)

  /** The answer of a call that found the account `uid` and checked it. */
  function Checked(e: Option<Error>, uid: nat): LoginResult { if e.Some? then LoginError(e.value) else LoggedIn(uid, false) }

  /** Both tables and their counters. */
  datatype Db = Db(accounts: map<nat, bool>, rows: Rows, nextUid: nat, nextId: nat)

  ghost predicate InOrder(d: Db) {
    Tables(d.accounts, d.rows) && (forall u :: u in d.accounts ==> u < d.nextUid) && (forall id :: id in d.rows ==> id < d.nextId)
  }

  /** What other calls may do meanwhile: the tables stay in order, counters only grow and no account vanishes. */
  ghost predicate Orderly(f: Db -> Db) {
    forall d {:trigger f(d)} :: InOrder(d) ==>
      && InOrder(f(d)) && d.nextUid <= f(d).nextUid && d.nextId <= f(d).nextId
      && forall u :: u in d.accounts ==> u in f(d).accounts
  }

  /** They leave the identity with the account that owns it. */
  ghost predicate Spares(f: Db -> Db, key: Key) {
    forall d {:trigger f(d)} :: InOrder(d) ==> forall u :: Holder(d.rows, key, u) ==> Holder(f(d).rows, key, u)
  }

  ghost predicate Idle(f: Db -> Db) { forall d :: f(d) == d }

  ghost predicate Undisturbed(others: nat -> (Db -> Db)) { forall n :: Idle(others(n)) }

  /** Whoever holds an identity is active. */
  lemma HoldersAreActive(accounts: map<nat, bool>, rows: Rows, key: Key)
    requires Tables(accounts, rows)
    ensures forall u :: Holder(rows, key, u) ==> u in accounts && !accounts[u]
    ensures Bound(rows, key) ==> exists u :: Holder(rows, key, u)
  {
    if Bound(rows, key) {
      var id :| id in rows && rows[id].key == key;
      assert Holder(rows, key, rows[id].uid);
    }
  }

  class Store {
    var accounts: map<nat, bool>
    var rows: Rows
    var nextUid: nat
    var nextId: nat

    ghost predicate Valid()
      reads this
    {
      Tables(accounts, rows) && (forall u :: u in accounts ==> u < nextUid) && (forall id :: id in rows ==> id < nextId)
    }

    ghost predicate IsActive(uid: nat)
      reads this
    {
      uid in accounts && !accounts[uid]
    }

    constructor ()
      ensures Valid() && accounts == map[] && rows == map[] && nextUid == 10_000_000
    {
      accounts, rows, nextUid, nextId := map[], map[], 10_000_000, 1;
    }

    method FindLoginRecord(key: Key) returns (uid: Option<nat>)
      requires Valid()
      ensures uid.Some? ==> Holder(rows, key, uid.value) && forall v :: Holder(rows, key, v) ==> v == uid.value
      ensures uid.None? <==> !Bound(rows, key)
    {
      if id :| id in rows && rows[id].key == key {
        uid := Some(rows[id].uid);
      } else {
        uid := None;
      }
    }

    method CheckAccount(uid: nat) returns (e: Option<Error>)
      ensures e == None <==> IsActive(uid)
      ensures e == Some(AccountMissing) <==> uid !in accounts
      ensures e.Some? ==> e.value == AccountMissing || e.value == AccountDeleted
    {
      e := if uid !in accounts then Some(AccountMissing) else if accounts[uid] then Some(AccountDeleted) else None;
    }

    method LockActiveAccount(uid: nat) returns (e: Option<Error>)
      ensures e == if IsActive(uid) then None else Some(AccountDeleted)
    {
      e := if uid in accounts && !accounts[uid] then None else Some(AccountDeleted);
    }

    /** Inserts the row unless a unique index refuses it. */
    method InsertIdentity(uid: nat, key: Key, unionId: string) returns (e: Option<Error>)
      requires forall id :: id in rows ==> id < nextId
      modifies this`rows, this`nextId
      ensures e == if !Fits(key, unionId) then Some(TooLong) else if Clashes(old(rows), Identity(uid, key, Nullable(unionId))) then Some(Conflict) else None
      ensures e.Some? ==> rows == old(rows)
      ensures e == None ==> Inserted(old(rows), rows, old(nextId), Identity(uid, key, Nullable(unionId)))
      ensures forall id :: id in rows ==> id < nextId
      ensures nextId == if e == Some(TooLong) then old(nextId) else old(nextId) + 1
      ensures e == Some(TooLong) <==> |key.appId| > 255 || |key.openId| > 255 || |unionId| > 255
    {
      var row := Identity(uid, key, Nullable(unionId));
      if !Fits(key, unionId) { return Some(TooLong); }
      nextId := nextId + 1;
      if id :| id in rows && Clash(rows[id], row) {
        return Some(Conflict);
      }
      rows := rows[nextId - 1 := row];
      e := None;
    }

    method CreateAccount(key: Key, unionId: string) returns (uid: nat, e: Option<Error>)
      requires Valid()
      modifies this
      ensures Valid()
      ensures uid == old(nextUid) && uid !in old(accounts) && nextUid == uid + 1
      ensures e == if !Fits(key, unionId) then Some(TooLong) else if Bound(old(rows), key) then Some(Conflict) else None
      ensures e.Some? ==> accounts == old(accounts) && rows == old(rows)
      ensures nextId == if e == Some(TooLong) then old(nextId) else old(nextId) + 1
      ensures e == None ==> accounts == old(accounts)[uid := false] && Inserted(old(rows), rows, old(nextId), Identity(uid, key, Nullable(unionId)))
    {
      uid := nextUid;
      nextUid := nextUid + 1;
      ghost var before := rows;
      assert Clashes(rows, Identity(uid, key, Nullable(unionId))) <==> Bound(rows, key);
      e := InsertIdentity(uid, key, unionId);
      if e == None {
        TablesInsert(accounts, before, accounts[uid := false], old(nextId), Identity(uid, key, Nullable(unionId)));
        accounts := accounts[uid := false];
      }
    }

    /** Other calls commit in between. */
    method Interlude(others: Db -> Db, ghost key: Key)
      requires Valid() && Orderly(others)
      modifies this
      ensures Valid() && old(nextUid) <= nextUid && forall u :: u in old(accounts) ==> u in accounts
      ensures Spares(others, key) ==> forall u :: Holder(old(rows), key, u) ==> Holder(rows, key, u)
      ensures Idle(others) ==> accounts == old(accounts) && rows == old(rows) && nextUid == old(nextUid) && nextId == old(nextId)
    {
      ghost var before := Db(accounts, rows, nextUid, nextId);
      assert InOrder(before);
      var d := others(Db(accounts, rows, nextUid, nextId));
      accounts, rows, nextUid, nextId := d.accounts, d.rows, d.nextUid, d.nextId;
    }

    /**
     Others commit between any two of its statements. Left alone, it registers an unknown identity,
     and only that, and otherwise answers with the account that owns it. As long as nobody takes the
     identity away it succeeds, also when another registration overtakes it.
     */
    method FindOrCreateAccount(key: Key, unionId: string, others: nat -> (Db -> Db)) returns (r: LoginResult)
      requires Valid() && forall n :: Orderly(others(n))
      modifies this
      ensures Valid()
      ensures r.LoggedIn? ==> IsActive(r.uid)
      ensures r.LoggedIn? && r.registered ==> r.uid !in old(accounts) && Holder(rows, key, r.uid)
      ensures r != LoginError(AccountMissing)
      ensures Fits(key, unionId) && (forall n :: Spares(others(n), key)) ==> r.LoggedIn? && Holder(rows, key, r.uid)
      ensures Undisturbed(others) && Bound(old(rows), key) ==>
                && accounts == old(accounts) && rows == old(rows) && nextUid == old(nextUid) && nextId == old(nextId)
                && r.LoggedIn? && !r.registered && Holder(rows, key, r.uid)
      ensures Undisturbed(others) && !Bound(old(rows), key) && Fits(key, unionId) ==>
                && r == LoggedIn(old(nextUid), true) && accounts == old(accounts)[old(nextUid) := false]
                && Inserted(old(rows), rows, old(nextId), Identity(old(nextUid), key, Nullable(unionId)))
                && nextUid == old(nextUid) + 1 && nextId == old(nextId) + 1
      ensures Undisturbed(others) && !Bound(old(rows), key) && !Fits(key, unionId) ==>
                && r == LoginError(TooLong) && accounts == old(accounts) && rows == old(rows)
                && nextUid == old(nextUid) + 1 && nextId == old(nextId)
    {
      assert forall n :: Undisturbed(others) ==> Idle(others(n));
      hide Orderly, Spares, Idle, Undisturbed, Tables, Bound;
      HoldersAreActive(accounts, rows, key);
      var found := FindLoginRecord(key);
      Interlude(others(0), key);
      HoldersAreActive(accounts, rows, key);
      if found.Some? {
        var e := CheckAccount(found.value);
        return Checked(e, found.value);
      }
      var uid, e := CreateAccount(key, unionId);
      if e == None {
        assert rows[nextId - 1].key == key && rows[nextId - 1].uid == uid;
        return LoggedIn(uid, true);
      }
      if e != Some(Conflict) { return LoginError(e.value); }
      r := LoginAfterConflict(key, others(1), others(2));
    }

    /** Another registration was faster: its account is looked up and checked. */
    method LoginAfterConflict(key: Key, first: Db -> Db, second: Db -> Db) returns (r: LoginResult)
      requires Valid() && Orderly(first) && Orderly(second)
      modifies this
      ensures Valid()
      ensures r.LoggedIn? ==> IsActive(r.uid) && !r.registered
      ensures r != LoginError(AccountMissing)
      ensures Bound(old(rows), key) && Spares(first, key) && Spares(second, key) ==> r.LoggedIn? && Holder(rows, key, r.uid)
    {
      hide Orderly, Spares, Idle, Tables;
      HoldersAreActive(accounts, rows, key);
      Interlude(first, key);
      HoldersAreActive(accounts, rows, key);
      var found := FindLoginRecord(key);
      if found.None? { return LoginError(Conflict); }
      Interlude(second, key);
      HoldersAreActive(accounts, rows, key);
      var e := CheckAccount(found.value);
      r := Checked(e, found.value);
    }

    method BindIdentity(uid: nat, key: Key, unionId: string) returns (e: Option<Error>)
      requires Valid()
      modifies this`rows, this`nextId
      ensures Valid()
      ensures e == if !old(IsActive(uid)) then Some(AccountDeleted)
                   else if Holder(old(rows), key, uid) then None
                   else if Bound(old(rows), key) then Some(BoundOtherAccount)
                   else if KindTaken(old(rows), uid, key) then Some(LoginTypeAlreadyBound)
                   else if !Fits(key, unionId) then Some(TooLong) else None
      ensures e.Some? || Holder(old(rows), key, uid) ==> rows == old(rows)
      ensures e == None && !Holder(old(rows), key, uid) ==> Inserted(old(rows), rows, old(nextId), Identity(uid, key, Nullable(unionId)))
      ensures e == None ==> Holder(rows, key, uid)
      ensures nextId == if rows == old(rows) then old(nextId) else old(nextId) + 1
    {
      e := LockActiveAccount(uid);
      if e != None { return; }
      var found := FindLoginRecord(key);
      if found == Some(uid) { return None; }
      if found.Some? { return Some(BoundOtherAccount); }
      if id :| id in rows && rows[id].uid == uid && rows[id].key.loginType == key.loginType && rows[id].key.appId == key.appId {
        return Some(LoginTypeAlreadyBound);
      }
      ghost var row := Identity(uid, key, Nullable(unionId));
      ghost var before := rows;
      assert !Clashes(rows, row);
      e := InsertIdentity(uid, key, unionId);
      if e == None {
        assert accounts[uid := false] == accounts && rows[old(nextId)] == row;
        TablesInsert(accounts, before, accounts, old(nextId), row);
      }
    }

    method UnbindIdentity(uid: nat, key: Key) returns (e: Option<Error>)
      requires Valid()
      modifies this`rows
      ensures Valid()
      ensures e == if !old(IsActive(uid)) then Some(AccountDeleted)
                   else if !Holder(old(rows), key, uid) then Some(NotBound)
                   else if |OwnIds(old(rows), uid)| <= 1 then Some(LastIdentity) else None
      ensures e.Some? ==> rows == old(rows)
      ensures e == None ==> rows == Without(old(rows), key)
    {
      e := LockActiveAccount(uid);
      if e != None { return; }
      if id :| id in rows && rows[id].key == key && rows[id].uid == uid {
        if |OwnIds(rows, uid)| <= 1 { return Some(LastIdentity); }
        RowGone(accounts, rows, uid, key, id);
        hide Tables;
        rows := rows - {id};
        e := None;
      } else {
        e := Some(NotBound);
      }
    }

    method DeleteAccount(uid: nat) returns (e: Option<Error>)
      requires Valid()
      modifies this`accounts, this`rows
      ensures Valid()
      ensures e == if old(IsActive(uid)) then None else Some(AccountDeleted)
      ensures e.Some? ==> accounts == old(accounts) && rows == old(rows)
      ensures e == None ==> accounts == old(accounts)[uid := true] && !Owns(rows, uid)
      ensures e == None ==> rows == map id | id in old(rows) && old(rows)[id].uid != uid :: old(rows)[id]
    {
      if uid !in accounts || accounts[uid] { return Some(AccountDeleted); }
      DeleteTables(accounts, rows, uid, OwnIds(rows, uid));
      accounts := accounts[uid := true];
      rows := rows - OwnIds(rows, uid);
      e := None;
    }
  }

  /** All rows but the one of `key`. */
  function Without(rows: Rows, key: Key): Rows { map id | id in rows && rows[id].key != key :: rows[id] }

  lemma RowGone(accounts: map<nat, bool>, rows: Rows, uid: nat, key: Key, id: nat)
    requires Tables(accounts, rows) && id in rows && rows[id].key == key && rows[id].uid == uid && |OwnIds(rows, uid)| > 1
    ensures rows - {id} == Without(rows, key) && Tables(accounts, rows - {id})
  {
    CountMeansTwo(rows, rows, uid, id);
    UnbindTables(accounts, rows, uid, id);
  }
}
