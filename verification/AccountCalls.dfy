/**
 The store's methods against the interleaved model: a call that runs alone changes the tables, the
 counters and its result exactly as its statements do one after the other.
 */
module AccountCalls {
  import opened Common
  import opened Accounts
  import opened AccountRuns
  import opened AccountStore

  ghost predicate Path(tr: seq<State>, s: State, s': State) {
    |tr| > 0 && tr[0] == s && tr[|tr| - 1] == s' && forall i :: 0 <= i < |tr| - 1 ==> Steps(tr[i], tr[i + 1])
  }

  ghost predicate Reach(s: State, s': State) { exists tr :: Path(tr, s, s') }

  lemma ReachNext(s: State, m: State, a: Action, s': State)
    requires Reach(s, m) && Next(m, a, s')
    ensures Reach(s, s')
  {
    hide Next;
    var tr :| Path(tr, s, m);
    var tr' := tr + [s'];
    assert Steps(m, s');
    forall i | 0 <= i < |tr'| - 1 ensures Steps(tr'[i], tr'[i + 1]) {
      if i + 1 < |tr| { assert Steps(tr[i], tr[i + 1]); }
    }
    assert Path(tr', s, s');
  }

  lemma Starts(s: State, c: nat, pc: Pc)
    requires s.calls == map[] && c !in s.results && (pc.BindLock? || pc.UnbindLock? || pc.DeleteMark? || pc.Find?)
    ensures Reach(s, s.(calls := map[c := pc]))
  {
    assert Path([s], s, s);
    hide Reach;
    assert Next(s, Start(c, pc), s.(calls := map[c := pc]));
    ReachNext(s, s, Start(c, pc), s.(calls := map[c := pc]));
  }

  /** Alone, a call waits for nobody. */
  lemma Moves(s0: State, s: State, c: nat, now: bool)
    requires Reach(s0, s) && s.calls.Keys == {c}
    ensures Reach(s0, Moved(s, c, now))
  {
    hide Moved, Reach;
    assert Next(s, Move(c, now), Moved(s, c, now));
    ReachNext(s0, s, Move(c, now), Moved(s, c, now));
  }

  lemma Aborts(s0: State, s: State, c: nat)
    requires Reach(s0, s) && c in s.calls
    ensures Reach(s0, End(s, c, Failure(s.calls[c])))
  {
    hide Moved, Reach;
    assert Next(s, Abort(c), End(s, c, Failure(s.calls[c])));
    ReachNext(s0, s, Abort(c), End(s, c, Failure(s.calls[c])));
  }

  /** The state in which the call `c` is the only one and stands before `pc`. */
  function With(s: State, c: nat, pc: Pc): State { s.(calls := map[c := pc]) }

  /** The state in which it has ended. */
  function Ended(s: State, c: nat, r: Result): State { s.(calls := map[], results := s.results[c := r]) }

  lemma OneCall(s: State, c: nat, pc: Pc)
    ensures forall next :: Go(With(s, c, pc), c, next) == With(s, c, next)
    ensures forall r :: End(With(s, c, pc), c, r) == Ended(s, c, r)
  {
    assert With(s, c, pc).calls - {c} == map[];
    forall next ensures Go(With(s, c, pc), c, next) == With(s, c, next) {
      assert With(s, c, pc).calls[c := next] == map[c := next];
    }
  }

  // ----- bind

  ghost function BindError(s: State, uid: nat, key: Key, unionId: string): Option<Error> {
    if !Active(s, uid) then Some(AccountDeleted)
    else if Holder(s.rows, key, uid) then None
    else if Bound(s.rows, key) then Some(BoundOtherAccount)
    else if KindTaken(s.rows, uid, key) then Some(LoginTypeAlreadyBound)
    else if !Fits(key, unionId) then Some(TooLong) else None
  }

  /** A row that is too long is refused before it is sent: for the database the statement failed. */
  function Reported(e: Option<Error>): Result {
    match e case None => Changed case Some(x) => Refused(if x == TooLong then Unavailable else x)
  }

  ghost function BindEffect(s: State, c: nat, uid: nat, key: Key, unionId: string): State {
    var e := BindError(s, uid, key, unionId);
    if e == None && !Holder(s.rows, key, uid) then
      Ended(s, c, Changed).(rows := s.rows[s.nextId := Identity(uid, key, Nullable(unionId))], nextId := s.nextId + 1, attached := s.attached + {key})
    else Ended(s, c, Reported(e))
  }

  lemma BindLocks(s: State, c: nat, uid: nat, key: Key, u: Option<string>)
    requires s.calls == map[] && c !in s.results
    ensures Reach(s, if Active(s, uid) then With(s, c, BindFind(uid, key, u)) else Ended(s, c, Refused(AccountDeleted)))
  {
    Starts(s, c, BindLock(uid, key, u));
    var s1 := With(s, c, BindLock(uid, key, u));
    assert s1.calls - {c} == map[];
    assert Moved(s1, c, true) == if Active(s, uid) then With(s, c, BindFind(uid, key, u)) else Ended(s, c, Refused(AccountDeleted));
    hide Reach, Moved;
    Moves(s, s1, c, true);
  }

  lemma BindFinds(s0: State, s: State, c: nat, uid: nat, key: Key, u: Option<string>)
    requires s.calls == map[] && Reach(s0, With(s, c, BindFind(uid, key, u)))
    ensures Reach(s0, if Holder(s.rows, key, uid) then Ended(s, c, Changed)
                      else if Bound(s.rows, key) then Ended(s, c, Refused(BoundOtherAccount))
                      else With(s, c, BindExists(uid, key, u, s.rows)))
  {
    hide Reach, Moved;
    var m := With(s, c, BindFind(uid, key, u));
    OneCall(s, c, m.calls[c]);
    MovedIs(m, c, true);
    Moves(s0, m, c, true);
  }

  lemma BindChecks(s0: State, s: State, c: nat, uid: nat, key: Key, u: Option<string>)
    requires s.calls == map[] && Reach(s0, With(s, c, BindExists(uid, key, u, s.rows)))
    ensures Reach(s0, if KindTaken(s.rows, uid, key) then Ended(s, c, Refused(LoginTypeAlreadyBound)) else With(s, c, BindInsert(uid, key, u)))
  {
    hide Reach, Moved;
    var m := With(s, c, BindExists(uid, key, u, s.rows));
    OneCall(s, c, m.calls[c]);
    MovedIs(m, c, true);
    Moves(s0, m, c, true);
  }

  lemma BindCommits(s0: State, s: State, c: nat, uid: nat, key: Key, u: Option<string>)
    requires s.calls == map[] && Reach(s0, With(s, c, BindInsert(uid, key, u)))
    requires !Bound(s.rows, key) && !KindTaken(s.rows, uid, key)
    ensures Reach(s0, Ended(s, c, Changed).(rows := s.rows[s.nextId := Identity(uid, key, u)], nextId := s.nextId + 1, attached := s.attached + {key}))
  {
    var m, row := With(s, c, BindInsert(uid, key, u)), Identity(uid, key, u);
    assert !Clashes(s.rows, row);
    var m1 := With(s, c, BindCommit(uid, s.nextId, row)).(nextId := s.nextId + 1);
    var s' := Ended(s, c, Changed).(rows := s.rows[s.nextId := row], nextId := s.nextId + 1, attached := s.attached + {key});
    assert m1.calls - {c} == map[];
    assert Moved(m1, c, true) == s';
    hide Reach, Moved, Clashes;
    OneCall(s, c, m.calls[c]);
    MovedIs(m, c, true);
    assert Moved(m, c, true) == m1;
    Moves(s0, m, c, true);
    Moves(s0, m1, c, true);
  }

  lemma BindAlone(s: State, c: nat, uid: nat, key: Key, unionId: string)
    requires s.calls == map[] && c !in s.results
    ensures Reach(s, BindEffect(s, c, uid, key, unionId))
  {
    var u := Nullable(unionId);
    hide Reach, Active, Holder, Bound, KindTaken;
    BindLocks(s, c, uid, key, u);
    if Active(s, uid) {
      BindFinds(s, s, c, uid, key, u);
      if !Holder(s.rows, key, uid) && !Bound(s.rows, key) {
        BindChecks(s, s, c, uid, key, u);
        if !KindTaken(s.rows, uid, key) {
          var m := With(s, c, BindInsert(uid, key, u));
          if Fits(key, unionId) {
            BindCommits(s, s, c, uid, key, u);
          } else {
            assert m.calls - {c} == map[];
            Aborts(s, m, c);
          }
        }
      }
    }
  }

  ghost predicate Holds(store: Store, s: State)
    reads store
  {
    store.accounts == s.accounts && store.rows == s.rows && store.nextUid == s.nextUid && store.nextId == s.nextId
  }

  /** The method, the call in the interleaved model, and the same tables and answer after both. */
  method BindCall(store: Store, uid: nat, key: Key, unionId: string, ghost s: State, ghost c: nat) returns (e: Option<Error>, ghost s': State)
    requires store.Valid() && Holds(store, s) && s.calls == map[] && c !in s.results
    modifies store
    ensures store.Valid() && Holds(store, s') && Reach(s, s') && s'.results == s.results[c := Reported(e)]
  {
    BindAlone(s, c, uid, key, unionId);
    s' := BindEffect(s, c, uid, key, unionId);
    hide Reach, Holder, Bound, KindTaken, Tables;
    e := store.BindIdentity(uid, key, unionId);
  }

  // ----- unbind

  ghost function UnbindError(s: State, uid: nat, key: Key): Option<Error> {
    if !Active(s, uid) then Some(AccountDeleted)
    else if !Holder(s.rows, key, uid) then Some(NotBound)
    else if |OwnIds(s.rows, uid)| <= 1 then Some(LastIdentity) else None
  }

  ghost function UnbindEffect(s: State, c: nat, uid: nat, key: Key): State {
    var e := UnbindError(s, uid, key);
    if e == None then Ended(s, c, Changed).(rows := Without(s.rows, key), removed := s.removed + {key}) else Ended(s, c, Reported(e))
  }

  lemma UnbindLocks(s: State, c: nat, uid: nat, key: Key)
    requires s.calls == map[] && c !in s.results
    ensures Reach(s, if Active(s, uid) then With(s, c, UnbindFind(uid, key)) else Ended(s, c, Refused(AccountDeleted)))
  {
    Starts(s, c, UnbindLock(uid, key));
    var s1 := With(s, c, UnbindLock(uid, key));
    OneCall(s, c, UnbindLock(uid, key));
    assert Moved(s1, c, true) == if Active(s, uid) then With(s, c, UnbindFind(uid, key)) else Ended(s, c, Refused(AccountDeleted));
    hide Reach, Moved;
    Moves(s, s1, c, true);
  }

  /** The row found, and the count over the rows as they are. */
  lemma UnbindFinds(s0: State, s: State, c: nat, uid: nat, key: Key) returns (id: nat)
    requires s.calls == map[] && Reach(s0, With(s, c, UnbindFind(uid, key))) && Holder(s.rows, key, uid)
    ensures id in s.rows && s.rows[id].key == key && s.rows[id].uid == uid
    ensures Reach(s0, if |OwnIds(s.rows, uid)| <= 1 then Ended(s, c, Refused(LastIdentity)) else With(s, c, UnbindDelete(uid, id)))
  {
    hide Reach, Moved;
    var m := With(s, c, UnbindFind(uid, key));
    OneCall(s, c, m.calls[c]);
    MovedIs(m, c, true);
    Moves(s0, m, c, true);
    id := Moved(m, c, true).calls[c].id;
    var m1 := With(s, c, UnbindCount(uid, id, s.rows));
    assert Moved(m, c, true) == m1;
    OneCall(s, c, m1.calls[c]);
    MovedIs(m1, c, true);
    Moves(s0, m1, c, true);
  }

  lemma UnbindMisses(s0: State, s: State, c: nat, uid: nat, key: Key)
    requires s.calls == map[] && Reach(s0, With(s, c, UnbindFind(uid, key))) && !Holder(s.rows, key, uid)
    ensures Reach(s0, Ended(s, c, Refused(NotBound)))
  {
    hide Reach, Moved;
    var m := With(s, c, UnbindFind(uid, key));
    OneCall(s, c, m.calls[c]);
    MovedIs(m, c, true);
    Moves(s0, m, c, true);
  }

  lemma UnbindCommits(s0: State, s: State, c: nat, uid: nat, key: Key, id: nat)
    requires s.calls == map[] && Reach(s0, With(s, c, UnbindDelete(uid, id))) && id in s.rows && s.rows[id].key == key
    ensures Reach(s0, Ended(s, c, Changed).(rows := s.rows - {id}, removed := s.removed + {key}))
  {
    var m, m1 := With(s, c, UnbindDelete(uid, id)), With(s, c, UnbindCommit(uid, id));
    var s' := Ended(s, c, Changed).(rows := s.rows - {id}, removed := s.removed + {key});
    assert Keys(s.rows, {id}) == {key};
    assert m1.calls - {c} == map[];
    assert Moved(m1, c, true) == s';
    hide Reach, Moved;
    OneCall(s, c, m.calls[c]);
    MovedIs(m, c, true);
    Moves(s0, m, c, true);
    Moves(s0, m1, c, true);
  }

  lemma UnbindAlone(s: State, c: nat, uid: nat, key: Key)
    requires s.calls == map[] && c !in s.results && Tables(s.accounts, s.rows)
    ensures Reach(s, UnbindEffect(s, c, uid, key))
  {
    hide Reach, Active, Tables, Holder, OwnIds, Without;
    UnbindLocks(s, c, uid, key);
    if Active(s, uid) {
      if Holder(s.rows, key, uid) {
        var id := UnbindFinds(s, s, c, uid, key);
        if |OwnIds(s.rows, uid)| > 1 {
          UnbindCommits(s, s, c, uid, key, id);
          RowGone(s.accounts, s.rows, uid, key, id);
        }
      } else {
        UnbindMisses(s, s, c, uid, key);
      }
    }
  }

  method UnbindCall(store: Store, uid: nat, key: Key, ghost s: State, ghost c: nat) returns (e: Option<Error>, ghost s': State)
    requires store.Valid() && Holds(store, s) && s.calls == map[] && c !in s.results
    modifies store
    ensures store.Valid() && Holds(store, s') && Reach(s, s') && s'.results == s.results[c := Reported(e)]
  {
    UnbindAlone(s, c, uid, key);
    s' := UnbindEffect(s, c, uid, key);
    hide Reach, Holder, Tables, Without, OwnIds;
    e := store.UnbindIdentity(uid, key);
  }

  // ----- delete

  function Survivors(rows: Rows, uid: nat): Rows { map id | id in rows && rows[id].uid != uid :: rows[id] }

  function DeleteEffect(s: State, c: nat, uid: nat): State {
    if Active(s, uid) then
      Ended(s, c, Changed).(accounts := s.accounts[uid := true], rows := Survivors(s.rows, uid), removed := s.removed + Keys(s.rows, OwnIds(s.rows, uid)))
    else Ended(s, c, Refused(AccountDeleted))
  }

  lemma DeleteMarks(s: State, c: nat, uid: nat)
    requires s.calls == map[] && c !in s.results
    ensures Reach(s, if Active(s, uid) then With(s, c, DeleteRows(uid)) else Ended(s, c, Refused(AccountDeleted)))
  {
    Starts(s, c, DeleteMark(uid));
    var s1 := With(s, c, DeleteMark(uid));
    OneCall(s, c, DeleteMark(uid));
    assert Moved(s1, c, true) == if Active(s, uid) then With(s, c, DeleteRows(uid)) else Ended(s, c, Refused(AccountDeleted));
    hide Reach, Moved;
    Moves(s, s1, c, true);
  }

  lemma DeleteAlone(s: State, c: nat, uid: nat)
    requires s.calls == map[] && c !in s.results
    ensures Reach(s, DeleteEffect(s, c, uid))
  {
    DeleteMarks(s, c, uid);
    if Active(s, uid) {
      var ids := OwnIds(s.rows, uid);
      var m, m1 := With(s, c, DeleteRows(uid)), With(s, c, DeleteCommit(uid, ids));
      assert m1.calls - {c} == map[] && s.rows - ids == Survivors(s.rows, uid);
      assert Moved(m1, c, true) == DeleteEffect(s, c, uid);
      hide Reach, Moved;
      OneCall(s, c, m.calls[c]);
      MovedIs(m, c, true);
      Moves(s, m, c, true);
      Moves(s, m1, c, true);
    }
  }

  method DeleteCall(store: Store, uid: nat, ghost s: State, ghost c: nat) returns (e: Option<Error>, ghost s': State)
    requires store.Valid() && Holds(store, s) && s.calls == map[] && c !in s.results
    modifies store
    ensures store.Valid() && Holds(store, s') && Reach(s, s') && s'.results == s.results[c := Reported(e)]
  {
    DeleteAlone(s, c, uid);
    s' := DeleteEffect(s, c, uid);
    hide Reach, Tables;
    e := store.DeleteAccount(uid);
  }

  // ----- find or create

  function LoginReport(key: Key, r: LoginResult): Result {
    match r
    case LoggedIn(uid, registered) => Logged(key, uid, registered)
    case LoginError(e) => LoginFailed(key, if e == TooLong then Unavailable else e)
  }

  lemma LoginFinds(s: State, c: nat, key: Key, u: Option<string>, uid: nat)
    requires s.calls == map[] && c !in s.results && Tables(s.accounts, s.rows) && Holder(s.rows, key, uid)
    ensures Reach(s, Ended(s, c, Logged(key, uid, false)))
  {
    Starts(s, c, Find(key, u));
    var m, m1 := With(s, c, Find(key, u)), With(s, c, Check(key, uid));
    assert Lookup(s.rows, key) == Some(uid) by { LookupHolder(s, key); }
    assert uid in s.accounts && !s.accounts[uid];
    hide Reach, Moved, Tables, Holder, Lookup;
    OneCall(s, c, m.calls[c]);
    OneCall(s, c, m1.calls[c]);
    MovedIs(m, c, true);
    MovedIs(m1, c, true);
    Moves(s, m, c, true);
    Moves(s, m1, c, true);
  }

  /** An unknown identity: the account is created, then its row is sent or refused. */
  lemma LoginCreates(s: State, c: nat, key: Key, u: Option<string>)
    requires s.calls == map[] && c !in s.results && !Bound(s.rows, key)
    ensures Reach(s, With(s, c, CreateIdentity(key, u, s.nextUid)).(nextUid := s.nextUid + 1))
  {
    Starts(s, c, Find(key, u));
    var m, m1 := With(s, c, Find(key, u)), With(s, c, CreateAccount(key, u));
    assert Lookup(s.rows, key) == None;
    hide Reach, Moved, Bound, Lookup;
    OneCall(s, c, m.calls[c]);
    OneCall(s, c, m1.calls[c]);
    MovedIs(m, c, true);
    MovedIs(m1, c, true);
    Moves(s, m, c, true);
    Moves(s, m1, c, true);
  }

  ghost function Registered(s: State, c: nat, key: Key, u: Option<string>): State {
    var uid := s.nextUid;
    Ended(s, c, Logged(key, uid, true)).(accounts := s.accounts[uid := false], rows := s.rows[s.nextId := Identity(uid, key, u)],
                                         nextUid := uid + 1, nextId := s.nextId + 1, created := s.created[uid := (key, c)])
  }

  lemma NewRowFits(s: State, row: Identity)
    requires Tables(s.accounts, s.rows) && row.uid !in s.accounts && !Bound(s.rows, row.key)
    ensures !Clashes(s.rows, row)
  {
  }

  lemma RegistrationCommits(s: State, c: nat, key: Key, u: Option<string>)
    ensures var row := Identity(s.nextUid, key, u);
      Moved(With(s, c, CreateCommit(key, s.nextUid, s.nextId, row)).(nextUid := s.nextUid + 1, nextId := s.nextId + 1), c, true)
      == Registered(s, c, key, u)
  {
    var row := Identity(s.nextUid, key, u);
    var m1 := With(s, c, CreateCommit(key, s.nextUid, s.nextId, row)).(nextUid := s.nextUid + 1, nextId := s.nextId + 1);
    assert m1.calls - {c} == map[];
  }

  lemma LoginRegisters(s: State, c: nat, key: Key, u: Option<string>)
    requires s.calls == map[] && c !in s.results && !Bound(s.rows, key) && Tables(s.accounts, s.rows) && s.nextUid !in s.accounts
    ensures Reach(s, Registered(s, c, key, u))
  {
    hide Reach, Moved, Clashes, Bound, Tables, Registered;
    var uid, row := s.nextUid, Identity(s.nextUid, key, u);
    NewRowFits(s, row);
    var s1 := s.(nextUid := uid + 1);
    var m := With(s1, c, CreateIdentity(key, u, uid));
    var m1 := With(s1, c, CreateCommit(key, uid, s.nextId, row)).(nextId := s.nextId + 1);
    LoginCreates(s, c, key, u);
    OneCall(s1, c, m.calls[c]);
    MovedIs(m, c, true);
    assert Moved(m, c, true) == m1;
    Moves(s, m, c, true);
    RegistrationCommits(s, c, key, u);
    assert m1 == With(s, c, CreateCommit(key, uid, s.nextId, row)).(nextUid := uid + 1, nextId := s.nextId + 1);
    Moves(s, m1, c, true);
  }

  lemma LoginRefused(s: State, c: nat, key: Key, u: Option<string>)
    requires s.calls == map[] && c !in s.results && !Bound(s.rows, key)
    ensures Reach(s, Ended(s, c, LoginFailed(key, Unavailable)).(nextUid := s.nextUid + 1))
  {
    hide Reach, Bound;
    LoginCreates(s, c, key, u);
    var s1 := s.(nextUid := s.nextUid + 1);
    var m := With(s1, c, CreateIdentity(key, u, s.nextUid));
    OneCall(s1, c, m.calls[c]);
    Aborts(s, m, c);
  }

  /** `FindOrCreateAccount` with nobody in between. */
  method LoginCall(store: Store, key: Key, unionId: string, others: nat -> (Db -> Db), ghost s: State, ghost c: nat)
    returns (r: LoginResult, ghost s': State)
    requires store.Valid() && Holds(store, s) && s.calls == map[] && c !in s.results
    requires Undisturbed(others) && forall n :: Orderly(others(n))
    modifies store
    ensures store.Valid() && Holds(store, s') && Reach(s, s') && s'.results == s.results[c := LoginReport(key, r)]
  {
    ghost var u := Nullable(unionId);
    assert s.nextUid !in s.accounts;
    r := store.FindOrCreateAccount(key, unionId, others);
    hide Reach, Tables, Undisturbed, Orderly, Bound, Holder;
    if Bound(s.rows, key) {
      LoginFinds(s, c, key, u, r.uid);
      s' := Ended(s, c, Logged(key, r.uid, false));
    } else if Fits(key, unionId) {
      LoginRegisters(s, c, key, u);
      s' := Registered(s, c, key, u);
    } else {
      LoginRefused(s, c, key, u);
      s' := Ended(s, c, LoginFailed(key, Unavailable)).(nextUid := s.nextUid + 1);
    }
  }
}
