/**
 The account and identity tables of the login service as a transition system. Calls run their
 transactions statement by statement and interleave freely; a call may fail or die after every
 statement, which rolls its transaction back.

 A transaction holds the account rows it has locked, updated or inserted until it ends, and the
 rows it writes become visible when it commits. An insert waits while another open transaction
 has inserted or deleted a row with one of its unique keys. Plain queries see committed rows only,
 either the current ones or those of the transaction's first plain query.
 */
module Accounts {
  import opened Common

  /** What the third party says about a player: login type, application and the player's ID there. */
  datatype Key = Key(loginType: int, appId: string, openId: string)

  datatype Identity = Identity(uid: nat, key: Key, unionId: Option<string>)

  type Rows = map<nat, Identity>

  /** Two rows that one of the two unique indexes keeps apart. */
  predicate Clash(a: Identity, b: Identity) {
    a.key == b.key || (a.uid == b.uid && a.key.loginType == b.key.loginType && a.key.appId == b.key.appId)
  }

  ghost predicate Clashes(rows: Rows, row: Identity) { exists id :: id in rows && Clash(rows[id], row) }

  ghost predicate Holder(rows: Rows, key: Key, uid: nat) { exists id :: id in rows && rows[id].key == key && rows[id].uid == uid }

  ghost predicate Bound(rows: Rows, key: Key) { exists id :: id in rows && rows[id].key == key }

  /** The relations the tables must keep; `accounts` maps a uid to its deletion mark. */
  ghost predicate Tables(accounts: map<nat, bool>, rows: Rows) {
    && (forall id :: id in rows ==> rows[id].uid in accounts && !accounts[rows[id].uid])
    && (forall u :: u in accounts && !accounts[u] ==> Owns(rows, u))
    && (forall i, j :: i in rows && j in rows && i != j ==> !Clash(rows[i], rows[j]))
  }

  ghost predicate Owns(rows: Rows, uid: nat) { exists id :: id in rows && rows[id].uid == uid }

  datatype Error =
    | AccountDeleted | BoundOtherAccount | LoginTypeAlreadyBound | NotBound | LastIdentity
    | AccountMissing | Conflict | TooLong | Unavailable

  datatype Result =
    | Logged(key: Key, uid: nat, registered: bool)   // FindOrCreateAccount succeeded
    | LoginFailed(key: Key, error: Error)
    | Changed                                        // bind, unbind or delete succeeded
    | Refused(error: Error)

  /** The next statement of a call. */
  datatype Pc =
    | BindLock(uid: nat, key: Key, unionId: Option<string>)
    | BindFind(uid: nat, key: Key, unionId: Option<string>)
    | BindExists(uid: nat, key: Key, unionId: Option<string>, view: Rows)
    | BindInsert(uid: nat, key: Key, unionId: Option<string>)
    | BindCommit(uid: nat, id: nat, row: Identity)
    | UnbindLock(uid: nat, key: Key)
    | UnbindFind(uid: nat, key: Key)
    | UnbindCount(uid: nat, id: nat, view: Rows)
    | UnbindDelete(uid: nat, id: nat)
    | UnbindCommit(uid: nat, id: nat)
    | DeleteMark(uid: nat)
    | DeleteRows(uid: nat)
    | DeleteCommit(uid: nat, ids: set<nat>)
    | Find(key: Key, unionId: Option<string>)
    | CreateAccount(key: Key, unionId: Option<string>)
    | CreateIdentity(key: Key, unionId: Option<string>, uid: nat)
    | CreateCommit(key: Key, uid: nat, id: nat, row: Identity)
    | FindAgain(key: Key)
    | Check(key: Key, uid: nat)

  datatype State = State(
    accounts: map<nat, bool>,
    rows: Rows,
    nextUid: nat,
    nextId: nat,
    calls: map<nat, Pc>,
    // history
    results: map<nat, Result>,
    created: map<nat, (Key, nat)>,   // account to the identity it was registered with and the registering call
    removed: set<Key>,               // identities a committed unbind or delete took away
    attached: set<Key>)              // identities attached by a bind, or there from the start

  /** The account row a transaction keeps others away from. */
  function Holds(pc: Pc): Option<nat> {
    if pc.BindLock? || pc.UnbindLock? || pc.DeleteMark? || pc.Find? || pc.CreateAccount? || pc.FindAgain? || pc.Check? then None
    else Some(pc.uid)
  }

  predicate Free(s: State, c: nat, uid: nat) { forall d :: d in s.calls && d != c ==> Holds(s.calls[d]) != Some(uid) }

  predicate Inserting(pc: Pc) { pc.BindCommit? || pc.CreateCommit? }

  function Deleting(pc: Pc): set<nat> {
    if pc.UnbindCommit? then {pc.id} else if pc.DeleteCommit? then pc.ids else {}
  }

  /** No other open transaction has touched an index entry of `row`. */
  ghost predicate Unblocked(s: State, c: nat, row: Identity) {
    forall d :: d in s.calls && d != c ==>
      && (Inserting(s.calls[d]) ==> !Clash(s.calls[d].row, row))
      && (forall id :: id in Deleting(s.calls[d]) && id in s.rows ==> !Clash(s.rows[id], row))
  }

  // ----- steps

  function Go(s: State, c: nat, pc: Pc): State { s.(calls := s.calls[c := pc]) }

  function End(s: State, c: nat, r: Result): State { s.(calls := s.calls - {c}, results := s.results[c := r]) }

  predicate Active(s: State, uid: nat) { uid in s.accounts && !s.accounts[uid] }

  function RowOf(pc: Pc): Identity
    requires pc.BindInsert? || pc.CreateIdentity?
  {
    Identity(pc.uid, pc.key, pc.unionId)
  }

  ghost function BindFindStep(s: State, c: nat, pc: Pc): State
    requires pc.BindFind?
  {
    if Holder(s.rows, pc.key, pc.uid) then End(s, c, Changed)
    else if Bound(s.rows, pc.key) then End(s, c, Refused(BoundOtherAccount))
    else Go(s, c, BindExists(pc.uid, pc.key, pc.unionId, s.rows))
  }

  ghost predicate KindTaken(rows: Rows, uid: nat, key: Key) {
    exists id :: id in rows && rows[id].uid == uid && rows[id].key.loginType == key.loginType && rows[id].key.appId == key.appId
  }

  ghost function BindExistsStep(s: State, c: nat, pc: Pc, now: bool): State
    requires pc.BindExists?
  {
    if KindTaken(if now then s.rows else pc.view, pc.uid, pc.key) then End(s, c, Refused(LoginTypeAlreadyBound))
    else Go(s, c, BindInsert(pc.uid, pc.key, pc.unionId))
  }

  ghost function BindInsertStep(s: State, c: nat, pc: Pc): State
    requires pc.BindInsert?
  {
    if Clashes(s.rows, RowOf(pc)) then End(s, c, Refused(BoundOtherAccount)).(nextId := s.nextId + 1)
    else Go(s, c, BindCommit(pc.uid, s.nextId, RowOf(pc))).(nextId := s.nextId + 1)
  }

  ghost function UnbindFindStep(s: State, c: nat, pc: Pc): State
    requires pc.UnbindFind?
  {
    if Holder(s.rows, pc.key, pc.uid) then
      var id :| id in s.rows && s.rows[id].key == pc.key && s.rows[id].uid == pc.uid;
      Go(s, c, UnbindCount(pc.uid, id, s.rows))
    else End(s, c, Refused(NotBound))
  }

  function OwnIds(rows: Rows, uid: nat): (ids: set<nat>)
    ensures forall id :: id in ids <==> id in rows && rows[id].uid == uid
  {
    set id | id in rows && rows[id].uid == uid
  }

  function UnbindCountStep(s: State, c: nat, pc: Pc, now: bool): State
    requires pc.UnbindCount?
  {
    if |OwnIds(if now then s.rows else pc.view, pc.uid)| <= 1 then End(s, c, Refused(LastIdentity))
    else Go(s, c, UnbindDelete(pc.uid, pc.id))
  }

  function FindStep(s: State, c: nat, key: Key, found: Option<nat>, missing: State): State {
    if found.Some? then Go(s, c, Check(key, found.value)) else missing
  }

  /** The login record of a key. */
  ghost function Lookup(rows: Rows, key: Key): Option<nat> {
    if Bound(rows, key) then
      var id :| id in rows && rows[id].key == key;
      Some(rows[id].uid)
    else None
  }

  function CheckStep(s: State, c: nat, pc: Pc): State
    requires pc.Check?
  {
    if pc.uid !in s.accounts then End(s, c, LoginFailed(pc.key, AccountMissing))
    else if s.accounts[pc.uid] then End(s, c, LoginFailed(pc.key, AccountDeleted))
    else End(s, c, Logged(pc.key, pc.uid, false))
  }

  ghost function CreateIdentityStep(s: State, c: nat, pc: Pc): State
    requires pc.CreateIdentity?
  {
    if Clashes(s.rows, RowOf(pc)) then Go(s, c, FindAgain(pc.key)).(nextId := s.nextId + 1)
    else Go(s, c, CreateCommit(pc.key, pc.uid, s.nextId, RowOf(pc))).(nextId := s.nextId + 1)
  }

  /** What a commit makes visible. */
  function Committed(s: State, c: nat, pc: Pc): State
    requires pc.BindCommit? || pc.UnbindCommit? || pc.DeleteCommit? || pc.CreateCommit?
  {
    match pc
    case BindCommit(uid, id, row) => s.(rows := s.rows[id := row], attached := s.attached + {row.key})
    case UnbindCommit(uid, id) => s.(rows := s.rows - {id}, removed := s.removed + Keys(s.rows, {id}))
    case DeleteCommit(uid, ids) =>
      s.(accounts := s.accounts[uid := true], rows := s.rows - ids, removed := s.removed + Keys(s.rows, ids))
    case CreateCommit(key, uid, id, row) =>
      s.(accounts := s.accounts[uid := false], rows := s.rows[id := row], created := s.created[uid := (key, c)])
  }

  function Keys(rows: Rows, ids: set<nat>): set<Key> { set id | id in ids && id in rows :: rows[id].key }

  function Report(pc: Pc): Result {
    if pc.CreateCommit? then Logged(pc.key, pc.uid, true) else Changed
  }

  /** What a call reports when a statement fails on it. */
  function Failure(pc: Pc): Result {
    if pc.Find? || pc.CreateAccount? || pc.CreateIdentity? || pc.CreateCommit? || pc.FindAgain? || pc.Check?
    then LoginFailed(pc.key, Unavailable) else Refused(Unavailable)
  }

  predicate Commits(pc: Pc) { pc.BindCommit? || pc.UnbindCommit? || pc.DeleteCommit? || pc.CreateCommit? }

  /** Locking statements wait for the account row, inserts for the index entries. */
  ghost predicate Enabled(s: State, c: nat, pc: Pc) {
    && (pc.BindLock? || pc.UnbindLock? || pc.DeleteMark? ==> Free(s, c, pc.uid))
    && (pc.BindInsert? || pc.CreateIdentity? ==> Unblocked(s, c, RowOf(pc)))
  }

  /** One statement; `now` says which committed rows a later plain query of a transaction sees. */
  ghost function Moved(s: State, c: nat, now: bool): State
    requires c in s.calls
  {
    var pc := s.calls[c];
    match pc
    case BindLock(uid, key, unionId) =>
      if Active(s, uid) then Go(s, c, BindFind(uid, key, unionId)) else End(s, c, Refused(AccountDeleted))
    case BindFind(_, _, _) => BindFindStep(s, c, pc)
    case BindExists(_, _, _, _) => BindExistsStep(s, c, pc, now)
    case BindInsert(_, _, _) => BindInsertStep(s, c, pc)
    case UnbindLock(uid, key) =>
      if Active(s, uid) then Go(s, c, UnbindFind(uid, key)) else End(s, c, Refused(AccountDeleted))
    case UnbindFind(_, _) => UnbindFindStep(s, c, pc)
    case UnbindCount(_, _, _) => UnbindCountStep(s, c, pc, now)
    case UnbindDelete(uid, id) => Go(s, c, UnbindCommit(uid, id))
    case DeleteMark(uid) =>
      if Active(s, uid) then Go(s, c, DeleteRows(uid)) else End(s, c, Refused(AccountDeleted))
    case DeleteRows(uid) => Go(s, c, DeleteCommit(uid, OwnIds(s.rows, uid)))
    case Find(key, unionId) => FindStep(s, c, key, Lookup(s.rows, key), Go(s, c, CreateAccount(key, unionId)))
    case CreateAccount(key, unionId) => Go(s, c, CreateIdentity(key, unionId, s.nextUid)).(nextUid := s.nextUid + 1)
    case CreateIdentity(_, _, _) => CreateIdentityStep(s, c, pc)
    case FindAgain(key) => FindStep(s, c, key, Lookup(s.rows, key), End(s, c, LoginFailed(key, Conflict)))
    case Check(_, _) => CheckStep(s, c, pc)
    case _ => End(Committed(s, c, pc), c, Report(pc))
  }

  datatype Action =
    | Start(call: nat, pc: Pc)
    | Move(call: nat, now: bool)
    | Abort(call: nat)              // the statement fails and the transaction is rolled back
    | Lose(call: nat)               // the commit takes effect but its confirmation is lost

  ghost predicate Next(s: State, a: Action, s': State) {
    match a
    case Start(c, pc) =>
      && c !in s.calls && c !in s.results
      && (pc.BindLock? || pc.UnbindLock? || pc.DeleteMark? || pc.Find?)
      && s' == Go(s, c, pc)
    case Move(c, now) => c in s.calls && Enabled(s, c, s.calls[c]) && s' == Moved(s, c, now)
    case Abort(c) => c in s.calls && s' == End(s, c, Failure(s.calls[c]))
    case Lose(c) => c in s.calls && Commits(s.calls[c]) && s' == End(Committed(s, c, s.calls[c]), c, Failure(s.calls[c]))
  }

  /** Any tables in order, no call under way. */
  ghost predicate Init(s: State) {
    && Tables(s.accounts, s.rows)
    && (forall u :: u in s.accounts ==> u < s.nextUid)
    && (forall id :: id in s.rows ==> id < s.nextId)
    && s.calls == map[] && s.results == map[] && s.created == map[] && s.removed == {}
    && s.attached == Keys(s.rows, s.rows.Keys)
  }

  ghost predicate Steps(s: State, s': State) { exists a :: Next(s, a, s') }

  ghost predicate IsRun(tr: seq<State>) {
    |tr| > 0 && Init(tr[0]) && forall i :: 0 <= i < |tr| - 1 ==> Steps(tr[i], tr[i + 1])
  }
}
