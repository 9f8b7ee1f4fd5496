/** What every interleaving of account calls keeps. */
module AccountRuns {
  import opened Common
  import opened Accounts

  // ----- the invariant

  /** Two row sets agree on the rows of one account. */
  ghost predicate SameRows(a: Rows, b: Rows, uid: nat) {
    && (forall id :: id in a && a[id].uid == uid ==> id in b && b[id] == a[id])
    && (forall id :: id in b && b[id].uid == uid ==> id in a && a[id] == b[id])
  }

  ghost predicate OwnsTwo(rows: Rows, uid: nat, id: nat) {
    id in rows && rows[id].uid == uid && exists other :: other in rows && other != id && rows[other].uid == uid
  }

  /** The key belongs to the account, or was taken away at some point. */
  ghost predicate HeldOrRemoved(s: State, key: Key, uid: nat) {
    uid in s.accounts && ((Active(s, uid) && Holder(s.rows, key, uid)) || key in s.removed)
  }

  ghost predicate PendingInsertOk(s: State, id: nat, row: Identity) {
    id < s.nextId && id !in s.rows && !Clashes(s.rows, row)
  }

  ghost predicate PcOk(s: State, pc: Pc) {
    match pc
    case BindFind(uid, _, _) => Active(s, uid)
    case BindExists(uid, _, _, view) => Active(s, uid) && SameRows(view, s.rows, uid)
    case BindInsert(uid, key, _) => Active(s, uid) && !KindTaken(s.rows, uid, key)
    case BindCommit(uid, id, row) => Active(s, uid) && row.uid == uid && PendingInsertOk(s, id, row)
    case UnbindFind(uid, _) => Active(s, uid)
    case UnbindCount(uid, id, view) => Active(s, uid) && SameRows(view, s.rows, uid) && id in view && view[id].uid == uid
    case UnbindDelete(uid, id) => Active(s, uid) && OwnsTwo(s.rows, uid, id)
    case UnbindCommit(uid, id) => Active(s, uid) && OwnsTwo(s.rows, uid, id)
    case DeleteRows(uid) => Active(s, uid)
    case DeleteCommit(uid, ids) => Active(s, uid) && (forall id :: id in ids <==> id in s.rows && s.rows[id].uid == uid)
    case CreateIdentity(key, _, uid) => uid < s.nextUid && uid !in s.accounts
    case CreateCommit(key, uid, id, row) =>
      uid < s.nextUid && uid !in s.accounts && row.uid == uid && row.key == key && PendingInsertOk(s, id, row)
    case FindAgain(key) => Bound(s.rows, key) || key in s.removed
    case Check(key, uid) => HeldOrRemoved(s, key, uid)
    case _ => true
  }

  /** Two open transactions hold different accounts and insert rows that can both be committed. */
  predicate Apart(a: Pc, b: Pc) {
    && (Holds(a).Some? ==> Holds(a) != Holds(b))
    && (Inserting(a) && Inserting(b) ==> a.id != b.id && !Clash(a.row, b.row))
  }

  ghost predicate ResultOk(s: State, c: nat, r: Result) {
    match r
    case Logged(key, uid, registered) =>
      HeldOrRemoved(s, key, uid) && (registered <==> uid in s.created && s.created[uid] == (key, c))
    case LoginFailed(key, e) => e == Unavailable || (e != AccountMissing && key in s.removed)
    case _ => true
  }

  ghost predicate CreatedOk(s: State, uid: nat, key: Key, c: nat) {
    && HeldOrRemoved(s, key, uid)
    && c in s.results && (s.results[c] == Logged(key, uid, true) || s.results[c] == LoginFailed(key, Unavailable))
  }

  ghost predicate RowOk(s: State, id: nat, row: Identity) {
    && id < s.nextId
    && (row.key in s.attached || (row.uid in s.created && s.created[row.uid].0 == row.key))
  }

  ghost predicate Inv(s: State) {
    && Tables(s.accounts, s.rows)
    && (forall u :: u in s.accounts ==> u < s.nextUid)
    && (forall id :: id in s.rows ==> RowOk(s, id, s.rows[id]))
    && (forall c :: c in s.calls ==> c !in s.results && PcOk(s, s.calls[c]))
    && (forall c, d :: c in s.calls && d in s.calls && c != d ==> Apart(s.calls[c], s.calls[d]))
    && (forall c :: c in s.results ==> ResultOk(s, c, s.results[c]))
    && (forall u :: u in s.created ==> CreatedOk(s, u, s.created[u].0, s.created[u].1))
  }

  lemma InitInv(s: State)
    requires Init(s)
    ensures Inv(s)
  {
  }

  // ----- steps that leave the tables alone

  /** Same tables and same history of accounts; counters may have grown. */
  predicate Quiet(s: State, s': State) {
    && s'.accounts == s.accounts && s'.rows == s.rows && s.nextUid <= s'.nextUid && s.nextId <= s'.nextId
    && s'.created == s.created && s'.removed == s.removed && s'.attached == s.attached
  }

  lemma QuietPc(s: State, s': State, pc: Pc)
    requires Quiet(s, s') && PcOk(s, pc)
    ensures PcOk(s', pc)
  {
  }

  /** A call moves on. */
  lemma GoInv(s: State, c: nat, pc: Pc, s': State)
    requires Inv(s) && Quiet(s, s') && s'.results == s.results && c !in s.results
    requires s'.calls == s.calls[c := pc] && PcOk(s', pc)
    requires forall d :: d in s.calls && d != c ==> Apart(s.calls[d], pc) && Apart(pc, s.calls[d])
    ensures Inv(s')
  {
    hide PcOk, Apart, Tables;
    forall d | d in s'.calls ensures PcOk(s', s'.calls[d]) { if d != c { QuietPc(s, s', s.calls[d]); } }
  }

  /** A call ends. */
  lemma EndInv(s: State, c: nat, r: Result, s': State)
    requires Inv(s) && Quiet(s, s') && c in s.calls
    requires s'.calls == s.calls - {c} && s'.results == s.results[c := r] && ResultOk(s', c, r)
    ensures Inv(s')
  {
    hide PcOk, Apart, Tables;
    forall d | d in s'.calls ensures PcOk(s', s'.calls[d]) { QuietPc(s, s', s.calls[d]); }
  }

  // ----- commits

  /** Only the account `u` and its rows change, and every key taken away is on record. */
  ghost predicate Shift(s: State, s': State, u: nat) {
    && (forall v :: v in s.accounts ==> v in s'.accounts)
    && (forall v :: v != u && v in s'.accounts ==> v in s.accounts && s'.accounts[v] == s.accounts[v])
    && (forall v :: v != u ==> SameRows(s.rows, s'.rows, v))
    && (forall id :: id in s.rows ==>
          (id in s'.rows && s'.rows[id] == s.rows[id] && Active(s', s.rows[id].uid)) || s.rows[id].key in s'.removed)
    && s.removed <= s'.removed && s.attached <= s'.attached && s.nextUid == s'.nextUid && s.nextId == s'.nextId
    && (forall v :: v in s.created ==> v in s'.created && s'.created[v] == s.created[v])
    && (forall v :: v in s'.created ==> v in s.created || v == u)
  }

  lemma HeldStays(s: State, s': State, u: nat, key: Key, uid: nat)
    requires Shift(s, s', u) && HeldOrRemoved(s, key, uid)
    ensures HeldOrRemoved(s', key, uid)
  {
  }

  /** A commit on another account, whose rows do not clash with what this transaction inserts, is harmless to it. */
  lemma ShiftPc(s: State, s': State, u: nat, pc: Pc)
    requires Shift(s, s', u) && PcOk(s, pc) && Holds(pc) != Some(u)
    requires Inserting(pc) ==> pc.id !in s'.rows && forall id :: id in s'.rows && id !in s.rows ==> !Clash(s'.rows[id], pc.row)
    requires forall id :: id in s.rows && id in s'.rows ==> s'.rows[id] == s.rows[id]
    ensures PcOk(s', pc)
  {
    if Holds(pc).Some? {
      var v := Holds(pc).value;
      assert SameRows(s.rows, s'.rows, v);
      if pc.UnbindDelete? || pc.UnbindCommit? {
        var other :| other in s.rows && other != pc.id && s.rows[other].uid == v;
        assert other in s'.rows;
      }
    } else if pc.Check? {
      HeldStays(s, s', u, pc.key, pc.uid);
    }
  }

  lemma ShiftResult(s: State, s': State, u: nat, c: nat, r: Result)
    requires Shift(s, s', u) && ResultOk(s, c, r)
    requires u in s'.created && u !in s.created ==> s'.created[u].1 != c
    ensures ResultOk(s', c, r)
  {
    if r.Logged? { HeldStays(s, s', u, r.key, r.uid); }
  }

  /** What has to be shown of a commit by call `c` on account `u`. */
  ghost predicate CommitOk(s: State, s': State, c: nat, u: nat, r: Result) {
    && c in s.calls && Holds(s.calls[c]) == Some(u) && Shift(s, s', u)
    && s'.calls == s.calls - {c} && s'.results == s.results[c := r] && ResultOk(s', c, r)
    && Tables(s'.accounts, s'.rows) && (forall v :: v in s'.accounts ==> v < s'.nextUid)
    && (forall id :: id in s'.rows ==> (id in s.rows && s'.rows[id] == s.rows[id]) || (RowOk(s', id, s'.rows[id]) && id !in s.rows))
    && (forall d :: d in s.calls && d != c && Inserting(s.calls[d]) ==> SafeFor(s, s', s.calls[d].id, s.calls[d].row))
    && (u in s'.created && u !in s.created ==> CreatedOk(s', u, s'.created[u].0, c) && s'.created[u].1 == c)
  }

  /** The new rows leave room for a pending insert. */
  ghost predicate SafeFor(s: State, s': State, id: nat, row: Identity) {
    id !in s'.rows && forall i :: i in s'.rows && i !in s.rows ==> !Clash(s'.rows[i], row)
  }

  lemma CommitCalls(s: State, s': State, c: nat, u: nat, r: Result)
    requires Inv(s) && CommitOk(s, s', c, u, r)
    ensures forall d :: d in s'.calls ==> d !in s'.results && PcOk(s', s'.calls[d])
    ensures forall d, e :: d in s'.calls && e in s'.calls && d != e ==> Apart(s'.calls[d], s'.calls[e])
  {
    hide PcOk, Tables, Shift, ResultOk, CreatedOk, RowOk;
    forall d | d in s'.calls ensures PcOk(s', s'.calls[d]) {
      assert Apart(s.calls[c], s.calls[d]) && PcOk(s, s.calls[d]);
      ShiftPc(s, s', u, s.calls[d]);
    }
  }

  lemma CommitRows(s: State, s': State, c: nat, u: nat, r: Result)
    requires Inv(s) && CommitOk(s, s', c, u, r)
    ensures forall id :: id in s'.rows ==> RowOk(s', id, s'.rows[id])
  {
    hide PcOk, Tables, ResultOk, CreatedOk, Apart, SafeFor;
  }

  lemma CommitHistory(s: State, s': State, c: nat, u: nat, r: Result)
    requires Inv(s) && CommitOk(s, s', c, u, r)
    ensures forall d :: d in s'.results ==> ResultOk(s', d, s'.results[d])
    ensures forall v :: v in s'.created ==> CreatedOk(s', v, s'.created[v].0, s'.created[v].1)
  {
    hide PcOk, Tables, RowOk, Apart;
    forall d | d in s'.results ensures ResultOk(s', d, s'.results[d]) {
      if d != c { hide ResultOk; ShiftResult(s, s', u, d, s.results[d]); }
    }
    forall v | v in s'.created ensures CreatedOk(s', v, s'.created[v].0, s'.created[v].1) {
      if v in s.created { HeldStays(s, s', u, s.created[v].0, v); }
    }
  }

  /** A commit keeps the invariant if the tables stay in order. */
  lemma CommitInv(s: State, s': State, c: nat, u: nat, r: Result)
    requires Inv(s) && CommitOk(s, s', c, u, r)
    ensures Inv(s')
  {
    hide PcOk, Tables, Shift, ResultOk, CreatedOk, RowOk, Apart, SafeFor;
    CommitCalls(s, s', c, u, r);
    CommitRows(s, s', c, u, r);
    CommitHistory(s, s', c, u, r);
  }

  /** How a commit is reported: confirmed, or lost on the way back. */
  predicate Reported(pc: Pc, r: Result) { r == Report(pc) || r == Failure(pc) }

  /** Tables stay in order when a row that clashes with none is inserted for an active account. */
  lemma TablesInsert(accounts: map<nat, bool>, rows: Rows, accounts': map<nat, bool>, id: nat, row: Identity)
    requires Tables(accounts, rows) && !Clashes(rows, row) && id !in rows
    requires accounts' == accounts[row.uid := false] && (row.uid in accounts ==> !accounts[row.uid])
    ensures Tables(accounts', rows[id := row])
  {
    var rows' := rows[id := row];
    forall u | u in accounts' && !accounts'[u] ensures Owns(rows', u) {
      if u == row.uid {
        assert id in rows' && rows'[id].uid == u;
      } else {
        assert Owns(rows, u);
        var i :| i in rows && rows[i].uid == u;
        assert i in rows' && rows'[i].uid == u;
      }
    }
  }

  lemma InsertSafe(s: State, s': State, c: nat)
    requires Inv(s) && c in s.calls && Inserting(s.calls[c]) && s'.rows == s.rows[s.calls[c].id := s.calls[c].row]
    ensures forall d :: d in s.calls && d != c && Inserting(s.calls[d]) ==> SafeFor(s, s', s.calls[d].id, s.calls[d].row)
  {
    hide Tables, ResultOk, CreatedOk, RowOk;
    forall d | d in s.calls && d != c && Inserting(s.calls[d]) ensures SafeFor(s, s', s.calls[d].id, s.calls[d].row) {
      assert Apart(s.calls[c], s.calls[d]) && PcOk(s, s.calls[d]);
    }
  }

  lemma InsertShift(s: State, s': State, id: nat, row: Identity)
    requires Tables(s.accounts, s.rows) && id !in s.rows && s'.rows == s.rows[id := row]
    requires s'.accounts == s.accounts[row.uid := false] && (row.uid in s.accounts ==> !s.accounts[row.uid])
    requires s'.removed == s.removed && s.attached <= s'.attached && s'.nextUid == s.nextUid && s'.nextId == s.nextId
    requires s'.created == s.created || (row.uid !in s.created && s'.created.Keys == s.created.Keys + {row.uid} && s'.created - {row.uid} == s.created)
    ensures Shift(s, s', row.uid)
  {
    forall v | v != row.uid ensures SameRows(s.rows, s'.rows, v) { }
  }

  lemma CallFacts(s: State, c: nat)
    requires Inv(s) && c in s.calls
    ensures PcOk(s, s.calls[c]) && Tables(s.accounts, s.rows) && c !in s.results
    ensures forall u :: u in s.accounts ==> u < s.nextUid
    ensures s.calls[c].CreateCommit? ==> s.calls[c].uid !in s.created
  {
    if s.calls[c].CreateCommit? && s.calls[c].uid in s.created {
      var u := s.calls[c].uid;
      assert CreatedOk(s, u, s.created[u].0, s.created[u].1);
    }
  }

  lemma BindCommitInv(s: State, c: nat, r: Result)
    requires Inv(s) && c in s.calls && s.calls[c].BindCommit? && Reported(s.calls[c], r)
    ensures Inv(End(Committed(s, c, s.calls[c]), c, r))
  {
    hide Inv, Tables, Clashes;
    CallFacts(s, c);
    var pc := s.calls[c];
    var s' := End(Committed(s, c, pc), c, r);
    assert PcOk(s, pc) && pc.row.uid == pc.uid;
    assert s'.accounts == s.accounts[pc.uid := false];
    assert pc.id !in s.rows && !Clashes(s.rows, pc.row) && RowOk(s', pc.id, pc.row) && ResultOk(s', c, r);
    hide PcOk, ResultOk, CreatedOk, RowOk, Apart, SafeFor, Shift;
    TablesInsert(s.accounts, s.rows, s'.accounts, pc.id, pc.row);
    InsertSafe(s, s', c);
    InsertShift(s, s', pc.id, pc.row);
    assert CommitOk(s, s', c, pc.uid, r);
    CommitInv(s, s', c, pc.uid, r);
  }

  lemma CreateCommitInv(s: State, c: nat, r: Result)
    requires Inv(s) && c in s.calls && s.calls[c].CreateCommit? && Reported(s.calls[c], r)
    ensures Inv(End(Committed(s, c, s.calls[c]), c, r))
  {
    hide Inv, Tables, Clashes;
    CallFacts(s, c);
    var pc := s.calls[c];
    var s' := End(Committed(s, c, pc), c, r);
    assert PcOk(s, pc) && pc.row.uid == pc.uid;
    assert s'.created - {pc.uid} == s.created;
    assert pc.id !in s.rows && !Clashes(s.rows, pc.row) && RowOk(s', pc.id, pc.row);
    assert HeldOrRemoved(s', pc.key, pc.uid) by { assert s'.rows[pc.id] == pc.row; }
    assert CreatedOk(s', pc.uid, pc.key, c) && ResultOk(s', c, r);
    hide PcOk, ResultOk, CreatedOk, RowOk, Apart, SafeFor, Shift, HeldOrRemoved;
    TablesInsert(s.accounts, s.rows, s'.accounts, pc.id, pc.row);
    InsertSafe(s, s', c);
    InsertShift(s, s', pc.id, pc.row);
    assert CommitOk(s, s', c, pc.uid, r);
    CommitInv(s, s', c, pc.uid, r);
  }

  lemma UnbindTables(accounts: map<nat, bool>, rows: Rows, uid: nat, id: nat)
    requires Tables(accounts, rows) && OwnsTwo(rows, uid, id)
    ensures Tables(accounts, rows - {id})
  {
    var rows' := rows - {id};
    forall u | u in accounts && !accounts[u] ensures Owns(rows', u) {
      if u == uid {
        var other :| other in rows && other != id && rows[other].uid == uid;
        assert other in rows';
      } else {
        assert Owns(rows, u);
        var i :| i in rows && rows[i].uid == u;
        assert i in rows';
      }
    }
  }

  lemma RemoveShift(s: State, s': State, u: nat, ids: set<nat>)
    requires Tables(s.accounts, s.rows) && u in s.accounts
    requires s'.rows == s.rows - ids && (forall id :: id in ids && id in s.rows ==> s.rows[id].uid == u)
    requires s'.accounts == s.accounts || (s'.accounts == s.accounts[u := true] && forall id :: id in s.rows && s.rows[id].uid == u ==> id in ids)
    requires s'.removed == s.removed + Keys(s.rows, ids) && s'.attached == s.attached && s'.created == s.created
    requires s'.nextUid == s.nextUid && s'.nextId == s.nextId
    ensures Shift(s, s', u)
  {
    forall v | v != u ensures SameRows(s.rows, s'.rows, v) { }
    forall id | id in s.rows ensures (id in s'.rows && s'.rows[id] == s.rows[id] && Active(s', s.rows[id].uid)) || s.rows[id].key in s'.removed {
      if id in ids { assert s.rows[id].key in Keys(s.rows, ids); }
    }
  }

  lemma RemoveSafe(s: State, s': State, c: nat, ids: set<nat>)
    requires Inv(s) && c in s.calls && s'.rows == s.rows - ids
    ensures forall d :: d in s.calls && d != c && Inserting(s.calls[d]) ==> SafeFor(s, s', s.calls[d].id, s.calls[d].row)
  {
    hide Tables, ResultOk, CreatedOk, RowOk, Apart;
    forall d | d in s.calls && d != c && Inserting(s.calls[d]) ensures SafeFor(s, s', s.calls[d].id, s.calls[d].row) {
      assert PcOk(s, s.calls[d]);
    }
  }

  lemma UnbindCommitInv(s: State, c: nat, r: Result)
    requires Inv(s) && c in s.calls && s.calls[c].UnbindCommit? && Reported(s.calls[c], r)
    ensures Inv(End(Committed(s, c, s.calls[c]), c, r))
  {
    hide Inv, Tables, Clashes;
    CallFacts(s, c);
    var pc := s.calls[c];
    var s' := End(Committed(s, c, pc), c, r);
    assert PcOk(s, pc) && OwnsTwo(s.rows, pc.uid, pc.id) && Active(s, pc.uid) && ResultOk(s', c, r);
    hide PcOk, ResultOk, CreatedOk, RowOk, Apart, SafeFor, Shift;
    UnbindTables(s.accounts, s.rows, pc.uid, pc.id);
    RemoveSafe(s, s', c, {pc.id});
    RemoveShift(s, s', pc.uid, {pc.id});
    assert CommitOk(s, s', c, pc.uid, r);
    CommitInv(s, s', c, pc.uid, r);
  }

  lemma DeleteTables(accounts: map<nat, bool>, rows: Rows, uid: nat, ids: set<nat>)
    requires Tables(accounts, rows) && forall id :: id in ids <==> id in rows && rows[id].uid == uid
    ensures Tables(accounts[uid := true], rows - ids)
  {
    var accounts', rows' := accounts[uid := true], rows - ids;
    forall u | u in accounts' && !accounts'[u] ensures Owns(rows', u) {
      assert Owns(rows, u);
      var i :| i in rows && rows[i].uid == u;
      assert i in rows';
    }
  }

  lemma DeleteCommitInv(s: State, c: nat, r: Result)
    requires Inv(s) && c in s.calls && s.calls[c].DeleteCommit? && Reported(s.calls[c], r)
    ensures Inv(End(Committed(s, c, s.calls[c]), c, r))
  {
    hide Inv, Tables, Clashes;
    CallFacts(s, c);
    var pc := s.calls[c];
    var s' := End(Committed(s, c, pc), c, r);
    assert PcOk(s, pc) && Active(s, pc.uid) && ResultOk(s', c, r);
    assert forall id :: id in pc.ids <==> id in s.rows && s.rows[id].uid == pc.uid;
    hide PcOk, ResultOk, CreatedOk, RowOk, Apart, SafeFor, Shift;
    DeleteTables(s.accounts, s.rows, pc.uid, pc.ids);
    RemoveSafe(s, s', c, pc.ids);
    RemoveShift(s, s', pc.uid, pc.ids);
    assert CommitOk(s, s', c, pc.uid, r);
    CommitInv(s, s', c, pc.uid, r);
  }

  // ----- statements

  ghost predicate ApartFrom(s: State, c: nat, pc: Pc) {
    forall d :: d in s.calls && d != c ==> Apart(s.calls[d], pc) && Apart(pc, s.calls[d])
  }

  /** A statement that locks nothing new and inserts nothing keeps the call apart from the others. */
  lemma StaysApart(s: State, c: nat, pc: Pc)
    requires Inv(s) && c in s.calls && !Inserting(pc) && (Holds(pc) == Holds(s.calls[c]) || Holds(pc) == None)
    ensures ApartFrom(s, c, pc)
  {
    hide PcOk, Tables, ResultOk, CreatedOk, RowOk;
    forall d | d in s.calls && d != c ensures Apart(s.calls[d], pc) && Apart(pc, s.calls[d]) {
      assert Apart(s.calls[c], s.calls[d]) && Apart(s.calls[d], s.calls[c]);
    }
  }

  lemma LocksApart(s: State, c: nat, pc: Pc)
    requires Inv(s) && c in s.calls && !Inserting(pc) && Holds(pc).Some? && Free(s, c, Holds(pc).value)
    ensures ApartFrom(s, c, pc)
  {
    hide PcOk, Tables, ResultOk, CreatedOk, RowOk;
  }

  /** Nobody else holds an account that has not been numbered yet. */
  lemma NewUidFree(s: State, c: nat)
    requires Inv(s)
    ensures Free(s, c, s.nextUid)
  {
    hide Tables, ResultOk, CreatedOk, RowOk, Apart;
    forall d | d in s.calls && d != c ensures Holds(s.calls[d]) != Some(s.nextUid) { assert PcOk(s, s.calls[d]); }
  }

  lemma InsertsApart(s: State, c: nat, pc: Pc)
    requires Inv(s) && c in s.calls && Inserting(pc) && Holds(pc) == Holds(s.calls[c]) && pc.id == s.nextId && Unblocked(s, c, pc.row)
    ensures ApartFrom(s, c, pc)
  {
    hide Tables, ResultOk, CreatedOk, RowOk;
    forall d | d in s.calls && d != c ensures Apart(s.calls[d], pc) && Apart(pc, s.calls[d]) {
      assert Apart(s.calls[c], s.calls[d]) && Apart(s.calls[d], s.calls[c]) && PcOk(s, s.calls[d]);
    }
  }

  /** `GoInv` for a statement of call `c`. */
  lemma GoesInv(s: State, c: nat, pc: Pc, s': State)
    requires Inv(s) && c in s.calls && Quiet(s, s') && s'.results == s.results && s'.calls == s.calls[c := pc] && PcOk(s', pc) && ApartFrom(s, c, pc)
    ensures Inv(s')
  {
    assert c !in s.results;
    hide PcOk, Inv;
    GoInv(s, c, pc, s');
  }

  lemma LookupHolder(s: State, key: Key)
    requires Tables(s.accounts, s.rows) && Lookup(s.rows, key).Some?
    ensures HeldOrRemoved(s, key, Lookup(s.rows, key).value)
  {
    var id :| id in s.rows && s.rows[id].key == key && s.rows[id].uid == Lookup(s.rows, key).value;
    assert Holder(s.rows, key, s.rows[id].uid);
  }

  /** The count is taken on the account's rows as they are, whichever rows the query saw. */
  lemma CountMeansTwo(rows: Rows, view: Rows, uid: nat, id: nat)
    requires SameRows(view, rows, uid) && id in view && view[id].uid == uid
    ensures |OwnIds(view, uid)| == |OwnIds(rows, uid)|
    ensures |OwnIds(rows, uid)| > 1 <==> OwnsTwo(rows, uid, id)
  {
    var own := OwnIds(rows, uid);
    assert own == OwnIds(view, uid);
    assert id in own && |own - {id}| == |own| - 1;
    if |own| > 1 {
      assert own - {id} != {};
      var other :| other in own - {id};
      assert OwnsTwo(rows, uid, id);
    }
    if OwnsTwo(rows, uid, id) {
      var other :| other in rows && other != id && rows[other].uid == uid;
      assert other in own - {id};
    }
  }

  predicate Locking(pc: Pc) { pc.BindLock? || pc.UnbindLock? || pc.DeleteMark? }

  /** The statements by name, so that the proofs below need not unfold all of them. */
  lemma MovedIs(s: State, c: nat, now: bool)
    requires c in s.calls
    ensures var pc, s' := s.calls[c], Moved(s, c, now);
      && (pc.BindFind? ==> s' == BindFindStep(s, c, pc))
      && (pc.BindExists? ==> s' == BindExistsStep(s, c, pc, now))
      && (pc.BindInsert? ==> s' == BindInsertStep(s, c, pc))
      && (pc.UnbindFind? ==> s' == UnbindFindStep(s, c, pc))
      && (pc.UnbindCount? ==> s' == UnbindCountStep(s, c, pc, now))
      && (pc.UnbindDelete? ==> s' == Go(s, c, UnbindCommit(pc.uid, pc.id)))
      && (pc.DeleteRows? ==> s' == Go(s, c, DeleteCommit(pc.uid, OwnIds(s.rows, pc.uid))))
      && (pc.CreateIdentity? ==> s' == CreateIdentityStep(s, c, pc))
      && (pc.CreateAccount? ==> s' == Go(s, c, CreateIdentity(pc.key, pc.unionId, s.nextUid)).(nextUid := s.nextUid + 1))
      && (pc.Check? ==> s' == CheckStep(s, c, pc))
      && (pc.Find? ==> s' == FindStep(s, c, pc.key, Lookup(s.rows, pc.key), Go(s, c, CreateAccount(pc.key, pc.unionId))))
      && (pc.FindAgain? ==> s' == FindStep(s, c, pc.key, Lookup(s.rows, pc.key), End(s, c, LoginFailed(pc.key, Conflict))))
  {
  }

  /** The statements that follow a lock. */
  function Locked(pc: Pc): Pc
    requires Locking(pc)
  {
    match pc
    case BindLock(uid, key, unionId) => BindFind(uid, key, unionId)
    case UnbindLock(uid, key) => UnbindFind(uid, key)
    case DeleteMark(uid) => DeleteRows(uid)
  }

  lemma LockInv(s: State, c: nat, now: bool)
    requires Inv(s) && c in s.calls && Locking(s.calls[c]) && Enabled(s, c, s.calls[c])
    ensures Inv(Moved(s, c, now))
  {
    var pc := s.calls[c];
    assert Moved(s, c, now) == if Active(s, pc.uid) then Go(s, c, Locked(pc)) else End(s, c, Refused(AccountDeleted));
    assert Active(s, pc.uid) ==> PcOk(s, Locked(pc));
    assert Free(s, c, pc.uid) && Holds(Locked(pc)) == Some(pc.uid) && !Inserting(Locked(pc));
    hide Inv, Moved, PcOk, Free, Locked, Enabled, Holds;
    if Active(s, pc.uid) { MovesOn(s, c, Locked(pc)); } else { EndInv(s, c, Refused(AccountDeleted), End(s, c, Refused(AccountDeleted))); }
  }

  /** A statement that only moves the call on; a lock it takes must have been free. */
  lemma MovesOn(s: State, c: nat, pc: Pc)
    requires Inv(s) && c in s.calls && PcOk(s, pc) && !Inserting(pc)
    requires Holds(pc) == Holds(s.calls[c]) || Holds(pc) == None || Free(s, c, Holds(pc).value)
    ensures Inv(Go(s, c, pc))
  {
    hide Inv, PcOk, Free, Inserting, Holds;
    var s' := Go(s, c, pc);
    QuietPc(s, s', pc);
    if Holds(pc) == Holds(s.calls[c]) || Holds(pc) == None { StaysApart(s, c, pc); } else { LocksApart(s, c, pc); }
    GoesInv(s, c, pc, s');
  }

  lemma BindFindInv(s: State, c: nat, now: bool)
    requires Inv(s) && c in s.calls && s.calls[c].BindFind?
    ensures Inv(Moved(s, c, now))
  {
    hide Inv, Moved, Tables;
    MovedIs(s, c, now);
    var pc, s' := s.calls[c], Moved(s, c, now);
    CallFacts(s, c);
    var pc' := BindExists(pc.uid, pc.key, pc.unionId, s.rows);
    assert PcOk(s, pc');
    hide PcOk, Holder, Bound;
    if s' == Go(s, c, pc') { MovesOn(s, c, pc'); } else { EndInv(s, c, s'.results[c], s'); }
  }

  lemma BindExistsInv(s: State, c: nat, now: bool)
    requires Inv(s) && c in s.calls && s.calls[c].BindExists?
    ensures Inv(Moved(s, c, now))
  {
    hide Inv, Moved, Tables;
    MovedIs(s, c, now);
    var pc, s' := s.calls[c], Moved(s, c, now);
    CallFacts(s, c);
    var pc' := BindInsert(pc.uid, pc.key, pc.unionId);
    assert KindTaken(pc.view, pc.uid, pc.key) <==> KindTaken(s.rows, pc.uid, pc.key);
    assert !KindTaken(s.rows, pc.uid, pc.key) ==> PcOk(s, pc');
    hide PcOk, KindTaken, SameRows;
    if KindTaken(s.rows, pc.uid, pc.key) { EndInv(s, c, s'.results[c], s'); } else { MovesOn(s, c, pc'); }
  }

  /** The row of an insert that clashes with no committed row may wait for its commit. */
  lemma InsertGoes(s: State, c: nat, pc: Pc, row: Identity)
    requires Inv(s) && c in s.calls && Inserting(pc) && pc.id == s.nextId && pc.row == row && Holds(pc) == Holds(s.calls[c])
    requires Unblocked(s, c, row) && PcOk(s.(nextId := s.nextId + 1), pc)
    ensures Inv(Go(s, c, pc).(nextId := s.nextId + 1))
  {
    hide Inv, PcOk, Unblocked, Inserting, Holds;
    var s' := Go(s, c, pc).(nextId := s.nextId + 1);
    QuietPc(s.(nextId := s.nextId + 1), s', pc);
    InsertsApart(s, c, pc);
    GoesInv(s, c, pc, s');
  }

  lemma BindInsertInv(s: State, c: nat, now: bool)
    requires Inv(s) && c in s.calls && s.calls[c].BindInsert? && Enabled(s, c, s.calls[c])
    ensures Inv(Moved(s, c, now))
  {
    hide Inv, Moved, Tables;
    MovedIs(s, c, now);
    var pc, s' := s.calls[c], Moved(s, c, now);
    hide Clash;
    CallFacts(s, c);
    NextIdUnused(s);
    var pc' := BindCommit(pc.uid, s.nextId, RowOf(pc));
    assert !Clashes(s.rows, RowOf(pc)) ==> PcOk(s.(nextId := s.nextId + 1), pc');
    hide PcOk, Clashes, Unblocked;
    if Clashes(s.rows, RowOf(pc)) { EndInv(s, c, s'.results[c], s'); } else { InsertGoes(s, c, pc', RowOf(pc)); }
  }

  lemma NextIdUnused(s: State)
    requires Inv(s)
    ensures s.nextId !in s.rows
  {
    hide Tables, PcOk, ResultOk, CreatedOk, Apart;
  }

  /** A new account has no rows, so a clash of its first row is on the key. */
  lemma FirstRowClash(s: State, row: Identity)
    requires Tables(s.accounts, s.rows) && row.uid !in s.accounts && Clashes(s.rows, row)
    ensures Bound(s.rows, row.key)
  {
  }

  lemma CreateIdentityInv(s: State, c: nat, now: bool)
    requires Inv(s) && c in s.calls && s.calls[c].CreateIdentity? && Enabled(s, c, s.calls[c])
    ensures Inv(Moved(s, c, now))
  {
    hide Inv, Moved, Tables;
    MovedIs(s, c, now);
    var pc, s' := s.calls[c], Moved(s, c, now);
    hide Clash, Bound;
    CallFacts(s, c);
    NextIdUnused(s);
    if Clashes(s.rows, RowOf(pc)) {
      FirstRowClash(s, RowOf(pc));
      var again := FindAgain(pc.key);
      assert PcOk(s', again);
      hide PcOk, Unblocked;
      StaysApart(s, c, again);
      GoesInv(s, c, again, s');
    } else {
      var pc' := CreateCommit(pc.key, pc.uid, s.nextId, RowOf(pc));
      assert PcOk(s.(nextId := s.nextId + 1), pc');
      hide PcOk, Clashes, Unblocked;
      InsertGoes(s, c, pc', RowOf(pc));
    }
  }

  lemma UnbindFindInv(s: State, c: nat, now: bool)
    requires Inv(s) && c in s.calls && s.calls[c].UnbindFind?
    ensures Inv(Moved(s, c, now))
  {
    hide Inv, Moved, Tables;
    MovedIs(s, c, now);
    var pc, s' := s.calls[c], Moved(s, c, now);
    CallFacts(s, c);
    if Holder(s.rows, pc.key, pc.uid) {
      var pc' := s'.calls[c];
      assert PcOk(s, pc') && s' == Go(s, c, pc');
      hide PcOk, Holder;
      MovesOn(s, c, pc');
    } else {
      EndInv(s, c, s'.results[c], s');
    }
  }

  lemma UnbindCountInv(s: State, c: nat, now: bool)
    requires Inv(s) && c in s.calls && s.calls[c].UnbindCount?
    ensures Inv(Moved(s, c, now))
  {
    hide Inv, Moved, Tables;
    MovedIs(s, c, now);
    var pc, s' := s.calls[c], Moved(s, c, now);
    hide OwnIds;
    CallFacts(s, c);
    CountMeansTwo(s.rows, pc.view, pc.uid, pc.id);
    var pc' := UnbindDelete(pc.uid, pc.id);
    assert |OwnIds(s.rows, pc.uid)| > 1 ==> PcOk(s, pc');
    hide PcOk, SameRows, OwnsTwo;
    if |OwnIds(s.rows, pc.uid)| > 1 { MovesOn(s, c, pc'); } else { EndInv(s, c, s'.results[c], s'); }
  }

  lemma DeletesInv(s: State, c: nat, now: bool)
    requires Inv(s) && c in s.calls && (s.calls[c].DeleteRows? || s.calls[c].UnbindDelete?)
    ensures Inv(Moved(s, c, now))
  {
    hide Inv, Moved, Tables;
    MovedIs(s, c, now);
    CallFacts(s, c);
    var pc, s' := s.calls[c], Moved(s, c, now);
    var pc' := if pc.DeleteRows? then DeleteCommit(pc.uid, OwnIds(s.rows, pc.uid)) else UnbindCommit(pc.uid, pc.id);
    assert PcOk(s, pc');
    hide PcOk, OwnIds;
    MovesOn(s, c, pc');
  }

  lemma FindInv(s: State, c: nat, now: bool)
    requires Inv(s) && c in s.calls && (s.calls[c].Find? || s.calls[c].FindAgain?)
    ensures Inv(Moved(s, c, now))
  {
    hide Inv, Moved, Tables;
    MovedIs(s, c, now);
    var pc, s' := s.calls[c], Moved(s, c, now);
    var found := Lookup(s.rows, pc.key);
    CallFacts(s, c);
    assert found.None? && pc.FindAgain? ==> pc.key in s.removed;
    if found.Some? {
      LookupHolder(s, pc.key);
      assert PcOk(s, Check(pc.key, found.value));
      hide HeldOrRemoved, Lookup, PcOk;
      MovesOn(s, c, Check(pc.key, found.value));
    } else if pc.Find? {
      assert PcOk(s, CreateAccount(pc.key, pc.unionId));
      hide Lookup, PcOk;
      MovesOn(s, c, CreateAccount(pc.key, pc.unionId));
    } else {
      hide Lookup, PcOk;
      EndInv(s, c, LoginFailed(pc.key, Conflict), s');
    }
  }

  lemma CreateAccountInv(s: State, c: nat, now: bool)
    requires Inv(s) && c in s.calls && s.calls[c].CreateAccount?
    ensures Inv(Moved(s, c, now))
  {
    var s' := Moved(s, c, now);
    var pc' := CreateIdentity(s.calls[c].key, s.calls[c].unionId, s.nextUid);
    assert s' == Go(s, c, pc').(nextUid := s.nextUid + 1);
    hide Inv, Tables, Moved;
    CallFacts(s, c);
    assert PcOk(s', pc');
    hide PcOk;
    NewUidFree(s, c);
    LocksApart(s, c, pc');
    GoesInv(s, c, pc', s');
  }

  /** A call that finds an account did not create it: a creating call ends with its commit. */
  lemma NotTheCreator(s: State, c: nat, u: nat)
    requires Inv(s) && c in s.calls && u in s.created
    ensures s.created[u].1 != c
  {
    hide Tables, PcOk, ResultOk, Apart, RowOk, HeldOrRemoved;
    assert CreatedOk(s, u, s.created[u].0, s.created[u].1);
  }

  lemma CheckInv(s: State, c: nat, now: bool)
    requires Inv(s) && c in s.calls && s.calls[c].Check?
    ensures Inv(Moved(s, c, now))
  {
    hide Inv, Moved, Tables;
    MovedIs(s, c, now);
    var pc, s' := s.calls[c], Moved(s, c, now);
    CallFacts(s, c);
    if pc.uid in s.created { NotTheCreator(s, c, pc.uid); }
    EndInv(s, c, s'.results[c], s');
  }

  lemma CommitsInv(s: State, c: nat, r: Result)
    requires Inv(s) && c in s.calls && Commits(s.calls[c]) && Reported(s.calls[c], r)
    ensures Inv(End(Committed(s, c, s.calls[c]), c, r))
  {
    hide Inv, End, Committed, Reported;
    match s.calls[c]
    case BindCommit(_, _, _) => BindCommitInv(s, c, r);
    case UnbindCommit(_, _) => UnbindCommitInv(s, c, r);
    case DeleteCommit(_, _) => DeleteCommitInv(s, c, r);
    case CreateCommit(_, _, _, _) => CreateCommitInv(s, c, r);
  }

  lemma MoveInv(s: State, c: nat, now: bool)
    requires Inv(s) && c in s.calls && Enabled(s, c, s.calls[c])
    ensures Inv(Moved(s, c, now))
  {
    var pc := s.calls[c];
    hide Inv, Enabled;
    if Commits(pc) {
      CommitsInv(s, c, Report(pc));
    } else {
      hide Moved;
      match pc
      case BindFind(_, _, _) => BindFindInv(s, c, now);
      case BindExists(_, _, _, _) => BindExistsInv(s, c, now);
      case BindInsert(_, _, _) => BindInsertInv(s, c, now);
      case UnbindFind(_, _) => UnbindFindInv(s, c, now);
      case UnbindCount(_, _, _) => UnbindCountInv(s, c, now);
      case UnbindDelete(_, _) => DeletesInv(s, c, now);
      case DeleteRows(_) => DeletesInv(s, c, now);
      case Find(_, _) => FindInv(s, c, now);
      case FindAgain(_) => FindInv(s, c, now);
      case CreateAccount(_, _) => CreateAccountInv(s, c, now);
      case CreateIdentity(_, _, _) => CreateIdentityInv(s, c, now);
      case Check(_, _) => CheckInv(s, c, now);
      case _ => LockInv(s, c, now);
    }
  }

  lemma NextInv(s: State, a: Action, s': State)
    requires Inv(s) && Next(s, a, s')
    ensures Inv(s')
  {
    var c := a.call;
    if a.Move? {
      hide Inv, Moved, Enabled;
      MoveInv(s, c, a.now);
    } else if a.Start? {
      assert ApartFrom(s, c, a.pc) && PcOk(s', a.pc);
      hide Inv, PcOk, Apart;
      GoInv(s, c, a.pc, s');
    } else if a.Abort? {
      hide Inv, Tables;
      EndInv(s, c, Failure(s.calls[c]), s');
    } else {
      hide Inv, Committed;
      CommitsInv(s, c, Failure(s.calls[c]));
    }
  }

  lemma {:induction false} RunInv(tr: seq<State>, i: nat)
    requires IsRun(tr) && i < |tr|
    ensures Inv(tr[i])
  {
    if i == 0 {
      InitInv(tr[0]);
    } else {
      hide Inv, Next;
      RunInv(tr, i - 1);
      assert Steps(tr[i - 1], tr[i - 1 + 1]);
      var a :| Next(tr[i - 1], a, tr[i]);
      NextInv(tr[i - 1], a, tr[i]);
    }
  }
}
