/** What holds of every run of the account calls, whatever their interleaving and failures. */
module AccountTheorems {
  import opened Common
  import opened Accounts
  import opened AccountRuns

  /**
   Each active account has an identity and each deleted one has none; an identity belongs to one
   account; an account has one identity per login type and application.
   */
  lemma TablesStayInOrder(tr: seq<State>, i: nat)
    requires IsRun(tr) && i < |tr|
    ensures var s := tr[i];
      && (forall u :: u in s.accounts ==> (Owns(s.rows, u) <==> !s.accounts[u]))
      && (forall id :: id in s.rows ==> s.rows[id].uid in s.accounts)
      && (forall a, b :: a in s.rows && b in s.rows && s.rows[a].key == s.rows[b].key ==> a == b)
      && (forall a, b :: a in s.rows && b in s.rows && s.rows[a].uid == s.rows[b].uid && SameKind(s.rows[a].key, s.rows[b].key) ==> a == b)
  {
    RunInv(tr, i);
    hide PcOk, ResultOk, CreatedOk, RowOk, Apart;
  }

  /**
   Racing registrations of an identity that nobody takes away. All calls that succeed return one
   account, which is active and owns the identity; at most one account was registered with it; the
   call that reports a registration is the one whose transaction created that account; and no call
   fails except for an unavailable database.
   */
  lemma RegistrationRace(tr: seq<State>, i: nat, key: Key)
    requires IsRun(tr) && i < |tr| && key !in tr[i].removed
    ensures var s := tr[i];
      && (forall c, d :: c in s.results && d in s.results && LoggedAs(s.results[c], key) && LoggedAs(s.results[d], key) ==>
            s.results[c].uid == s.results[d].uid)
      && (forall c :: c in s.results && LoggedAs(s.results[c], key) ==>
            && Active(s, s.results[c].uid) && Holder(s.rows, key, s.results[c].uid)
            && (s.results[c].registered <==> s.results[c].uid in s.created && s.created[s.results[c].uid] == (key, c)))
      && (forall u, v :: u in s.created && v in s.created && s.created[u].0 == key && s.created[v].0 == key ==> u == v)
      && (forall c :: c in s.results && s.results[c].LoginFailed? && s.results[c].key == key ==> s.results[c].error == Unavailable)
  {
    RunInv(tr, i);
    var s := tr[i];
    hide PcOk, RowOk, Apart;
    forall u, v | Holder(s.rows, key, u) && Holder(s.rows, key, v) ensures u == v { OneHolder(s, key, u, v); }
    hide Tables, Holder;
    assert forall c :: c in s.results ==> ResultOk(s, c, s.results[c]);
    assert forall u :: u in s.created ==> CreatedOk(s, u, s.created[u].0, s.created[u].1);
  }

  predicate SameKind(k: Key, l: Key) { k.loginType == l.loginType && k.appId == l.appId }

  predicate LoggedAs(r: Result, key: Key) { r.Logged? && r.key == key }

  lemma OneHolder(s: State, key: Key, u: nat, v: nat)
    requires Tables(s.accounts, s.rows) && Holder(s.rows, key, u) && Holder(s.rows, key, v)
    ensures u == v
  {
  }

  /**
   If in addition the identity was new and nobody bound it, then as soon as one call has succeeded
   exactly one account has been registered with it, and exactly one call reports that, unless the
   confirmation of its commit was lost.
   */
  lemma RegisteredOnce(tr: seq<State>, i: nat, key: Key, c: nat) returns (u: nat)
    requires IsRun(tr) && i < |tr| && key !in tr[i].removed && key !in tr[i].attached
    requires c in tr[i].results && LoggedAs(tr[i].results[c], key)
    ensures var s := tr[i];
      && s.results[c].uid == u
      && (forall v :: v in s.created && s.created[v].0 == key <==> v == u)
      && var first := s.created[u].1;
         && first in s.results
         && (forall d :: d in s.results && LoggedAs(s.results[d], key) ==> s.results[d].uid == u && (s.results[d].registered <==> d == first))
         && (s.results[first] == Logged(key, u, true) || s.results[first] == LoginFailed(key, Unavailable))
  {
    RunInv(tr, i);
    RegistrationRace(tr, i, key);
    var s := tr[i];
    u := s.results[c].uid;
    var id :| id in s.rows && s.rows[id].key == key && s.rows[id].uid == u;
    assert RowOk(s, id, s.rows[id]);
    assert CreatedOk(s, u, key, s.created[u].1);
  }

  /** An identity found always belongs to an existing account: the missing-account error cannot happen. */
  lemma AccountNeverMissing(tr: seq<State>, i: nat, c: nat)
    requires IsRun(tr) && i < |tr|
    ensures c in tr[i].calls && tr[i].calls[c].Check? ==> tr[i].calls[c].uid in tr[i].accounts
    ensures c in tr[i].results && tr[i].results[c].LoginFailed? ==> tr[i].results[c].error != AccountMissing
  {
    RunInv(tr, i);
    hide Tables, RowOk, Apart, CreatedOk;
    if c in tr[i].calls { assert PcOk(tr[i], tr[i].calls[c]); }
    if c in tr[i].results { assert ResultOk(tr[i], c, tr[i].results[c]); }
  }

  /**
   A bind that reaches its insert and hits a unique index is reported as bound to another account.
   That is what happened: the clash is on the identity itself, held by another account.
   */
  lemma BindClashIsElsewhere(tr: seq<State>, i: nat, c: nat, id: nat)
    requires IsRun(tr) && i < |tr| && c in tr[i].calls && tr[i].calls[c].BindInsert?
    requires id in tr[i].rows && Clash(tr[i].rows[id], RowOf(tr[i].calls[c]))
    ensures tr[i].rows[id].key == tr[i].calls[c].key && tr[i].rows[id].uid != tr[i].calls[c].uid
  {
    RunInv(tr, i);
    hide Tables, RowOk, Apart, CreatedOk, ResultOk;
    assert PcOk(tr[i], tr[i].calls[c]);
  }

  /** An unbind that is about to delete leaves its account another identity, however long ago it counted. */
  lemma UnbindLeavesOne(tr: seq<State>, i: nat, c: nat)
    requires IsRun(tr) && i < |tr| && c in tr[i].calls && (tr[i].calls[c].UnbindDelete? || tr[i].calls[c].UnbindCommit?)
    ensures Owns(tr[i].rows - {tr[i].calls[c].id}, tr[i].calls[c].uid)
  {
    RunInv(tr, i);
    hide Tables, RowOk, Apart, CreatedOk, ResultOk;
    var pc := tr[i].calls[c];
    assert PcOk(tr[i], pc);
    var other :| other in tr[i].rows && other != pc.id && tr[i].rows[other].uid == pc.uid;
    assert other in tr[i].rows - {pc.id};
  }
}
