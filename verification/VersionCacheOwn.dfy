/** Reading one's own writes: what the node that invalidates a write answers from then on. */
module VersionCacheOwn {
  import opened Common
  import opened VersionCache
  import opened VersionCacheExact

  /** The entry an operation holds and may still store or return. */
  function Carried(op: Op): Option<Entry> {
    match op
    case LeadLoad(_, _, current) => current
    case LeadStore(_, entry) => Some(entry)
    case LeadReturn(_, entry, _) => Some(entry)
    case _ => None
  }

  /** Nothing older than write `w` is on its way into the node's cache or held by one of its operations. */
  ghost predicate NothingOlder(s: State, node: nat, w: nat) {
    && (forall o :: o in s.offered && o.0 == node ==> w <= o.1.asOf)
    && (forall id :: id in s.ops && s.ops[id].0 == node && Carried(s.ops[id].1).Some? ==> w <= Carried(s.ops[id].1).value.asOf)
  }

  ghost predicate Holds(s: State, node: nat, w: nat) {
    NothingOlder(s, node, w) && w < |s.log| && (node in s.local ==> w <= s.local[node].asOf)
  }

  /** From `s` to `s'`: the node's entry, and every answer the node gave meanwhile, is at least as new as write `w`. */
  ghost predicate SeesWrite(s: State, s': State, node: nat, w: nat) {
    && (node in s'.local ==> w <= s'.local[node].asOf)
    && |s.answers| <= |s'.answers|
    && forall j :: |s.answers| <= j < |s'.answers| && s'.answers[j].node == node ==> w <= s'.answers[j].entry.asOf
  }

  lemma LeadKeeps(s: State, id: nat, ok: bool, node: nat, w: nat)
    requires Holds(s, node, w) && id in s.ops && (s.ops[id].1.LeadCheck? || s.ops[id].1.LeadLoad? || s.ops[id].1.LeadStore? || s.ops[id].1.LeadReturn?)
    ensures Holds(Moved(s, id, ok), node, w) && SeesWrite(s, Moved(s, id, ok), node, w)
  {
  }

  lemma OtherKeeps(s: State, id: nat, ok: bool, node: nat, w: nat)
    requires Holds(s, node, w) && id in s.ops && !s.ops[id].1.LeadCheck? && !s.ops[id].1.LeadLoad? && !s.ops[id].1.LeadStore? && !s.ops[id].1.LeadReturn?
    ensures Holds(Moved(s, id, ok), node, w) && SeesWrite(s, Moved(s, id, ok), node, w)
  {
  }

  lemma MoveKeeps(s: State, id: nat, ok: bool, node: nat, w: nat)
    requires Holds(s, node, w) && id in s.ops && s.log != []
    ensures Holds(Moved(s, id, ok), node, w) && SeesWrite(s, Moved(s, id, ok), node, w)
  {
    hide *;
    if s.ops[id].1.LeadCheck? || s.ops[id].1.LeadLoad? || s.ops[id].1.LeadStore? || s.ops[id].1.LeadReturn? {
      LeadKeeps(s, id, ok, node, w);
    } else {
      OtherKeeps(s, id, ok, node, w);
    }
  }

  lemma StepKeeps(s: State, a: Action, s': State, node: nat, w: nat)
    requires Holds(s, node, w) && Next(s, a, s')
    ensures Holds(s', node, w) && SeesWrite(s, s', node, w)
  {
    hide Moved;
    if a.Move? { MoveKeeps(s, a.id, a.ok, node, w); }
  }

  lemma {:induction false} RunKeeps(tr: seq<State>, i: nat, node: nat, w: nat)
    requires IsRun(tr) && i < |tr| && Holds(tr[0], node, w)
    ensures Holds(tr[i], node, w) && SeesWrite(tr[0], tr[i], node, w)
  {
    if i > 0 {
      RunKeeps(tr, i - 1, node, w);
      hide Next, Holds;
      assert Steps(tr[i - 1], tr[i - 1 + 1]);
      var a :| Next(tr[i - 1], a, tr[i]);
      StepKeeps(tr[i - 1], a, tr[i], node, w);
    }
  }

  /** The first step of an invalidation takes the node's own entry away. */
  lemma DropHolds(s: State, id: nat, ok: bool, node: nat, w: nat)
    requires id in s.ops && s.ops[id] == (node, DropLocal(w)) && w < |s.log| && NothingOlder(s, node, w)
    ensures Holds(Moved(s, id, ok), node, w)
  {
  }

  /** Whatever happens after `s`, the node sees the write. */
  ghost predicate AlwaysSees(s: State, node: nat, w: nat) { forall s' :: Reach(s, s') ==> SeesWrite(s, s', node, w) }

  /**
   Reading one's own writes, whether or not the Redis call of the invalidation works: once node
   `node` has taken the first step of an invalidation of write `w`, everything it holds and answers
   reflects the write in every continuation, if and only if at that step nothing older was on its
   way into its cache or held by one of its lookups.
   */
  lemma ReadsOwnWritesIff(s: State, id: nat, ok: bool, node: nat, w: nat)
    requires id in s.ops && s.ops[id] == (node, DropLocal(w)) && w < |s.log|
    ensures AlwaysSees(Moved(s, id, ok), node, w) <==> NothingOlder(s, node, w)
  {
    var s' := Moved(s, id, ok);
    if NothingOlder(s, node, w) {
      DropHolds(s, id, ok, node, w);
      forall s2 | Reach(s', s2) ensures SeesWrite(s', s2, node, w) {
        var tr :| RunBetween(tr, s', s2);
        hide Holds, Moved, NothingOlder, SeesWrite;
        RunKeeps(tr, |tr| - 1, node, w);
      }
    } else {
      var s2 := OlderComesBack(s, id, ok, node, w);
      hide Moved, NothingOlder, SeesWrite, Reach;
    }
  }

  lemma OlderComesBack(s: State, id: nat, ok: bool, node: nat, w: nat) returns (s2: State)
    requires id in s.ops && s.ops[id] == (node, DropLocal(w)) && w < |s.log| && !NothingOlder(s, node, w)
    ensures Reach(Moved(s, id, ok), s2) && !SeesWrite(Moved(s, id, ok), s2, node, w)
  {
    var s' := Moved(s, id, ok);
    assert s' == Go(s, id, Bump(w)).(local := s.local - {node});
    if o :| o in s.offered && o.0 == node && o.1.asOf < w {
      s2 := StoredLater(s', node, o.1, w);
    } else {
      var k :| k in s.ops && s.ops[k].0 == node && Carried(s.ops[k].1).Some? && Carried(s.ops[k].1).value.asOf < w;
      assert k != id && s'.ops[k] == s.ops[k];
      hide Moved, Reach, SeesWrite, NothingOlder;
      match s'.ops[k].1
      case LeadLoad(seen, latest, current) => s2 := FallenBack(s', k, node, w);
      case LeadStore(seen, e) => s2 := OfferedLater(s', k, node, w);
      case LeadReturn(seen, e, source) => s2 := ReturnedLater(s', k, node, w);
    }
  }

  lemma StoredLater(s: State, node: nat, e: Entry, w: nat) returns (s2: State)
    requires s.log != [] && (node, e) in s.offered && e.asOf < w
    ensures Reach(s, s2) && !SeesWrite(s, s2, node, w)
  {
    s2 := s.(local := s.local[node := e]);
    assert Next(s, Store(node, e), s2);
    hide Next;
    ReachSelf(s);
    ReachNext(s, s, Store(node, e), s2);
  }

  lemma OfferedLater(s: State, k: nat, node: nat, w: nat) returns (s2: State)
    requires s.log != [] && k in s.ops && s.ops[k].0 == node && s.ops[k].1.LeadStore? && s.ops[k].1.entry.asOf < w
    ensures Reach(s, s2) && !SeesWrite(s, s2, node, w)
  {
    var e := s.ops[k].1.entry;
    var s1 := LeadStoreStep(s, k, node, s.ops[k].1.seen, e);
    assert Next(s, Move(k, true), s1);
    ReachSelf(s);
    hide Reach, Next;
    ReachNext(s, s, Move(k, true), s1);
    s2 := StoredLater(s1, node, e, w);
    ReachBoth(s, s1, s2);
  }

  lemma ReturnedLater(s: State, k: nat, node: nat, w: nat) returns (s2: State)
    requires s.log != [] && k in s.ops && s.ops[k].0 == node && s.ops[k].1.LeadReturn? && s.ops[k].1.entry.asOf < w
    ensures Reach(s, s2) && !SeesWrite(s, s2, node, w)
  {
    var op := s.ops[k].1;
    s2 := Return(s, k, Answer(node, op.source, op.seen, op.entry)).(flights := s.flights - {node});
    assert s2.answers[|s.answers|].node == node && s2.answers[|s.answers|].entry == op.entry;
    assert Next(s, Move(k, true), s2);
    hide Next;
    ReachSelf(s);
    ReachNext(s, s, Move(k, true), s2);
  }

  /** A load that fails hands out the entry found before it. */
  lemma FallenBack(s: State, k: nat, node: nat, w: nat) returns (s2: State)
    requires s.log != [] && k in s.ops && s.ops[k].0 == node && s.ops[k].1.LeadLoad?
    requires s.ops[k].1.current.Some? && s.ops[k].1.current.value.asOf < w
    ensures Reach(s, s2) && !SeesWrite(s, s2, node, w)
  {
    var op := s.ops[k].1;
    var s1 := Go(s, k, LeadReturn(op.seen, op.current.value, Degraded));
    assert Next(s, Move(k, false), s1);
    ReachSelf(s);
    hide Reach, Next;
    ReachNext(s, s, Move(k, false), s1);
    s2 := ReturnedLater(s1, k, node, w);
    ReachBoth(s, s1, s2);
  }

  /** The law along a run from the start: write `w` was invalidated on the node in step `k`. */
  lemma ReadsOwnWrites(tr: seq<State>, k: nat, i: nat, id: nat, ok: bool, node: nat, w: nat)
    requires IsRun(tr) && Init(tr[0]) && k < i < |tr|
    requires id in tr[k].ops && tr[k].ops[id] == (node, DropLocal(w)) && tr[k].log != [] && tr[k + 1] == Moved(tr[k], id, ok)
    requires NothingOlder(tr[k], node, w)
    ensures SeesWrite(tr[k + 1], tr[i], node, w)
  {
    RunInv(tr, k, k);
    assert OpOk(tr[k], tr[k].ops[id].1);
    DropHolds(tr[k], id, ok, node, w);
    hide Holds, Moved, NothingOlder, SeesWrite, Inv, OpOk;
    var rest := tr[k + 1..];
    forall j | 0 <= j < |rest| - 1 ensures Steps(rest[j], rest[j + 1]) { assert Steps(tr[k + 1 + j], tr[k + 1 + j + 1]); }
    RunKeeps(rest, i - k - 1, node, w);
  }
}
