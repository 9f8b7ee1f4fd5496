/** A player's tracked state: values with one dirty bit per field, and the diffs written from them. */
module PlayerDiff {
  import opened Common

  datatype Player = Player(uid: int, lastOfflineTime: int)

  datatype Operation = SetVarint | OtherOperation

  /** One field of a diff as its reader yields it. */
  datatype FieldOp = FieldOp(number: nat, operation: Operation, payload: int)

  /** Diff bytes: the fields the reader yields, then the end or a read error. */
  datatype Diff = Diff(ops: seq<FieldOp>, broken: bool)

  const UidMask: bv64 := 1
  const LastOfflineTimeMask: bv64 := 2

  predicate HasDirty(word: bv64, mask: bv64) { word & mask != 0 }

  /** The numbers of the fields whose bit is set. */
  function Dirty(word: bv64): set<nat> {
    (if HasDirty(word, UidMask) then {1} else {}) + (if HasDirty(word, LastOfflineTimeMask) then {2} else {})
  }

  function DiffOf(p: Player, dirty: set<nat>): seq<FieldOp> {
    (if 1 in dirty then [FieldOp(1, SetVarint, p.uid)] else []) + (if 2 in dirty then [FieldOp(2, SetVarint, p.lastOfflineTime)] else [])
  }

  predicate Rejected(op: FieldOp) { (op.number == 1 || op.number == 2) && op.operation != SetVarint }

  function Apply1(p: Player, op: FieldOp): Player {
    if op.number == 1 then p.(uid := op.payload) else if op.number == 2 then p.(lastOfflineTime := op.payload) else p
  }

  function Apply(p: Player, ops: seq<FieldOp>): Player
    decreases |ops|
  {
    if ops == [] then p else Apply1(Apply(p, ops[..|ops| - 1]), ops[|ops| - 1])
  }

  /** Applied fields up to the first rejected one; the read error counts only if all fields pass. */
  predicate Applies(d: Diff) { !d.broken && forall i :: 0 <= i < |d.ops| ==> !Rejected(d.ops[i]) }

  /** The fields before `n` pass; the next one is rejected, or there is none. */
  predicate StopsAt(d: Diff, n: nat)
    requires n <= |d.ops|
  {
    (forall i :: 0 <= i < n ==> !Rejected(d.ops[i])) && (n < |d.ops| ==> Rejected(d.ops[n]))
  }

  method ApplyPlayerDiff(value: Player, d: Diff) returns (value': Player, ok: bool)
    ensures ok <==> Applies(d)
    ensures ok ==> value' == Apply(value, d.ops)
    ensures !ok ==> exists n :: 0 <= n <= |d.ops| && StopsAt(d, n) && value' == Apply(value, d.ops[..n])
  {
    value' := value;
    var i := 0;
    while i < |d.ops|
      invariant 0 <= i <= |d.ops| && value' == Apply(value, d.ops[..i])
      invariant forall k :: 0 <= k < i ==> !Rejected(d.ops[k])
    {
      if Rejected(d.ops[i]) {
        assert StopsAt(d, i);
        return value', false;
      }
      value' := Apply1(value', d.ops[i]);
      assert d.ops[..i + 1][..i] == d.ops[..i];
      i := i + 1;
    }
    assert d.ops[..i] == d.ops;
    assert StopsAt(d, i);
    ok := !d.broken;
  }

  class PlayerState {
    var value: Player
    var dirty: bv64

    constructor (value: Player)
      ensures this.value == value && dirty == 0
    {
      this.value, dirty := value, 0;
    }

    /** `marked` tells whether the parent is notified: on the first change of the field since the last clear. */
    method SetUid(uid: int) returns (marked: bool)
      modifies this
      ensures value == old(value).(uid := uid)
      ensures Dirty(dirty) == old(Dirty(dirty)) + if old(value.uid) != uid then {1} else {}
      ensures marked <==> Dirty(dirty) != old(Dirty(dirty))
    {
      if value.uid == uid { return false; }
      value := value.(uid := uid);
      marked := !HasDirty(dirty, UidMask);
      dirty := dirty | UidMask;
    }

    method SetLastOfflineTime(t: int) returns (marked: bool)
      modifies this
      ensures value == old(value).(lastOfflineTime := t)
      ensures Dirty(dirty) == old(Dirty(dirty)) + if old(value.lastOfflineTime) != t then {2} else {}
      ensures marked <==> Dirty(dirty) != old(Dirty(dirty))
    {
      if value.lastOfflineTime == t { return false; }
      value := value.(lastOfflineTime := t);
      marked := !HasDirty(dirty, LastOfflineTimeMask);
      dirty := dirty | LastOfflineTimeMask;
    }

    method WriteDiff() returns (ops: seq<FieldOp>)
      ensures ops == DiffOf(value, Dirty(dirty))
    {
      ops := [];
      if HasDirty(dirty, UidMask) { ops := ops + [FieldOp(1, SetVarint, value.uid)]; }
      if HasDirty(dirty, LastOfflineTimeMask) { ops := ops + [FieldOp(2, SetVarint, value.lastOfflineTime)]; }
    }

    method ClearDirty()
      modifies this`dirty
      ensures Dirty(dirty) == {}
    {
      dirty := 0;
    }
  }

  /** The wire format: field 1 is the uid and field 2 the time of the last leave, set as varints, in that order. */
  lemma WireFormat(p: Player, q: Player, v: int)
    ensures DiffOf(p, {1, 2}) == [FieldOp(1, SetVarint, p.uid), FieldOp(2, SetVarint, p.lastOfflineTime)]
    ensures DiffOf(p, {1}) == [FieldOp(1, SetVarint, p.uid)] && DiffOf(p, {2}) == [FieldOp(2, SetVarint, p.lastOfflineTime)] && DiffOf(p, {}) == []
    ensures Apply(q, [FieldOp(1, SetVarint, v)]) == Player(v, q.lastOfflineTime) && Apply(q, [FieldOp(2, SetVarint, v)]) == Player(q.uid, v)
    ensures Dirty(0) == {} && Dirty(1) == {1} && Dirty(2) == {2} && Dirty(3) == {1, 2}
  {
    ApplyOne(q, FieldOp(1, SetVarint, v));
    ApplyOne(q, FieldOp(2, SetVarint, v));
    hide Apply;
  }

  /** Fields with other numbers are skipped, whatever their operation; a known field with another operation is refused. */
  lemma UnknownFields(q: Player, op: FieldOp)
    requires op.number != 1 && op.number != 2
    ensures Apply(q, [op]) == q && Applies(Diff([op], false))
    ensures !Applies(Diff([FieldOp(1, OtherOperation, 0)], false)) && !Applies(Diff([FieldOp(2, OtherOperation, 0)], false))
  {
    ApplyOne(q, op);
    assert Rejected(Diff([FieldOp(1, OtherOperation, 0)], false).ops[0]) && Rejected(Diff([FieldOp(2, OtherOperation, 0)], false).ops[0]);
  }

  /** `prior` differs from `p` in dirty fields only. */
  predicate Covers(dirty: set<nat>, prior: Player, p: Player) {
    (prior.uid != p.uid ==> 1 in dirty) && (prior.lastOfflineTime != p.lastOfflineTime ==> 2 in dirty)
  }

  lemma {:induction false} ApplyConcat(p: Player, a: seq<FieldOp>, b: seq<FieldOp>)
    ensures Apply(p, a + b) == Apply(Apply(p, a), b)
    decreases |b|
  {
    if b == [] {
      assert a + b == a;
    } else {
      var n := |b| - 1;
      assert (a + b)[..|a + b| - 1] == a + b[..n];
      ApplyConcat(p, a, b[..n]);
    }
  }

  /** A diff written from the dirty bits brings an older value up to date, if and only if the bits cover what differs. */
  lemma DiffBringsUpToDate(prior: Player, p: Player, dirty: set<nat>)
    ensures Apply(prior, DiffOf(p, dirty)) == p <==> Covers(dirty, prior, p)
    ensures Applies(Diff(DiffOf(p, dirty), false))
  {
    var a := if 1 in dirty then [FieldOp(1, SetVarint, p.uid)] else [];
    var b := if 2 in dirty then [FieldOp(2, SetVarint, p.lastOfflineTime)] else [];
    ApplyConcat(prior, a, b);
    ApplyOne(prior, FieldOp(1, SetVarint, p.uid));
    ApplyOne(Apply(prior, a), FieldOp(2, SetVarint, p.lastOfflineTime));
  }

  lemma ApplyOne(p: Player, op: FieldOp)
    ensures Apply(p, [op]) == Apply1(p, op)
  {
    assert [op][..0] == [];
  }
}

/** The list of one full snapshot and diffs after it that stores a player in Redis. */
module DiffLog {
  import opened Common
  import opened PlayerDiff

  /** The full part of a sync message, as decoding it into a player sees it. */
  datatype FullData = NoFull | Full(value: Player) | Malformed

  datatype Delta = Delta(version: nat, diff: Diff)

  /** A stored element: unreadable, or a sync message whose delta part may break off. */
  datatype Sync = Garbage | Sync(base: nat, full: FullData, deltas: seq<Delta>, broken: bool)

  datatype Loaded = Loaded(value: Player, version: nat)

  /** Deltas applied in order; a message's version is that of its last delta. */
  function PlayDeltas(l: Loaded, deltas: seq<Delta>): Option<Loaded>
    decreases |deltas|
  {
    if deltas == [] then Some(l)
    else
      var front := PlayDeltas(l, deltas[..|deltas| - 1]);
      var d := deltas[|deltas| - 1];
      if front.None? || !Applies(d.diff) then None else Some(Loaded(Apply(front.value.value, d.diff.ops), d.version))
  }

  function PlaySync(l: Loaded, m: Sync): Option<Loaded> {
    if m.Garbage? then None
    else
      var r := PlayDeltas(l, m.deltas);
      if m.broken then None else r
  }

  function PlayAll(l: Loaded, list: seq<Sync>): Option<Loaded>
    decreases |list|
  {
    if list == [] then Some(l)
    else
      var front := PlayAll(l, list[..|list| - 1]);
      if front.None? then None else PlaySync(front.value, list[|list| - 1])
  }

  /** The head's snapshot replaces whatever the message held; a head without one resets it. */
  function Head(m: Sync): Option<Loaded> {
    if m.Garbage? || m.full.Malformed? then None
    else Some(Loaded(if m.full.Full? then m.full.value else Player(0, 0), m.base))
  }

  /** What loading a list into `start` yields; None is an error. */
  function Replay(list: seq<Sync>, start: Player): Option<Loaded> {
    if list == [] then Some(Loaded(start, 0))
    else if Head(list[0]).None? then None
    else PlayAll(Head(list[0]).value, list[1..])
  }

  predicate Compacts(count: nat, compactCount: int) { !(count > 0 && count < compactCount) }

  function FullSync(version: nat, snapshot: Player): Sync { Sync(version, Full(snapshot), [], false) }

  /** How the store answers a save: it works, fails without effect, or takes effect and the answer is lost. */
  datatype Fate = Works | Fails | AnswerLost

  /** The deltas of one stored message, applied one after the other. */
  method ApplyMessage(l: Loaded, message: Sync) returns (r: Option<Loaded>)
    ensures r == PlaySync(l, message)
  {
    if message.Garbage? { return None; }
    var value, version := l.value, l.version;
    var j := 0;
    while j < |message.deltas|
      invariant 0 <= j <= |message.deltas|
      invariant PlayDeltas(l, message.deltas[..j]) == Some(Loaded(value, version))
    {
      assert message.deltas[..j + 1][..j] == message.deltas[..j];
      var next, ok := ApplyPlayerDiff(value, message.deltas[j].diff);
      if !ok {
        PlayDeltasFails(l, message.deltas, j + 1);
        return None;
      }
      value, version := next, message.deltas[j].version;
      j := j + 1;
    }
    assert message.deltas[..j] == message.deltas;
    r := if message.broken then None else Some(Loaded(value, version));
  }

  class Manager {
    var list: seq<Sync>
    const compactCount: int

    constructor (compactCount: int)
      ensures this.compactCount == compactCount && list == []
    {
      this.compactCount := compactCount;
      list := [];
    }

    method Load(start: Player) returns (r: Option<Loaded>)
      ensures r == Replay(list, start)
    {
      if |list| == 0 { return Some(Loaded(start, 0)); }
      if Head(list[0]).None? { return None; }
      var value, version := Head(list[0]).value.value, list[0].base;
      ghost var head := Head(list[0]).value;
      var i := 1;
      while i < |list|
        invariant 1 <= i <= |list|
        invariant PlayAll(head, list[1..][..i - 1]) == Some(Loaded(value, version))
      {
        assert list[1..][..i][..i - 1] == list[1..][..i - 1] && list[1..][..i][i - 1] == list[i];
        var played := ApplyMessage(Loaded(value, version), list[i]);
        if played.None? { PlayAllFails(head, list[1..], i); return None; }
        value, version := played.value.value, played.value.version;
        i := i + 1;
      }
      assert list[1..][..i - 1] == list[1..];
      r := Some(Loaded(value, version));
    }

    /** Appends the diff, or replaces the list by a snapshot when it is empty or has grown to the limit. */
    method Save(data: Sync, version: nat, snapshot: Player, fate: Fate) returns (ok: bool)
      modifies this`list
      ensures ok <==> fate.Works?
      ensures list == if fate.Fails? then old(list) else AfterSave(old(list), compactCount, data, version, snapshot)
      ensures !fate.Fails? && 0 < |old(list)| < compactCount ==> list == old(list) + [data]
      ensures !fate.Fails? && !(0 < |old(list)| < compactCount) ==> list == [Sync(version, Full(snapshot), [], false)]
    {
      if fate.Works? || fate.AnswerLost? {
        if |list| > 0 && |list| < compactCount {
          list := list + [data];
        } else {
          list := [];
          list := list + [FullSync(version, snapshot)];
        }
      }
      ok := fate.Works?;
    }
  }

  function AfterSave(list: seq<Sync>, compactCount: int, data: Sync, version: nat, snapshot: Player): seq<Sync> {
    if Compacts(|list|, compactCount) then [FullSync(version, snapshot)] else list + [data]
  }

  lemma {:induction false} PlayAllFails(l: Loaded, list: seq<Sync>, n: nat)
    requires n <= |list| && PlayAll(l, list[..n]).None?
    ensures PlayAll(l, list).None?
    decreases |list|
  {
    if n == |list| {
      assert list[..n] == list;
    } else {
      var front := list[..|list| - 1];
      assert front[..n] == list[..n];
      PlayAllFails(l, front, n);
    }
  }

  lemma {:induction false} PlayDeltasFails(l: Loaded, deltas: seq<Delta>, n: nat)
    requires n <= |deltas| && PlayDeltas(l, deltas[..n]).None?
    ensures PlayDeltas(l, deltas).None?
    decreases |deltas|
  {
    if n == |deltas| {
      assert deltas[..n] == deltas;
    } else {
      var front := deltas[..|deltas| - 1];
      assert front[..n] == deltas[..n];
      PlayDeltasFails(l, front, n);
    }
  }

  // ----- an actor that changes its state and saves it

  /** `saved` is the last state that reached the list, with its version; None before the first. */
  datatype Session = Session(list: seq<Sync>, value: Player, dirty: set<nat>, saved: Option<Loaded>)

  datatype Event =
    | SetUid(uid: int)
    | SetLastOfflineTime(t: int)
    | Save(version: nat, fate: Fate)
    | Restart(start: Player)          // the actor dies and another one loads the player into `start`

  function DiffSync(version: nat, p: Player, dirty: set<nat>): Sync {
    Sync(version, NoFull, [Delta(version, Diff(DiffOf(p, dirty), false))], false)
  }

  /** The bits are cleared only after a save that is known to have worked. */
  function SaveEvent(s: Session, compactCount: int, version: nat, fate: Fate): Session {
    if fate.Fails? then s
    else
      var list := AfterSave(s.list, compactCount, DiffSync(version, s.value, s.dirty), version, s.value);
      Session(list, s.value, if fate.Works? then {} else s.dirty, Some(Loaded(s.value, version)))
  }

  ghost predicate Step(compactCount: int, s: Session, e: Event, s': Session) {
    match e
    case SetUid(u) => s' == s.(value := s.value.(uid := u), dirty := s.dirty + if s.value.uid != u then {1} else {})
    case SetLastOfflineTime(t) => s' == s.(value := s.value.(lastOfflineTime := t), dirty := s.dirty + if s.value.lastOfflineTime != t then {2} else {})
    case Save(version, fate) => s' == SaveEvent(s, compactCount, version, fate)
    case Restart(start) => Replay(s.list, start).Some? && s' == s.(value := Replay(s.list, start).value.value, dirty := {})
  }

  ghost predicate IsRun(compactCount: int, tr: seq<Session>, es: seq<Event>) {
    && |tr| == |es| + 1
    && tr[0].list == [] && tr[0].dirty == {} && tr[0].saved == None
    && forall i :: 0 <= i < |es| ==> Step(compactCount, tr[i], es[i], tr[i + 1])
  }

  ghost predicate Inv(compactCount: int, s: Session) {
    && |s.list| <= (if compactCount > 1 then compactCount else 1)
    && (s.list == [] <==> s.saved.None?)
    && (s.saved.Some? ==>
          && s.list[0].Sync? && s.list[0].full.Full?
          && (forall start :: Replay(s.list, start) == s.saved)
          && Covers(s.dirty, s.saved.value.value, s.value))
  }

  lemma AppendReplays(list: seq<Sync>, start: Player, version: nat, p: Player, dirty: set<nat>)
    requires list != [] && Replay(list, start).Some? && Covers(dirty, Replay(list, start).value.value, p)
    ensures Replay(list + [DiffSync(version, p, dirty)], start) == Some(Loaded(p, version))
  {
    var m := DiffSync(version, p, dirty);
    var l := Replay(list, start).value;
    assert (list + [m])[1..] == list[1..] + [m];
    assert (list[1..] + [m])[..|list| - 1] == list[1..];
    DiffBringsUpToDate(l.value, p, dirty);
    assert m.deltas[..0] == [];
    assert PlayDeltas(l, m.deltas) == Some(Loaded(p, version));
  }

  lemma StepInv(compactCount: int, s: Session, e: Event, s': Session)
    requires Inv(compactCount, s) && Step(compactCount, s, e, s')
    ensures Inv(compactCount, s')
  {
    if e.Save? && !e.fate.Fails? {
      if Compacts(|s.list|, compactCount) {
        forall start ensures Replay(s'.list, start) == s'.saved { }
      } else {
        forall start ensures Replay(s'.list, start) == s'.saved {
          assert Replay(s.list, start) == s.saved;
          AppendReplays(s.list, start, e.version, s.value, s.dirty);
        }
      }
    } else if e.Restart? && s.saved.Some? {
      assert Replay(s.list, e.start) == s.saved;
    }
  }

  lemma {:induction false} RunInv(compactCount: int, tr: seq<Session>, es: seq<Event>, i: nat)
    requires IsRun(compactCount, tr, es) && i < |tr|
    ensures Inv(compactCount, tr[i])
  {
    if i > 0 {
      RunInv(compactCount, tr, es, i - 1);
      assert Step(compactCount, tr[i - 1], es[i - 1], tr[i - 1 + 1]);
      hide Inv, Step;
      StepInv(compactCount, tr[i - 1], es[i - 1], tr[i]);
    }
  }

  /**
   After any run of setters, restarts and saves, loading into any message rebuilds exactly the state
   and version of the last save that took effect; the head is a full snapshot; and the list is no
   longer than max(1, compactCount).
   */
  lemma LoadRebuildsLastSave(compactCount: int, tr: seq<Session>, es: seq<Event>, i: nat, start: Player)
    requires IsRun(compactCount, tr, es) && i < |tr|
    ensures tr[i].saved.Some? ==> Replay(tr[i].list, start) == tr[i].saved && tr[i].list != [] && tr[i].list[0].Sync? && tr[i].list[0].full.Full?
    ensures tr[i].saved.None? ==> tr[i].list == [] && Replay(tr[i].list, start) == Some(Loaded(start, 0))
    ensures |tr[i].list| <= if compactCount > 1 then compactCount else 1
  {
    RunInv(compactCount, tr, es, i);
  }

  /** In particular, right after a successful save loading yields the current state. */
  lemma SavedIsLoaded(compactCount: int, tr: seq<Session>, es: seq<Event>, i: nat, version: nat, start: Player)
    requires IsRun(compactCount, tr, es) && i < |es| && es[i] == Save(version, Works)
    ensures Replay(tr[i + 1].list, start) == Some(Loaded(tr[i].value, version)) && tr[i + 1].dirty == {}
  {
    RunInv(compactCount, tr, es, i + 1);
    assert Step(compactCount, tr[i], es[i], tr[i + 1]);
  }

  // ----- loading, flattened

  /** All field operations of some deltas, one after the other. */
  function DeltaOps(deltas: seq<Delta>): seq<FieldOp> {
    if deltas == [] then [] else DeltaOps(deltas[..|deltas| - 1]) + deltas[|deltas| - 1].diff.ops
  }

  function AllDeltas(list: seq<Sync>): seq<Delta> {
    if list == [] then [] else AllDeltas(list[..|list| - 1]) + if list[|list| - 1].Sync? then list[|list| - 1].deltas else []
  }

  predicate Readable(m: Sync) { m.Sync? && !m.broken && forall i :: 0 <= i < |m.deltas| ==> Applies(m.deltas[i].diff) }

  function Flat(l: Loaded, deltas: seq<Delta>): Loaded {
    Loaded(Apply(l.value, DeltaOps(deltas)), if deltas == [] then l.version else deltas[|deltas| - 1].version)
  }

  lemma {:induction false} DeltasFlat(l: Loaded, deltas: seq<Delta>)
    ensures PlayDeltas(l, deltas).Some? <==> forall i :: 0 <= i < |deltas| ==> Applies(deltas[i].diff)
    ensures PlayDeltas(l, deltas).Some? ==> PlayDeltas(l, deltas).value == Flat(l, deltas)
  {
    if deltas != [] {
      var front, d := deltas[..|deltas| - 1], deltas[|deltas| - 1];
      DeltasFlat(l, front);
      ApplyConcat(l.value, DeltaOps(front), d.diff.ops);
      assert forall i :: 0 <= i < |front| ==> front[i] == deltas[i];
      hide Apply, Applies;
    }
  }

  lemma {:induction false} DeltaOpsConcat(a: seq<Delta>, b: seq<Delta>)
    ensures DeltaOps(a + b) == DeltaOps(a) + DeltaOps(b)
    decreases |b|
  {
    if b == [] {
      assert a + b == a;
    } else {
      assert (a + b)[..|a + b| - 1] == a + b[..|b| - 1];
      DeltaOpsConcat(a, b[..|b| - 1]);
    }
  }

  lemma MessageFlat(l: Loaded, m: Sync)
    ensures PlaySync(l, m).Some? <==> Readable(m)
    ensures PlaySync(l, m).Some? ==> PlaySync(l, m).value == Flat(l, m.deltas)
  {
    hide PlayDeltas, Flat;
    if m.Sync? { DeltasFlat(l, m.deltas); }
  }

  lemma FlatBoth(l: Loaded, a: seq<Delta>, b: seq<Delta>)
    ensures Flat(Flat(l, a), b) == Flat(l, a + b)
  {
    hide Apply, DeltaOps;
    DeltaOpsConcat(a, b);
    ApplyConcat(l.value, DeltaOps(a), DeltaOps(b));
    NoOps();
    if b == [] { assert a + b == a && DeltaOps(a) + [] == DeltaOps(a); }
  }

  lemma NoOps()
    ensures DeltaOps([]) == [] && forall l :: Apply(l, []) == l
  {
  }

  lemma {:induction false} ListFlat(l: Loaded, list: seq<Sync>)
    ensures PlayAll(l, list).Some? <==> forall i :: 0 <= i < |list| ==> Readable(list[i])
    ensures PlayAll(l, list).Some? ==> PlayAll(l, list).value == Flat(l, AllDeltas(list))
  {
    if list == [] {
      NoOps();
    } else {
      var front, m := list[..|list| - 1], list[|list| - 1];
      assert PlayAll(l, list) == if PlayAll(l, front).None? then None else PlaySync(PlayAll(l, front).value, m);
      assert m.Sync? ==> AllDeltas(list) == AllDeltas(front) + m.deltas;
      hide PlayAll, PlaySync, Flat, AllDeltas;
      ListFlat(l, front);
      assert forall i :: 0 <= i < |front| ==> front[i] == list[i];
      if PlayAll(l, front).Some? {
        MessageFlat(PlayAll(l, front).value, m);
        if m.Sync? { FlatBoth(l, AllDeltas(front), m.deltas); }
      }
    }
  }

  /**
   Loading a list: it succeeds exactly when the head holds a readable snapshot or none, and every
   later message can be read and applied to its end. The result is the head's snapshot, or an empty
   player, with all field operations of all later messages applied in order, at the version of the
   last delta, or of the head if there is none. What the head carries besides its snapshot is ignored.
   */
  lemma LoadIs(head: Sync, rest: seq<Sync>, start: Player)
    ensures Replay([head] + rest, start).Some? <==> head.Sync? && !head.full.Malformed? && forall i :: 0 <= i < |rest| ==> Readable(rest[i])
    ensures Replay([head] + rest, start).Some? ==> var deltas := AllDeltas(rest);
      && Replay([head] + rest, start).value.value == Apply(if head.full.Full? then head.full.value else Player(0, 0), DeltaOps(deltas))
      && Replay([head] + rest, start).value.version == if deltas == [] then head.base else deltas[|deltas| - 1].version
  {
    assert ([head] + rest)[1..] == rest;
    if head.Sync? && !head.full.Malformed? { ListFlat(Head(head).value, rest); }
    hide PlayAll, Apply, Readable, AllDeltas, DeltaOps;
  }

  /** How many saves up to event `i` took effect. */
  function Saves(es: seq<Event>, i: nat): nat
    requires i <= |es|
  {
    if i == 0 then 0 else Saves(es, i - 1) + if es[i - 1].Save? && !es[i - 1].fate.Fails? then 1 else 0
  }

  /**
   The list is a full snapshot followed by the diffs since: after `n` saves it has
   (n - 1) % max(1, compactCount) + 1 elements, so a snapshot is written exactly every so many saves.
   */
  lemma {:induction false} LengthCycles(compactCount: int, tr: seq<Session>, es: seq<Event>, i: nat)
    requires IsRun(compactCount, tr, es) && i < |tr|
    ensures var n, c := Saves(es, i), if compactCount > 1 then compactCount else 1;
      |tr[i].list| == if n == 0 then 0 else (n - 1) % c + 1
  {
    if i > 0 {
      LengthCycles(compactCount, tr, es, i - 1);
      assert Step(compactCount, tr[i - 1], es[i - 1], tr[i - 1 + 1]);
      hide Step;
      StepLength(compactCount, tr[i - 1], es[i - 1], tr[i]);
      NextLength(compactCount, Saves(es, i - 1), |tr[i - 1].list|);
    }
  }

  lemma NextLength(compactCount: int, n: nat, length: nat)
    requires var c := if compactCount > 1 then compactCount else 1; length == if n == 0 then 0 else (n - 1) % c + 1
    ensures var c := if compactCount > 1 then compactCount else 1; (if 0 < length < compactCount then length + 1 else 1) == n % c + 1
  {
    if compactCount <= 1 {
      assert n % 1 == 0;
    } else if n > 0 {
      var before, after := (n - 1) % compactCount, n % compactCount;
      NextInCycle(n - 1, compactCount);
      assert after == if before + 1 < compactCount then before + 1 else 0;
    }
  }

  /** Only a save that takes effect changes the length: it adds one, or starts again at one. */
  lemma StepLength(compactCount: int, s: Session, e: Event, s': Session)
    requires Step(compactCount, s, e, s')
    ensures |s'.list| == if e.Save? && !e.fate.Fails? then (if 0 < |s.list| < compactCount then |s.list| + 1 else 1) else |s.list|
  {
    hide Replay, DiffSync;
  }

  lemma NextInCycle(m: nat, c: nat)
    requires c > 0
    ensures (m + 1) % c == if m % c + 1 < c then m % c + 1 else 0
  {
    var q, r := m / c, m % c;
    assert m + 1 == c * q + (r + 1);
    if r + 1 < c {
      Remainder(m + 1, c, q, r + 1);
    } else {
      assert c * q + c == c * (q + 1);
      Remainder(m + 1, c, q + 1, 0);
    }
  }

  lemma Remainder(v: int, m: int, q: int, r: int)
    requires m > 0 && v == m * q + r && 0 <= r < m
    ensures v % m == r
  {
    var d := v / m - q;
    assert m * (v / m) - m * q == m * d;
    if d >= 1 { Larger(m, d); } else if d <= -1 { Larger(m, -d); }
  }

  lemma Larger(m: int, d: int)
    requires m > 0 && d >= 1
    ensures m * d >= m && m * -d <= -m
  {
  }

  // ----- the classes do what the events say

  ghost predicate Matches(m: Manager, p: PlayerState, s: Session)
    reads m, p
  {
    m.list == s.list && p.value == s.value && Dirty(p.dirty) == s.dirty
  }

  /** An actor handles an event with its state object and its storage; together they take the step of the session. */
  method Handle(m: Manager, p: PlayerState, e: Event, ghost s: Session) returns (ghost s': Session)
    requires Matches(m, p, s) && (e.Restart? ==> Replay(m.list, e.start).Some?)
    modifies m, p
    ensures Step(m.compactCount, s, e, s') && Matches(m, p, s')
  {
    match e {
      case SetUid(u) =>
        var _ := p.SetUid(u);
        s' := s.(value := p.value, dirty := Dirty(p.dirty));
      case SetLastOfflineTime(t) =>
        var _ := p.SetLastOfflineTime(t);
        s' := s.(value := p.value, dirty := Dirty(p.dirty));
      case Save(version, fate) =>
        var ops := p.WriteDiff();
        var ok := m.Save(Sync(version, NoFull, [Delta(version, Diff(ops, false))], false), version, p.value, fate);
        if ok { p.ClearDirty(); }
        s' := SaveEvent(s, m.compactCount, version, fate);
      case Restart(start) =>
        var loaded := m.Load(start);
        p.value := loaded.value.value;
        p.ClearDirty();
        s' := s.(value := p.value, dirty := {});
    }
  }
}
