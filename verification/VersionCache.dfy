/**
 The two-level cache of one key: entries local to each node, tagged with the version counter kept
 in Redis. Database writes, invalidations and lookups of many nodes interleave step by step; Redis
 calls and database loads may fail, entries may be evicted or dropped, and any call may die.
 */
module VersionCache {
  import opened Common

  type Value = string

  /**
   A value of the counter. The key may expire, and then the counter starts again from 0: `era` tells
   how often that has happened. The code sees versions only.
   */
  datatype Stamp = Stamp(era: nat, version: nat)

  predicate Earlier(a: Stamp, b: Stamp) { a.era < b.era || (a.era == b.era && a.version < b.version) }

  /** A cached value; `asOf` is the number of the database write it was read at, `tag` the counter read before. */
  datatype Entry = Entry(data: Value, asOf: nat, tag: Stamp)

  /** One successful invalidation: it was made for write `write` and raised the counter to `stamp`. */
  datatype Raise = Raise(write: nat, stamp: Stamp)

  /**
   How a lookup got its answer: the version matched, the version matched when the leader of a flight
   looked again, the leader loaded, the lookup joined a flight, or Redis or the load failed.
   */
  datatype Source = Hit | Rechecked | Loaded | Followed | Degraded

  /** What a lookup on `node` returned; `seen` is the counter it read first, None when Redis failed. */
  datatype Answer = Answer(node: nat, source: Source, seen: Option<Stamp>, entry: Entry)

  datatype Op =
    // lookup
    | ReadVersion
    | CheckLocal(seen: Option<Stamp>)
    | Enter(seen: Option<Stamp>)                                                   // about to call singleflight
    | Await(seen: Option<Stamp>)                                                   // follower of the node's flight
    | LeadVersion(seen: Option<Stamp>)                                             // leader, inside the flight
    | LeadCheck(seen: Option<Stamp>, latest: Option<Stamp>)
    | LeadLoad(seen: Option<Stamp>, latest: Option<Stamp>, current: Option<Entry>)
    | LeadStore(seen: Option<Stamp>, entry: Entry)
    | LeadReturn(seen: Option<Stamp>, entry: Entry, source: Source)
    // invalidation of one write
    | DropLocal(write: nat)
    | Bump(write: nat)

  datatype State = State(
    log: seq<Value>,              // values of the row, one per committed write; the last is current
    counter: Stamp,               // the Redis counter; version 0 when the key is absent
    local: map<nat, Entry>,       // node to entry
    offered: set<(nat, Entry)>,   // entries handed to a node's cache, which stores them later or not at all
    flights: map<nat, nat>,       // node to the operation that leads its flight
    ops: map<nat, (nat, Op)>,     // operation to its node and next step
    // history
    raises: set<Raise>,
    answers: seq<Answer>)         // in the order they were given

  function Current(s: State): nat
    requires s.log != []
  {
    |s.log| - 1
  }

  function Go(s: State, id: nat, op: Op): State
    requires id in s.ops
  {
    s.(ops := s.ops[id := (s.ops[id].0, op)])
  }

  function Return(s: State, id: nat, a: Answer): State { s.(ops := s.ops - {id}, answers := s.answers + [a]) }

  /** The counter a Redis read yields; a failed call yields nothing. */
  function Read(s: State, ok: bool): Option<Stamp> { if ok then Some(s.counter) else None }

  /** What the code compares. */
  predicate Matches(seen: Option<Stamp>, e: Entry) { seen.Some? && seen.value.version == e.tag.version }

  function CheckStep(s: State, id: nat, node: nat, seen: Option<Stamp>): State
    requires id in s.ops
  {
    if node in s.local && seen == None then Return(s, id, Answer(node, Degraded, seen, s.local[node]))
    else if node in s.local && Matches(seen, s.local[node]) then Return(s, id, Answer(node, Hit, seen, s.local[node]))
    else Go(s, id, Enter(seen))
  }

  function EnterStep(s: State, id: nat, node: nat, seen: Option<Stamp>): State
    requires id in s.ops
  {
    if node in s.flights then Go(s, id, Await(seen)) else Go(s, id, LeadVersion(seen)).(flights := s.flights[node := id])
  }

  function LeadCheckStep(s: State, id: nat, node: nat, seen: Option<Stamp>, latest: Option<Stamp>): State
    requires id in s.ops
  {
    if node in s.local && Matches(latest, s.local[node]) then Go(s, id, LeadReturn(seen, s.local[node], Rechecked))
    else Go(s, id, LeadLoad(seen, latest, if node in s.local then Some(s.local[node]) else None))
  }

  /** A load that fails falls back to the entry found before it, or fails the flight. */
  function LeadLoadStep(s: State, id: nat, node: nat, seen: Option<Stamp>, latest: Option<Stamp>, current: Option<Entry>, ok: bool): State
    requires id in s.ops && s.log != []
  {
    if ok then
      Go(s, id, LeadStore(seen, Entry(s.log[Current(s)], Current(s), if latest.Some? then latest.value else Stamp(s.counter.era, 0))))
    else if current.Some? then Go(s, id, LeadReturn(seen, current.value, Degraded))
    else s.(ops := s.ops - {id}, flights := s.flights - {node})
  }

  function LeadStoreStep(s: State, id: nat, node: nat, seen: Option<Stamp>, entry: Entry): State
    requires id in s.ops
  {
    Go(s, id, LeadReturn(seen, entry, Loaded)).(offered := s.offered + {(node, entry)})
  }

  datatype Action =
    | Commit(value: Value)                         // a database transaction commits
    | Invalidate(id: nat, node: nat, write: nat)   // a call for a committed write starts
    | Get(id: nat, node: nat)
    | Move(id: nat, ok: bool)                      // `ok` is the fate of the Redis call or load
    | Join(id: nat, leader: nat)                   // a follower takes the leader's answer
    | Store(node: nat, entry: Entry)               // the node's cache gets to an offered entry
    | Evict(node: nat)
    | Expire                                       // the counter's key reaches its time to live
    | Die(id: nat)

  ghost predicate Next(s: State, a: Action, s': State) {
    && s.log != []
    && match a
       case Commit(v) => s' == s.(log := s.log + [v])
       case Invalidate(id, node, w) => id !in s.ops && w < |s.log| && s' == s.(ops := s.ops[id := (node, DropLocal(w))])
       case Get(id, node) => id !in s.ops && s' == s.(ops := s.ops[id := (node, ReadVersion)])
       case Store(node, e) => (node, e) in s.offered && s' == s.(local := s.local[node := e])
       case Expire => s' == s.(counter := Stamp(s.counter.era + 1, 0))
       case Evict(node) => s' == s.(local := s.local - {node})
       case Die(id) => id in s.ops && s' == s.(ops := s.ops - {id}, flights := map n | n in s.flights && s.flights[n] != id :: s.flights[n])
       case Join(id, leader) =>
         && id in s.ops && s.ops[id].1.Await? && leader in s.ops && s.ops[leader].1.LeadReturn? && s.ops[leader].0 == s.ops[id].0
         && s' == Return(s, id, Answer(s.ops[id].0, Followed, s.ops[id].1.seen, s.ops[leader].1.entry))
       case Move(id, ok) => id in s.ops && !s.ops[id].1.Await? && s' == Moved(s, id, ok)
  }

  function Up(c: Stamp): Stamp { Stamp(c.era, c.version + 1) }

  function Moved(s: State, id: nat, ok: bool): State
    requires id in s.ops && s.log != []
  {
    var node := s.ops[id].0;
    match s.ops[id].1
    case ReadVersion => Go(s, id, CheckLocal(Read(s, ok)))
    case CheckLocal(seen) => CheckStep(s, id, node, seen)
    case Enter(seen) => EnterStep(s, id, node, seen)
    case LeadVersion(seen) => Go(s, id, LeadCheck(seen, Read(s, ok)))
    case LeadCheck(seen, latest) => LeadCheckStep(s, id, node, seen, latest)
    case LeadLoad(seen, latest, current) => LeadLoadStep(s, id, node, seen, latest, current, ok)
    case LeadStore(seen, entry) => LeadStoreStep(s, id, node, seen, entry)
    case LeadReturn(seen, entry, source) => Return(s, id, Answer(node, source, seen, entry)).(flights := s.flights - {node})
    case DropLocal(w) => Go(s, id, Bump(w)).(local := s.local - {node})
    case Bump(w) =>
      if ok then s.(ops := s.ops - {id}, counter := Up(s.counter), raises := s.raises + {Raise(w, Up(s.counter))})
      else s.(ops := s.ops - {id})
    case Await(_) => s
  }

  ghost predicate Init(s: State) {
    |s.log| == 1 && s.counter == Stamp(0, 0) && s.local == map[] && s.offered == {} && s.flights == map[] && s.ops == map[] && s.raises == {} && s.answers == []
  }

  ghost predicate Steps(s: State, s': State) { exists a :: Next(s, a, s') }

  ghost predicate IsRun(tr: seq<State>) {
    |tr| > 0 && forall i :: 0 <= i < |tr| - 1 ==> Steps(tr[i], tr[i + 1])
  }

  // ----- the invariant

  /** The entry reflects every write whose invalidation raised the counter to at most `v`. */
  ghost predicate Reflects(s: State, e: Entry, v: Stamp) {
    forall r :: r in s.raises && !Earlier(v, r.stamp) ==> r.write <= e.asOf
  }

  /** The entry is a value the row had, and it is as fresh as its tag promises. */
  ghost predicate EntryOk(s: State, e: Entry) {
    e.asOf < |s.log| && e.data == s.log[e.asOf] && !Earlier(s.counter, e.tag) && Reflects(s, e, e.tag)
  }

  predicate SeenOk(s: State, seen: Option<Stamp>) { seen.Some? ==> !Earlier(s.counter, seen.value) }

  /** A version that matched is the counter's value, unless the key expired after the entry's tag was read. */
  predicate MatchOk(s: State, seen: Option<Stamp>, e: Entry) {
    seen.Some? ==> !Earlier(e.tag, seen.value) || e.tag.era < s.counter.era
  }

  /** What is loaded is as fresh as the counter the lookup had read. */
  ghost predicate Sound(s: State, source: Source, seen: Option<Stamp>, e: Entry) {
    && EntryOk(s, e) && SeenOk(s, seen)
    && (source == Loaded ==> seen.Some? ==> Reflects(s, e, seen.value))
    && (source == Hit || source == Rechecked ==> MatchOk(s, seen, e))
    && (source == Hit ==> Matches(seen, e))
  }

  ghost predicate AnswerOk(s: State, a: Answer) { Sound(s, a.source, a.seen, a.entry) }

  ghost predicate OpOk(s: State, op: Op) {
    match op
    case CheckLocal(seen) => SeenOk(s, seen)
    case Enter(seen) => SeenOk(s, seen)
    case Await(seen) => SeenOk(s, seen)
    case LeadVersion(seen) => SeenOk(s, seen)
    case LeadCheck(seen, latest) => SeenOk(s, seen) && SeenOk(s, latest) && (seen.Some? && latest.Some? ==> !Earlier(latest.value, seen.value))
    case LeadLoad(seen, latest, current) => SeenOk(s, seen) && SeenOk(s, latest) && (current.Some? ==> EntryOk(s, current.value))
    case LeadStore(seen, entry) => Sound(s, Loaded, seen, entry)
    case LeadReturn(seen, entry, source) => Sound(s, source, seen, entry)
    case DropLocal(w) => w < |s.log|
    case Bump(w) => w < |s.log|
    case ReadVersion => true
  }

  ghost predicate Inv(s: State) {
    && s.log != []
    && (forall r :: r in s.raises ==> r.write < |s.log| && !Earlier(s.counter, r.stamp))
    && (forall n :: n in s.local ==> EntryOk(s, s.local[n]))
    && (forall o :: o in s.offered ==> EntryOk(s, o.1))
    && (forall id :: id in s.ops ==> OpOk(s, s.ops[id].1))
    && (forall a :: a in s.answers ==> AnswerOk(s, a))
  }

  lemma InitInv(s: State)
    requires Init(s)
    ensures Inv(s)
  {
  }

  // ----- what never gets worse

  /** The log and the counter grow, and new raises lie above the old counter. */
  ghost predicate Grows(s: State, s': State) {
    && |s.log| <= |s'.log| && (forall i :: 0 <= i < |s.log| ==> s'.log[i] == s.log[i]) && !Earlier(s'.counter, s.counter)
    && s.raises <= s'.raises && s.answers <= s'.answers
    && (forall r :: r in s'.raises && r !in s.raises ==> Earlier(s.counter, r.stamp))
  }

  lemma EntryStays(s: State, s': State, e: Entry)
    requires Grows(s, s') && EntryOk(s, e)
    ensures EntryOk(s', e)
  {
  }

  lemma SoundStays(s: State, s': State, source: Source, seen: Option<Stamp>, e: Entry)
    requires Grows(s, s') && Sound(s, source, seen, e)
    ensures Sound(s', source, seen, e)
  {
    EntryStays(s, s', e);
  }

  lemma OpStays(s: State, s': State, op: Op)
    requires Grows(s, s') && OpOk(s, op)
    ensures OpOk(s', op)
  {
    match op
    case LeadLoad(seen, latest, current) => if current.Some? { EntryStays(s, s', current.value); }
    case LeadStore(seen, entry) => SoundStays(s, s', Loaded, seen, entry);
    case LeadReturn(seen, entry, source) => SoundStays(s, s', source, seen, entry);
    case _ =>
  }

  /** Old facts stay; only the changed parts need an argument. */
  lemma Carry(s: State, s': State)
    requires Inv(s) && Grows(s, s')
    requires forall r :: r in s'.raises ==> r.write < |s'.log| && !Earlier(s'.counter, r.stamp)
    requires forall n :: n in s'.local ==> (n in s.local && s'.local[n] == s.local[n]) || EntryOk(s', s'.local[n])
    requires forall o :: o in s'.offered ==> o in s.offered || EntryOk(s', o.1)
    requires forall id :: id in s'.ops ==> (id in s.ops && s'.ops[id] == s.ops[id]) || OpOk(s', s'.ops[id].1)
    requires forall a :: a in s'.answers ==> a in s.answers || AnswerOk(s', a)
    ensures Inv(s')
  {
    hide EntryOk, OpOk, Sound;
    forall n | n in s'.local ensures EntryOk(s', s'.local[n]) {
      if n in s.local && s'.local[n] == s.local[n] { EntryStays(s, s', s.local[n]); }
    }
    forall o | o in s'.offered ensures EntryOk(s', o.1) { if o in s.offered { EntryStays(s, s', o.1); } }
    forall id | id in s'.ops ensures OpOk(s', s'.ops[id].1) {
      if id in s.ops && s'.ops[id] == s.ops[id] { OpStays(s, s', s.ops[id].1); }
    }
    forall a | a in s'.answers ensures AnswerOk(s', a) { if a in s.answers { SoundStays(s, s', a.source, a.seen, a.entry); } }
  }

  /** A fresh load reflects every raise so far, so in particular those up to any counter read before. */
  lemma FreshLoad(s: State, seen: Option<Stamp>, latest: Option<Stamp>)
    requires Inv(s) && SeenOk(s, seen) && SeenOk(s, latest)
    ensures Sound(s, Loaded, seen, Entry(s.log[Current(s)], Current(s), if latest.Some? then latest.value else Stamp(s.counter.era, 0)))
  {
  }

  lemma LookupInv(s: State, id: nat, ok: bool)
    requires Inv(s) && id in s.ops
    requires var op := s.ops[id].1; op.ReadVersion? || op.Enter? || op.Await? || op.LeadVersion?
    ensures Inv(Moved(s, id, ok)) && Grows(s, Moved(s, id, ok))
  {
    hide EntryOk, Sound;
    assert OpOk(s, s.ops[id].1);
    Carry(s, Moved(s, id, ok));
  }

  lemma CheckLocalInv(s: State, id: nat, ok: bool)
    requires Inv(s) && id in s.ops && s.ops[id].1.CheckLocal?
    ensures Inv(Moved(s, id, ok)) && Grows(s, Moved(s, id, ok))
  {
    var node := s.ops[id].0;
    assert OpOk(s, s.ops[id].1);
    if node in s.local { assert EntryOk(s, s.local[node]); }
    Carry(s, Moved(s, id, ok));
  }

  lemma LeadCheckInv(s: State, id: nat, ok: bool)
    requires Inv(s) && id in s.ops && s.ops[id].1.LeadCheck?
    ensures Inv(Moved(s, id, ok)) && Grows(s, Moved(s, id, ok))
  {
    assert OpOk(s, s.ops[id].1);
    Carry(s, Moved(s, id, ok));
  }

  lemma LeadLoadInv(s: State, id: nat, ok: bool)
    requires Inv(s) && id in s.ops && s.ops[id].1.LeadLoad?
    ensures Inv(Moved(s, id, ok)) && Grows(s, Moved(s, id, ok))
  {
    var op, s' := s.ops[id].1, Moved(s, id, ok);
    assert OpOk(s, op) && s' == LeadLoadStep(s, id, s.ops[id].0, op.seen, op.latest, op.current, ok);
    FreshLoad(s, op.seen, op.latest);
    hide Reflects, Moved;
    Carry(s, s');
  }

  lemma LeadEndInv(s: State, id: nat, ok: bool)
    requires Inv(s) && id in s.ops && (s.ops[id].1.LeadStore? || s.ops[id].1.LeadReturn?)
    ensures Inv(Moved(s, id, ok)) && Grows(s, Moved(s, id, ok))
  {
    assert OpOk(s, s.ops[id].1);
    Carry(s, Moved(s, id, ok));
  }

  lemma InvalidationInv(s: State, id: nat, ok: bool)
    requires Inv(s) && id in s.ops && (s.ops[id].1.DropLocal? || s.ops[id].1.Bump?)
    ensures Inv(Moved(s, id, ok)) && Grows(s, Moved(s, id, ok))
  {
    assert OpOk(s, s.ops[id].1);
    Carry(s, Moved(s, id, ok));
  }

  lemma MoveInv(s: State, id: nat, ok: bool)
    requires Inv(s) && id in s.ops
    ensures Inv(Moved(s, id, ok)) && Grows(s, Moved(s, id, ok))
  {
    assert s.log != [];
    hide *;
    match s.ops[id].1
    case CheckLocal(_) => CheckLocalInv(s, id, ok);
    case LeadCheck(_, _) => LeadCheckInv(s, id, ok);
    case LeadLoad(_, _, _) => LeadLoadInv(s, id, ok);
    case LeadStore(_, _) => LeadEndInv(s, id, ok);
    case LeadReturn(_, _, _) => LeadEndInv(s, id, ok);
    case DropLocal(_) => InvalidationInv(s, id, ok);
    case Bump(_) => InvalidationInv(s, id, ok);
    case _ => LookupInv(s, id, ok);
  }

  lemma NextInv(s: State, a: Action, s': State)
    requires Inv(s) && Next(s, a, s')
    ensures Inv(s') && Grows(s, s')
  {
    if a.Move? {
      hide Moved;
      MoveInv(s, a.id, a.ok);
    } else {
      hide Moved;
      if a.Join? { assert OpOk(s, s.ops[a.id].1) && OpOk(s, s.ops[a.leader].1); }
      Carry(s, s');
    }
  }

  lemma {:induction false} RunInv(tr: seq<State>, i: nat, j: nat)
    requires IsRun(tr) && Init(tr[0]) && i <= j < |tr|
    ensures Inv(tr[i]) && Inv(tr[j]) && Grows(tr[i], tr[j])
    decreases j
  {
    if j == 0 {
      InitInv(tr[0]);
    } else {
      hide Inv, Grows, Next;
      assert Steps(tr[j - 1], tr[j - 1 + 1]);
      var a :| Next(tr[j - 1], a, tr[j]);
      RunInv(tr, if i < j then i else j - 1, j - 1);
      NextInv(tr[j - 1], a, tr[j]);
      if i < j { GrowsTransitive(tr[i], tr[j - 1], tr[j]); } else { GrowsReflexive(tr[j]); }
    }
  }

  lemma GrowsReflexive(s: State)
    ensures Grows(s, s)
  {
  }

  lemma GrowsTransitive(a: State, b: State, c: State)
    requires Grows(a, b) && Grows(b, c)
    ensures Grows(a, c)
  {
  }

  // ----- theorems

  /** The order of counter values is the order of time: a raise is at most the counter of a state exactly when it was there. */
  lemma RaisedBefore(tr: seq<State>, k: nat, i: nat, r: Raise)
    requires IsRun(tr) && Init(tr[0]) && k <= i < |tr| && r in tr[i].raises
    ensures r in tr[k].raises <==> !Earlier(tr[k].counter, r.stamp)
  {
    RunInv(tr, k, i);
  }

  /** In every run, on every node, an entry reflects every write whose invalidation raised the counter to its tag or less. */
  lemma EntriesKeepTheirTag(tr: seq<State>, i: nat, node: nat)
    requires IsRun(tr) && Init(tr[0]) && i < |tr| && node in tr[i].local
    ensures EntryOk(tr[i], tr[i].local[node])
  {
    RunInv(tr, i, i);
  }

  /** Every answer, whatever its source, is at least as fresh as the tag it carries. */
  lemma AnswersKeepTheirTag(tr: seq<State>, i: nat, a: Answer, r: Raise)
    requires IsRun(tr) && Init(tr[0]) && i < |tr| && a in tr[i].answers && r in tr[i].raises && !Earlier(a.entry.tag, r.stamp)
    ensures r.write <= a.entry.asOf < |tr[i].log| && a.entry.data == tr[i].log[a.entry.asOf]
  {
    RunInv(tr, i, i);
  }

  /**
   A lookup that loads reflects every write that had been invalidated before it read the counter:
   in state `k` of the run the raise was there, and the counter the lookup saw is at least that of
   state `k`. A lookup whose version matched does so too if the counter's key has not expired since
   the entry's tag was read.
   */
  lemma FreshAnswers(tr: seq<State>, k: nat, i: nat, a: Answer, r: Raise)
    requires IsRun(tr) && Init(tr[0]) && k <= i < |tr| && a in tr[i].answers && r in tr[k].raises
    requires a.seen.Some? && !Earlier(a.seen.value, tr[k].counter)
    requires a.source == Loaded || ((a.source == Hit || a.source == Rechecked) && a.entry.tag.era == tr[i].counter.era)
    ensures r.write <= a.entry.asOf < |tr[i].log| && a.entry.data == tr[i].log[a.entry.asOf]
  {
    RunInv(tr, k, i);
    hide OpOk;
    assert AnswerOk(tr[i], a);
    assert !Earlier(tr[k].counter, r.stamp) && r in tr[i].raises;
  }

  // ----- what one lookup does

  /**
   With an entry at hand, a lookup answers with it when Redis failed or the version is the entry's,
   and goes on to the flight otherwise; without one it always goes on.
   */
  lemma LookupDecides(s: State, id: nat, ok: bool, node: nat, seen: Option<Stamp>)
    requires s.log != [] && id in s.ops && s.ops[id] == (node, CheckLocal(seen))
    ensures var s' := Moved(s, id, ok);
      if node in s.local && (seen.None? || seen.value.version == s.local[node].tag.version) then
        && id !in s'.ops && |s'.answers| == |s.answers| + 1 && s'.answers[|s.answers|].node == node
        && s'.answers[|s.answers|].entry == s.local[node] && s'.answers[|s.answers|].seen == seen
      else id in s'.ops && s'.ops[id] == (node, Enter(seen)) && s'.answers == s.answers
  {
  }

  /** A load yields the newest committed value, tagged with the version read before it, or 0 if that could not be read. */
  lemma LoadTags(s: State, id: nat, node: nat, seen: Option<Stamp>, latest: Option<Stamp>, current: Option<Entry>)
    requires s.log != [] && id in s.ops && s.ops[id] == (node, LeadLoad(seen, latest, current))
    ensures var s' := Moved(s, id, true);
      && id in s'.ops && s'.ops[id].0 == node && s'.ops[id].1.LeadStore? && s'.ops[id].1.seen == seen
      && var e := s'.ops[id].1.entry;
         e.data == s.log[|s.log| - 1] && e.asOf == |s.log| - 1 && e.tag.version == if latest.Some? then latest.value.version else 0
  {
  }
}
