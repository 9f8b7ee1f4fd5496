/** Exactly when an answer of the cache is sure to reflect what was invalidated before the lookup read the counter. */
module VersionCacheExact {
  import opened Common
  import opened VersionCache

  // ----- stretches of a run

  ghost predicate RunBetween(tr: seq<State>, s: State, s': State) { IsRun(tr) && tr[0] == s && tr[|tr| - 1] == s' }

  ghost predicate Reach(s: State, s': State) { exists tr :: RunBetween(tr, s, s') }

  ghost predicate Reachable(s: State) { exists s0 :: Init(s0) && Reach(s0, s) }

  lemma ReachSelf(s: State)
    ensures Reach(s, s)
  {
    assert RunBetween([s], s, s);
  }

  lemma ReachNext(s: State, m: State, a: Action, s': State)
    requires Reach(s, m) && Next(m, a, s')
    ensures Reach(s, s')
  {
    hide Next;
    var tr :| RunBetween(tr, s, m);
    var tr' := tr + [s'];
    assert Steps(m, s');
    forall i | 0 <= i < |tr'| - 1 ensures Steps(tr'[i], tr'[i + 1]) {
      if i + 1 < |tr| { assert Steps(tr[i], tr[i + 1]); }
    }
    assert RunBetween(tr', s, s');
  }

  lemma ReachBoth(s: State, m: State, s': State)
    requires Reach(s, m) && Reach(m, s')
    ensures Reach(s, s')
  {
    var tr :| RunBetween(tr, m, s');
    Extend(s, tr, |tr| - 1);
  }

  lemma {:induction false} Extend(s: State, tr: seq<State>, n: nat)
    requires IsRun(tr) && n < |tr| && Reach(s, tr[0])
    ensures Reach(s, tr[n])
  {
    if n > 0 {
      hide Next, Reach;
      Extend(s, tr, n - 1);
      assert Steps(tr[n - 1], tr[n - 1 + 1]);
      var a :| Next(tr[n - 1], a, tr[n]);
      ReachNext(s, tr[n - 1], a, tr[n]);
    }
  }

  lemma ReachableOn(s: State, s': State)
    requires Reachable(s) && Reach(s, s')
    ensures Reachable(s')
  {
    hide Reach, Init;
    var s0 :| Init(s0) && Reach(s0, s);
    ReachBoth(s0, s, s');
  }

  // ----- the guarantee and its limits

  /** The answer reflects every write whose invalidation the lookup could have seen. */
  ghost predicate Fresh(s: State, a: Answer)
    requires a.seen.Some?
  {
    Reflects(s, a.entry, a.seen.value)
  }

  /** An answer from `source` with tag `t` to a lookup that read `v`. */
  predicate Is(a: Answer, source: Source, t: Stamp, v: Stamp) { a.source == source && a.entry.tag == t && a.seen == Some(v) }

  /** Every such answer of every run is fresh. */
  ghost predicate Guaranteed(source: Source, t: Stamp, v: Stamp) {
    forall s, a :: Reachable(s) && a in s.answers && Is(a, source, t, v) ==> Fresh(s, a)
  }

  /**
   What a lookup that loads gets is always fresh. A hit may be stale exactly when the entry's tag is
   the same version of an earlier era; what comes from anywhere else, exactly when its tag is earlier
   than what the lookup read.
   */
  predicate MayMiss(source: Source, t: Stamp, v: Stamp) {
    source != Loaded && Earlier(t, v) && (source == Hit ==> t.version == v.version)
  }

  lemma ReachableInv(s: State)
    requires Reachable(s)
    ensures Inv(s)
  {
    var s0 :| Init(s0) && Reach(s0, s);
    var tr :| RunBetween(tr, s0, s);
    RunInv(tr, 0, |tr| - 1);
  }

  lemma SafeIsGuaranteed(source: Source, t: Stamp, v: Stamp)
    requires !MayMiss(source, t, v)
    ensures Guaranteed(source, t, v)
  {
    forall s, a | Reachable(s) && a in s.answers && Is(a, source, t, v) ensures Fresh(s, a) {
      hide Reachable, OpOk;
      ReachableInv(s);
      assert AnswerOk(s, a);
      hide Inv;
    }
  }

  /** The exact condition, for every source, tag and counter value. */
  lemma GuaranteedIff(source: Source, t: Stamp, v: Stamp)
    ensures Guaranteed(source, t, v) <==> !MayMiss(source, t, v)
  {
    if MayMiss(source, t, v) {
      var s, a, r := Misses(source, t, v);
      hide Reachable;
      assert !Fresh(s, a);
    } else {
      SafeIsGuaranteed(source, t, v);
    }
  }

  /** The answer misses a write that was invalidated before the lookup read the counter. */
  ghost predicate Missed(s: State, a: Answer, r: Raise) {
    a in s.answers && r in s.raises && a.seen.Some? && !Earlier(a.seen.value, r.stamp) && a.entry.asOf < r.write
  }

  lemma Misses(source: Source, t: Stamp, v: Stamp) returns (s: State, a: Answer, r: Raise)
    requires MayMiss(source, t, v)
    ensures Reachable(s) && Is(a, source, t, v) && Missed(s, a, r)
  {
    hide Reachable, Missed;
    match source
    case Hit => {
      var before: State;
      before, s, a, r := StaleHit(t, v);
      hide Reach;
      ReachableOn(before, s);
    }
    case Rechecked => s, a, r := StaleRecheck(t, v);
    case Followed => s, a, r := StaleFollower(t, v);
    case Degraded => s, a, r := StaleFallback(t, v);
  }

  // ----- pieces of runs

  /** A write commits and a call on node 1 invalidates it. */
  lemma ReachWritten(s: State, w: Value, id: nat)
    requires s.log != [] && id !in s.ops && 1 !in s.local
    ensures Reach(s, s.(log := s.log + [w], counter := Up(s.counter), raises := s.raises + {Raise(|s.log|, Up(s.counter))}))
  {
    var n := |s.log|;
    var s1 := s.(log := s.log + [w]);
    var s2 := s1.(ops := s1.ops[id := (1, DropLocal(n))]);
    var s3 := Go(s2, id, Bump(n));
    var s4 := s1.(counter := Up(s.counter), raises := s.raises + {Raise(n, Up(s.counter))});
    assert s2.local - {1} == s.local && s3.ops - {id} == s.ops;
    assert Next(s, Commit(w), s1) && Next(s1, Invalidate(id, 1, n), s2) && Next(s2, Move(id, true), s3) && Next(s3, Move(id, true), s4);
    hide *;
    ReachSelf(s);
    ReachNext(s, s, Commit(w), s1);
    ReachNext(s, s1, Invalidate(id, 1, n), s2);
    ReachNext(s, s2, Move(id, true), s3);
    ReachNext(s, s3, Move(id, true), s4);
  }

  /** `s'` is `s` after some writes, invalidations and expiries. */
  ghost predicate Written(s: State, s': State) {
    && s' == s.(log := s'.log, counter := s'.counter, raises := s'.raises)
    && s.log <= s'.log && s.raises <= s'.raises
  }

  /** Writes, invalidations and expiries can bring the counter to every later value. */
  lemma {:induction false} ReachCounter(s: State, v: Stamp, id: nat) returns (s': State)
    requires s.log != [] && id !in s.ops && 1 !in s.local && !Earlier(v, s.counter)
    ensures Reach(s, s') && Written(s, s') && s'.counter == v
    decreases v.era - s.counter.era, if v.era == s.counter.era then v.version - s.counter.version else 0
  {
    hide Reach;
    if s.counter == v {
      ReachSelf(s);
      s' := s;
    } else {
      var m := s.(counter := Stamp(s.counter.era + 1, 0));
      if s.counter.era < v.era {
        assert Next(s, Expire, m) by { hide Moved; }
        ReachSelf(s);
        ReachNext(s, s, Expire, m);
      } else {
        m := s.(log := s.log + [""], counter := Up(s.counter), raises := s.raises + {Raise(|s.log|, Up(s.counter))});
        ReachWritten(s, "", id);
      }
      s' := ReachCounter(m, v, id);
      ReachBoth(s, m, s');
    }
  }

  /** A lookup with nothing to hit and no flight to join leads one. */
  lemma ReachLead(s: State, id: nat)
    requires s.log != [] && id !in s.ops && 0 !in s.local && 0 !in s.flights
    ensures Reach(s, s.(ops := s.ops[id := (0, LeadVersion(Some(s.counter)))], flights := s.flights[0 := id]))
  {
    var seen := Some(s.counter);
    var s1 := s.(ops := s.ops[id := (0, ReadVersion)]);
    var s2 := s.(ops := s.ops[id := (0, CheckLocal(seen))]);
    var s3 := s.(ops := s.ops[id := (0, Enter(seen))]);
    var s4 := s.(ops := s.ops[id := (0, LeadVersion(seen))], flights := s.flights[0 := id]);
    assert Next(s, Get(id, 0), s1) && Next(s1, Move(id, true), s2) && Next(s2, Move(id, true), s3) && Next(s3, Move(id, true), s4);
    hide *;
    ReachSelf(s);
    ReachNext(s, s, Get(id, 0), s1);
    ReachNext(s, s1, Move(id, true), s2);
    ReachNext(s, s2, Move(id, true), s3);
    ReachNext(s, s3, Move(id, true), s4);
  }

  /** The entry a load of the present row yields when the leader read `latest`. */
  function Fetched(s: State, latest: Stamp): Entry
    requires s.log != []
  {
    Entry(s.log[Current(s)], Current(s), latest)
  }

  /** The leader of a flight reads the counter and loads. */
  lemma ReachFetch(s: State, id: nat, seen: Option<Stamp>)
    requires s.log != [] && id in s.ops && s.ops[id] == (0, LeadVersion(seen)) && 0 !in s.local
    ensures Reach(s, Go(s, id, LeadStore(seen, Fetched(s, s.counter))))
  {
    var latest := Some(s.counter);
    var s1 := Go(s, id, LeadCheck(seen, latest));
    var s2 := Go(s, id, LeadLoad(seen, latest, None));
    var s3 := Go(s, id, LeadStore(seen, Fetched(s, s.counter)));
    assert Next(s, Move(id, true), s1) && Next(s1, Move(id, true), s2) && Next(s2, Move(id, true), s3);
    hide *;
    ReachSelf(s);
    ReachNext(s, s, Move(id, true), s1);
    ReachNext(s, s1, Move(id, true), s2);
    ReachNext(s, s2, Move(id, true), s3);
  }

  lemma ReachLoaded(s: State, id: nat)
    requires s.log != [] && id !in s.ops && 0 !in s.local && 0 !in s.flights
    ensures Reach(s, s.(ops := s.ops[id := (0, LeadStore(Some(s.counter), Fetched(s, s.counter)))], flights := s.flights[0 := id]))
  {
    hide Reach;
    var m := s.(ops := s.ops[id := (0, LeadVersion(Some(s.counter)))], flights := s.flights[0 := id]);
    ReachLead(s, id);
    ReachFetch(m, id, Some(s.counter));
    var s' := s.(ops := s.ops[id := (0, LeadStore(Some(s.counter), Fetched(s, s.counter)))], flights := s.flights[0 := id]);
    assert Go(m, id, LeadStore(Some(s.counter), Fetched(m, m.counter))) == s';
    ReachBoth(s, m, s');
  }

  /** A lookup on a node whose flight is under way, with no entry to hit, ends up waiting for it. */
  lemma ReachAwait(s: State, id: nat)
    requires s.log != [] && id !in s.ops && 0 !in s.local && 0 in s.flights
    ensures Reach(s, s.(ops := s.ops[id := (0, Await(Some(s.counter)))]))
  {
    var seen := Some(s.counter);
    var s1 := s.(ops := s.ops[id := (0, ReadVersion)]);
    var s2 := s.(ops := s.ops[id := (0, CheckLocal(seen))]);
    var s3 := s.(ops := s.ops[id := (0, Enter(seen))]);
    var s4 := s.(ops := s.ops[id := (0, Await(seen))]);
    assert Next(s, Get(id, 0), s1) && Next(s1, Move(id, true), s2) && Next(s2, Move(id, true), s3) && Next(s3, Move(id, true), s4);
    hide *;
    ReachSelf(s);
    ReachNext(s, s, Get(id, 0), s1);
    ReachNext(s, s1, Move(id, true), s2);
    ReachNext(s, s2, Move(id, true), s3);
    ReachNext(s, s3, Move(id, true), s4);
  }

  /** A lookup on a node whose entry carries the counter's version hits. */
  lemma ReachHit(s: State, id: nat)
    requires s.log != [] && id !in s.ops && 0 in s.local && s.local[0].tag.version == s.counter.version
    ensures Reach(s, s.(answers := s.answers + [Answer(0, Hit, Some(s.counter), s.local[0])]))
  {
    var seen := Some(s.counter);
    var s1 := s.(ops := s.ops[id := (0, ReadVersion)]);
    var s2 := s.(ops := s.ops[id := (0, CheckLocal(seen))]);
    var s3 := s.(answers := s.answers + [Answer(0, Hit, seen, s.local[0])]);
    assert s2.ops - {id} == s.ops;
    assert Next(s, Get(id, 0), s1) && Next(s1, Move(id, true), s2) && Next(s2, Move(id, true), s3);
    hide *;
    ReachSelf(s);
    ReachNext(s, s, Get(id, 0), s1);
    ReachNext(s, s1, Move(id, true), s2);
    ReachNext(s, s2, Move(id, true), s3);
  }

  // ----- an entry with tag t while the counter stands at v, and a write it misses

  /** The leader of node 0 holds `e`, which misses the write of `r`; nothing else is under way. */
  ghost predicate Overtaken(s: State, e: Entry, r: Raise) {
    && s.log != [] && s.local == map[] && s.offered == {} && s.answers == [] && s.flights == map[0 := 0]
    && s.ops == map[0 := (0, LeadStore(Some(e.tag), e))]
    && r in s.raises && !Earlier(s.counter, r.stamp) && e.asOf < r.write
  }

  lemma ReachOvertaken(t: Stamp, v: Stamp) returns (s: State, e: Entry, r: Raise)
    requires Earlier(t, v)
    ensures Reachable(s) && Overtaken(s, e, r) && e.tag == t && s.counter == v
  {
    hide Reach;
    var s0 := State([""], Stamp(0, 0), map[], {}, map[], map[], {}, []);
    var s1 := ReachCounter(s0, t, 0);
    e := Fetched(s1, t);
    var s2 := s1.(ops := map[0 := (0, LeadStore(Some(t), e))], flights := map[0 := 0]);
    ReachLoaded(s1, 0);
    r := Raise(|s1.log|, Up(t));
    var s3 := s2.(log := s2.log + [""], counter := Up(t), raises := s2.raises + {r});
    ReachWritten(s2, "", 1);
    s := ReachCounter(s3, v, 1);
    assert Init(s0);
    assert Overtaken(s, e, r);
    hide *;
    ReachBoth(s0, s1, s2);
    ReachBoth(s0, s2, s3);
    ReachBoth(s0, s3, s);
    ReachableFrom(s0, s);
  }

  lemma ReachableFrom(s0: State, s: State)
    requires Init(s0) && Reach(s0, s)
    ensures Reachable(s)
  {
    hide Init, Reach;
  }

  lemma StaleFollower(t: Stamp, v: Stamp) returns (s': State, a: Answer, r: Raise)
    requires Earlier(t, v)
    ensures Reachable(s') && Is(a, Followed, t, v) && Missed(s', a, r) && s'.counter == v
  {
    hide Reachable, Reach;
    var s, e;
    s, e, r := ReachOvertaken(t, v);
    ReachAwait(s, 1);
    var s1 := s.(ops := s.ops[1 := (0, Await(Some(v)))]);
    var s2 := LeadStoreStep(s1, 0, 0, Some(t), e);
    a := Answer(0, Followed, Some(v), e);
    s' := Return(s2, 1, a);
    assert Next(s1, Move(0, true), s2) && Next(s2, Join(1, 0), s') && Missed(s', a, r);
    hide *;
    ReachNext(s, s1, Move(0, true), s2);
    ReachNext(s, s2, Join(1, 0), s');
    ReachableOn(s, s');
  }

  /** The flight has ended and its entry is on its way into the node's cache. */
  ghost predicate Parked(s: State, e: Entry, r: Raise) {
    && s.log != [] && s.local == map[] && s.offered == {(0, e)} && s.flights == map[] && s.ops == map[]
    && s.answers == [Answer(0, Loaded, Some(e.tag), e)]
    && r in s.raises && !Earlier(s.counter, r.stamp) && e.asOf < r.write
  }

  lemma ReachParked(t: Stamp, v: Stamp) returns (s': State, e: Entry, r: Raise)
    requires Earlier(t, v)
    ensures Reachable(s') && Parked(s', e, r) && e.tag == t && s'.counter == v
  {
    hide Reachable, Reach;
    var s;
    s, e, r := ReachOvertaken(t, v);
    var s1 := LeadStoreStep(s, 0, 0, Some(t), e);
    s' := s.(ops := map[], flights := map[], offered := {(0, e)}, answers := [Answer(0, Loaded, Some(t), e)]);
    assert s1.ops - {0} == map[] && s1.flights - {0} == map[];
    assert Next(s, Move(0, true), s1) && Next(s1, Move(0, true), s') && Parked(s', e, r);
    hide *;
    ReachSelf(s);
    ReachNext(s, s, Move(0, true), s1);
    ReachNext(s, s1, Move(0, true), s');
    ReachableOn(s, s');
  }

  /**
   After an expiry a version match proves nothing. In `s`, with no operation under way, the raise `r`
   is there and the answer is not; a lookup that starts after `s` hits and misses the write of `r`.
   */
  lemma StaleHit(t: Stamp, v: Stamp) returns (s: State, s': State, a: Answer, r: Raise)
    requires t.era < v.era && t.version == v.version
    ensures Reachable(s) && Reach(s, s') && s.ops == map[] && r in s.raises && a !in s.answers
    ensures Is(a, Hit, t, v) && Missed(s', a, r) && s'.counter.era > t.era
  {
    hide Reachable, Reach;
    var s0, e;
    s0, e, r := ReachParked(t, v);
    s := s0.(local := map[0 := e]);
    assert Next(s0, Store(0, e), s);
    ReachSelf(s0);
    ReachNext(s0, s0, Store(0, e), s);
    ReachableOn(s0, s);
    ReachHit(s, 1);
    a := Answer(0, Hit, Some(v), e);
    s' := s.(answers := s.answers + [a]);
  }

  lemma StaleRecheck(t: Stamp, v: Stamp) returns (s': State, a: Answer, r: Raise)
    requires Earlier(t, v)
    ensures Reachable(s') && Is(a, Rechecked, t, v) && Missed(s', a, r)
  {
    hide Reachable, Reach;
    var s, e;
    s, e, r := ReachParked(t, v);
    ReachLead(s, 1);
    var seen := Some(v);
    var s1 := s.(ops := map[1 := (0, LeadVersion(seen))], flights := map[0 := 1]);
    var latest := Stamp(v.era + 1, t.version);
    var s2 := ReachCounter(s1, latest, 2);
    var s3 := s2.(ops := map[1 := (0, LeadCheck(seen, Some(latest)))]);
    var s4 := s3.(local := map[0 := e]);
    var s5 := s4.(ops := map[1 := (0, LeadReturn(seen, e, Rechecked))]);
    a := Answer(0, Rechecked, seen, e);
    s' := Return(s5, 1, a).(flights := s5.flights - {0});
    assert Next(s2, Move(1, true), s3) && Next(s3, Store(0, e), s4) && Next(s4, Move(1, true), s5) && Next(s5, Move(1, true), s');
    assert Missed(s', a, r);
    hide *;
    ReachBoth(s, s1, s2);
    ReachNext(s, s2, Move(1, true), s3);
    ReachNext(s, s3, Store(0, e), s4);
    ReachNext(s, s4, Move(1, true), s5);
    ReachNext(s, s5, Move(1, true), s');
    ReachableOn(s, s');
  }

  lemma StaleFallback(t: Stamp, v: Stamp) returns (s': State, a: Answer, r: Raise)
    requires Earlier(t, v)
    ensures Reachable(s') && Is(a, Degraded, t, v) && Missed(s', a, r)
  {
    hide Reachable, Reach;
    var s, e;
    s, e, r := ReachParked(t, v);
    ReachLead(s, 1);
    var seen := Some(v);
    var s1 := s.(ops := map[1 := (0, LeadVersion(seen))], flights := map[0 := 1]);
    var s2 := s1.(ops := map[1 := (0, LeadCheck(seen, None))]);
    var s3 := s2.(local := map[0 := e]);
    var s4 := s3.(ops := map[1 := (0, LeadLoad(seen, None, Some(e)))]);
    var s5 := s4.(ops := map[1 := (0, LeadReturn(seen, e, Degraded))]);
    a := Answer(0, Degraded, seen, e);
    s' := Return(s5, 1, a).(flights := s5.flights - {0});
    assert Next(s1, Move(1, false), s2) && Next(s2, Store(0, e), s3) && Next(s3, Move(1, true), s4);
    assert Next(s4, Move(1, false), s5) && Next(s5, Move(1, true), s') && Missed(s', a, r);
    hide *;
    ReachNext(s, s1, Move(1, false), s2);
    ReachNext(s, s2, Store(0, e), s3);
    ReachNext(s, s3, Move(1, true), s4);
    ReachNext(s, s4, Move(1, false), s5);
    ReachNext(s, s5, Move(1, true), s');
    ReachableOn(s, s');
  }
}
