/** Replaying a player's offline time in steps that its subsystems ask for. Durations are nanoseconds. */
module Offline {
  import opened Common

  const NoUpdateDt := -1

  datatype NextUpdate = NextUpdate(source: string, dt: int)

  /** `u` is the first of the shortest updates that are wanted at all. */
  ghost predicate IsEarliest(updates: seq<NextUpdate>, u: NextUpdate) {
    && u.dt >= 0
    && (forall k :: 0 <= k < |updates| && updates[k].dt >= 0 ==> u.dt <= updates[k].dt)
    && exists i :: 0 <= i < |updates| && updates[i] == u && forall k :: 0 <= k < i && updates[k].dt >= 0 ==> u.dt < updates[k].dt
  }

  predicate NoneWanted(updates: seq<NextUpdate>) { forall k :: 0 <= k < |updates| ==> updates[k].dt < 0 }

  method MinNextUpdate(tick: int, updates: seq<NextUpdate>) returns (r: NextUpdate)
    ensures NoneWanted(updates) ==> r == NextUpdate("", NoUpdateDt)
    ensures !NoneWanted(updates) ==> exists u :: IsEarliest(updates, u) && r == u.(dt := if u.dt < tick then tick else u.dt)
    ensures Paced(r, tick)
  {
    r := NextUpdate("", NoUpdateDt);
    for i := 0 to |updates|
      invariant NoneWanted(updates[..i]) ==> r == NextUpdate("", NoUpdateDt)
      invariant !NoneWanted(updates[..i]) ==> IsEarliest(updates[..i], r)
    {
      var seen := updates[..i];
      assert updates[..i + 1] == seen + [updates[i]];
      var update := updates[i];
      if update.dt < 0 { KeepEarliest(seen, update, r); continue; }
      if r.dt < 0 || update.dt < r.dt {
        assert (seen + [update])[i] == update;
        r := update;
      } else {
        KeepEarliest(seen, update, r);
      }
    }
    assert updates[..|updates|] == updates;
    if r.dt >= 0 && r.dt < tick {
      assert IsEarliest(updates, r);
      r := r.(dt := tick);
    }
  }

  lemma KeepEarliest(seen: seq<NextUpdate>, update: NextUpdate, r: NextUpdate)
    ensures IsEarliest(seen, r) && (update.dt < 0 || r.dt <= update.dt) ==> IsEarliest(seen + [update], r)
    ensures update.dt < 0 ==> (NoneWanted(seen + [update]) <==> NoneWanted(seen))
    ensures update.dt >= 0 ==> !NoneWanted(seen + [update])
  {
    var all := seen + [update];
    assert all[|seen|] == update && forall k :: 0 <= k < |seen| ==> all[k] == seen[k];
    if IsEarliest(seen, r) && (update.dt < 0 || r.dt <= update.dt) {
      var i :| 0 <= i < |seen| && seen[i] == r && forall k :: 0 <= k < i && seen[k].dt >= 0 ==> r.dt < seen[k].dt;
      assert all[i] == r;
    }
  }

  /** An answer that never asks for a step shorter than the tick. */
  predicate Paced(u: NextUpdate, tick: int) { u.dt < 0 || u.dt >= tick }

  /**
   The callback may keep state, so its answer is a function of the durations of all its calls so
   far, the first of which has duration 0.
   */
  type Callback = seq<int> -> NextUpdate

  datatype OfflineResult = OfflineResult(updateCount: nat, sourceCount: map<string, nat>)

  datatype Outcome = Finished(result: OfflineResult) | Panicked(source: string)

  function Delta(remain: int, next: NextUpdate): int { if 0 <= next.dt < remain then next.dt else remain }

  /** The steps of a run, the sources of those that ended an update, and the source of a zero step. */
  datatype Trail = Trail(deltas: seq<int>, tally: seq<string>, stuck: Option<string>)

  function TrailFrom(f: Callback, remain: nat, calls: seq<int>): Trail
    decreases remain
  {
    if remain == 0 then Trail([], [], None)
    else
      var next := f(calls);
      var d := Delta(remain, next);
      if d == 0 then Trail([], [], Some(next.source))
      else
        var rest := TrailFrom(f, remain - d, calls + [d]);
        Trail([d] + rest.deltas, (if 0 <= next.dt <= remain then [next.source] else []) + rest.tally, rest.stuck)
  }

  function Occurrences(tally: seq<string>, source: string): nat { multiset(tally)[source] }

  function Lookup(counts: map<string, nat>, source: string): nat { if source in counts then counts[source] else 0 }

  /** After `calls` and `tally` the rest of the trail `t` is still to come. */
  ghost predicate OnTrail(f: Callback, t: Trail, remain: nat, calls: seq<int>, tally: seq<string>) {
    var rest := TrailFrom(f, remain, calls);
    [0] + t.deltas == calls + rest.deltas && t.tally == tally + rest.tally && t.stuck == rest.stuck
  }

  lemma StepOnTrail(f: Callback, t: Trail, remain: nat, calls: seq<int>, tally: seq<string>)
    requires remain > 0 && OnTrail(f, t, remain, calls, tally) && Delta(remain, f(calls)) != 0
    ensures var next := f(calls);
      var d := Delta(remain, next);
      OnTrail(f, t, remain - d, calls + [d], if 0 <= next.dt <= remain then tally + [next.source] else tally)
  {
    var next := f(calls);
    var d := Delta(remain, next);
    var rest := TrailFrom(f, remain - d, calls + [d]);
    var ended := if 0 <= next.dt <= remain then [next.source] else [];
    assert calls + ([d] + rest.deltas) == (calls + [d]) + rest.deltas;
    assert tally + (ended + rest.tally) == (tally + ended) + rest.tally;
    assert tally + [] == tally;
  }

  lemma OneMore(tally: seq<string>, source: string)
    ensures forall s :: Occurrences(tally + [source], s) == Occurrences(tally, s) + if s == source then 1 else 0
  {
    assert multiset(tally + [source]) == multiset(tally) + multiset{source};
  }

  method RunOffline(total: int, f: Callback) returns (o: Outcome, calls: seq<int>)
    ensures total <= 0 ==> o == Finished(OfflineResult(0, map[])) && calls == []
    ensures total > 0 ==>
              var t := TrailFrom(f, total, [0]);
              && calls == [0] + t.deltas
              && (t.stuck.Some? ==> o == Panicked(t.stuck.value))
              && (t.stuck.None? ==> o.Finished? && o.result.updateCount == |t.deltas|
                                    && forall s :: Lookup(o.result.sourceCount, s) == Occurrences(t.tally, s))
  {
    if total <= 0 { return Finished(OfflineResult(0, map[])), []; }
    var remain, count := total, 0;
    var counts: map<string, nat> := map[];
    calls := [0];
    var next := f(calls);
    ghost var tally: seq<string> := [];
    ghost var t := TrailFrom(f, total, [0]);
    while remain > 0
      invariant 0 <= remain && next == f(calls) && |calls| == count + 1
      invariant OnTrail(f, t, remain, calls, tally)
      invariant forall s :: Lookup(counts, s) == Occurrences(tally, s)
      decreases remain
    {
      var delta := remain;
      if next.dt >= 0 && next.dt < delta { delta := next.dt; }
      if delta == 0 { return Panicked(next.source), calls; }
      StepOnTrail(f, t, remain, calls, tally);
      if next.dt >= 0 && next.dt <= remain {
        counts := counts[next.source := Lookup(counts, next.source) + 1];
        OneMore(tally, next.source);
        tally := tally + [next.source];
      }
      count := count + 1;
      remain := remain - delta;
      calls := calls + [delta];
      next := f(calls);
    }
    o := Finished(OfflineResult(count, counts));
  }

  // ----- what a run adds up to

  function Sum(s: seq<int>): int { if s == [] then 0 else s[0] + Sum(s[1..]) }

  /** Every step is positive, and together they make up the whole time unless the run panics before. */
  lemma {:induction false} DeltasSumToTotal(f: Callback, remain: nat, calls: seq<int>)
    ensures var t := TrailFrom(f, remain, calls);
      && (forall i :: 0 <= i < |t.deltas| ==> t.deltas[i] > 0)
      && (if t.stuck.None? then Sum(t.deltas) == remain else Sum(t.deltas) < remain)
    decreases remain
  {
    if remain > 0 {
      var d := Delta(remain, f(calls));
      if d != 0 {
        DeltasSumToTotal(f, remain - d, calls + [d]);
        var rest := TrailFrom(f, remain - d, calls + [d]);
        assert ([d] + rest.deltas)[1..] == rest.deltas;
      }
    }
  }

  /** A run panics exactly when the callback asks for a zero step while time remains. */
  lemma {:induction false} PanicsExactlyOnZero(f: Callback, remain: nat, calls: seq<int>)
    ensures var t := TrailFrom(f, remain, calls);
      && (forall i :: 0 <= i < |t.deltas| ==> f(calls + t.deltas[..i]).dt != 0)
      && (t.stuck.Some? ==> f(calls + t.deltas) == NextUpdate(t.stuck.value, 0))
    decreases remain
  {
    if remain > 0 {
      var d := Delta(remain, f(calls));
      assert calls + [] == calls;
      if d != 0 {
        PanicsExactlyOnZero(f, remain - d, calls + [d]);
        var rest := TrailFrom(f, remain - d, calls + [d]).deltas;
        var deltas := [d] + rest;
        forall i | 0 <= i < |deltas| ensures f(calls + deltas[..i]).dt != 0 {
          if i > 0 {
            assert calls + deltas[..i] == (calls + [d]) + rest[..i - 1];
          } else {
            assert calls + deltas[..0] == calls;
          }
        }
        assert calls + deltas == (calls + [d]) + rest;
      }
    }
  }

  /** Each step is what the callback asked for, or the rest of the time if it asked for more or for nothing. */
  lemma {:induction false} StepsAreAnswers(f: Callback, remain: nat, calls: seq<int>, i: nat)
    requires i < |TrailFrom(f, remain, calls).deltas|
    ensures var t := TrailFrom(f, remain, calls);
      var left, asked := remain - Sum(t.deltas[..i]), f(calls + t.deltas[..i]).dt;
      t.deltas[i] == if 0 <= asked < left then asked else left
    decreases remain
  {
    hide TrailFrom, Sum;
    TrailSteps(f, remain, calls);
    var d := Delta(remain, f(calls));
    var deltas := TrailFrom(f, remain, calls).deltas;
    var rest := TrailFrom(f, remain - d, calls + [d]).deltas;
    if i == 0 {
      SumNone();
      assert deltas[..0] == [] && calls + deltas[..0] == calls;
    } else {
      StepsAreAnswers(f, remain - d, calls + [d], i - 1);
      SumCons(d, rest[..i - 1]);
      assert deltas[..i] == [d] + rest[..i - 1];
      assert calls + deltas[..i] == (calls + [d]) + rest[..i - 1];
    }
  }

  lemma TrailSteps(f: Callback, remain: nat, calls: seq<int>)
    requires TrailFrom(f, remain, calls).deltas != []
    ensures var d := Delta(remain, f(calls));
      0 < d <= remain && TrailFrom(f, remain, calls).deltas == [d] + TrailFrom(f, remain - d, calls + [d]).deltas
  {
  }

  lemma SumNone()
    ensures Sum([]) == 0
  {
  }

  lemma SumCons(d: int, s: seq<int>)
    ensures Sum([d] + s) == d + Sum(s)
  {
    assert ([d] + s)[1..] == s;
  }

  /** Every step but possibly the last ends an update; the last does so exactly when the answer fits the time left. */
  lemma {:induction false} SourcesAddUp(f: Callback, remain: nat, calls: seq<int>)
    requires remain > 0 && TrailFrom(f, remain, calls).stuck.None?
    ensures var t := TrailFrom(f, remain, calls);
      && t.deltas != []
      && var last := |t.deltas| - 1;
         |t.tally| == if f(calls + t.deltas[..last]).dt == t.deltas[last] then |t.deltas| else |t.deltas| - 1
    decreases remain
  {
    var d := Delta(remain, f(calls));
    var t := TrailFrom(f, remain, calls);
    var rest := TrailFrom(f, remain - d, calls + [d]);
    if remain - d > 0 {
      SourcesAddUp(f, remain - d, calls + [d]);
      var last := |t.deltas| - 1;
      assert t.deltas[last] == rest.deltas[last - 1];
      assert calls + t.deltas[..last] == (calls + [d]) + rest.deltas[..last - 1];
    } else {
      assert calls + t.deltas[..0] == calls;
    }
  }

  /** Each counted step counts for the source whose answer it was, in order. */
  lemma {:induction false} TallyIs(f: Callback, remain: nat, calls: seq<int>, i: nat)
    requires i < |TrailFrom(f, remain, calls).tally|
    ensures var t := TrailFrom(f, remain, calls); i < |t.deltas| && t.tally[i] == f(calls + t.deltas[..i]).source
    decreases remain
  {
    var next := f(calls);
    var d := Delta(remain, next);
    var t, rest := TrailFrom(f, remain, calls), TrailFrom(f, remain - d, calls + [d]);
    assert t.deltas == [d] + rest.deltas;
    if 0 <= next.dt <= remain {
      assert t.tally == [next.source] + rest.tally;
      if i == 0 {
        assert calls + t.deltas[..0] == calls;
      } else {
        TallyIs(f, remain - d, calls + [d], i - 1);
        assert calls + t.deltas[..i] == (calls + [d]) + rest.deltas[..i - 1];
      }
    }
  }

  /** With a callback paced by a positive tick a run never panics and takes at most ceil(total / tick) steps. */
  lemma PacedRuns(f: Callback, tick: int, remain: nat, calls: seq<int>)
    requires tick > 0 && forall h :: Paced(f(h), tick)
    ensures var t := TrailFrom(f, remain, calls);
      t.stuck.None? && |t.deltas| <= (remain + tick - 1) / tick
  {
    PacedSteps(f, tick, remain, calls);
    Quotient(|TrailFrom(f, remain, calls).deltas|, remain + tick - 1, tick);
  }

  lemma {:induction false} PacedSteps(f: Callback, tick: int, remain: nat, calls: seq<int>)
    requires tick > 0 && forall h :: Paced(f(h), tick)
    ensures var t := TrailFrom(f, remain, calls);
      t.stuck.None? && |t.deltas| * tick <= remain + tick - 1
    decreases remain
  {
    if remain > 0 {
      var next := f(calls);
      assert Paced(next, tick);
      var d := Delta(remain, next);
      PacedSteps(f, tick, remain - d, calls + [d]);
      var n := |TrailFrom(f, remain - d, calls + [d]).deltas|;
      assert (n + 1) * tick == n * tick + tick;
    }
  }

  lemma Quotient(n: int, x: int, m: int)
    requires m > 0 && n * m <= x
    ensures n <= x / m
  {
    var q := x / m;
    assert x < (q + 1) * m;
    if n >= q + 1 { ProductMonotone(q + 1, n, m); }
  }

  lemma ProductMonotone(a: int, b: int, m: int)
    requires a <= b && 0 < m
    ensures a * m <= b * m
  {
  }
}
