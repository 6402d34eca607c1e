/** What the reaper's sweeps close, what they leave, and that they finish. */
module ReaperProofs {
  import opened Options
  import opened Sets
  import opened Closure
  import opened ClosureProofs

  /** The world between the two halves of a sweep. */
  function Halfway(w: World, e: Event): World
    requires e.Reap? && forall i :: 0 <= i < |e.subs| ==> e.subs[i] in w.rows
  {
    CloseAll(w, e.subs, Reaper, ReapedStale, e.at)
  }

  lemma SweepEffect(w: World, e: Event, v: World, x: Id)
    requires Inv(w) && e.Reap? && Step(w, e, v) && x in w.rows
    ensures Inv(Halfway(w, e)) && Inv(v) && x in Halfway(w, e).rows && x in v.rows
    ensures Failing(w, Halfway(w, e), e.subs, Reaper, ReapedStale, e.at, x) && Ending(Halfway(w, e), v, e.sess, e.at, x)
    ensures v.closures == Halfway(w, e).closures
    ensures x in e.subs ==> w.rows[x].kind.Subagent? && x !in e.sess
    ensures x in e.sess ==> w.rows[x].kind.Session? && x !in e.subs
  {
    SweepKeeps(w, e);
    CloseAllKeeps(w, e.subs, Reaper, ReapedStale, e.at);
    EndAllKeeps(Halfway(w, e), e.sess, e.at);
    assert Failing(w, Halfway(w, e), e.subs, Reaper, ReapedStale, e.at, x);
    assert Ending(Halfway(w, e), v, e.sess, e.at, x);
  }

  /** The row's last heartbeat, or its start if it never had one, lies before the cutoff. */
  predicate Silent(r: Row, cutoff: int) {
    (r.heartbeat.Some? ==> r.heartbeat.value < cutoff) && (r.heartbeat.None? ==> r.started < cutoff)
  }

  /** An open subagent off the durable adapter that is silent itself, under a session that started and
      had its last heartbeat, if any, before the cutoff. */
  predicate SilentSub(w: World, durable: set<Id>, cutoff: int, x: Id) {
    && x in w.rows && w.rows[x].ended.None? && w.rows[x].kind.Subagent? && x !in durable && Silent(w.rows[x], cutoff)
    && w.rows[x].parent.Some? && w.rows[x].parent.value in w.rows
    && var p := w.rows[w.rows[x].parent.value];
       p.started < cutoff && (p.heartbeat.Some? ==> p.heartbeat.value < cutoff)
  }

  lemma StaleIsSilent(w: World, durable: set<Id>, cutoff: int, x: Id)
    ensures StaleSub(w, durable, cutoff, x) <==> SilentSub(w, durable, cutoff, x)
  {
  }

  /** A sweep ends only silent subagents, whose tasks it fails, and silent sessions none of whose
      subagents is left open. */
  lemma SweepIsSafe(w: World, e: Event, v: World, x: Id)
    requires Inv(w) && e.Reap? && Step(w, e, v) && x in w.rows
    ensures w.rows[x].ended.Some? ==> Same(w, v, x)
    ensures Open(w, x) && !Open(v, x) && w.rows[x].kind.Subagent? ==>
              && SilentSub(w, e.durable, e.cutoff, x) && x in v.closures
              && v.closures[x].closer == Reaper && v.closures[x].outcome == Outcome.Failed
              && v.closures[x] == FailedBy(w.rows[x], Reaper, ReapedStale, e.at)
              && w.rows[x].task in v.tasks && v.tasks[w.rows[x].task] == TaskStatus.Failed
    ensures Open(w, x) && !Open(v, x) && w.rows[x].kind.Session? ==>
              && x !in e.durable && Silent(w.rows[x], e.cutoff)
              && forall s {:trigger OpenSub(v, x, s)} :: !OpenSub(v, x, s)
  {
    StaleIsSilent(w, e.durable, e.cutoff, x);
    SweepEffect(w, e, v, x);
    assert RowOk(w, x) && RowOk(v, x);
    forall s {:trigger OpenSub(v, x, s)} | OpenSub(v, x, s) ensures x !in e.sess {
      SweepEffect(w, e, v, s);
      assert OpenSub(Halfway(w, e), x, s);
    }
  }

  // ----- completeness -----

  ghost predicate NothingStale(w: World, durable: set<Id>, cutoff: int) {
    && (forall x {:trigger StaleSub(w, durable, cutoff, x)} :: !StaleSub(w, durable, cutoff, x))
    && (forall x {:trigger StaleSession(w, durable, cutoff, x)} :: !StaleSession(w, durable, cutoff, x))
  }

  /** The sweep meets no locked row: it takes all that is stale, or as much as the batch holds. */
  ghost predicate Unhindered(w: World, e: Event)
    requires e.Reap? && forall i :: 0 <= i < |e.subs| ==> e.subs[i] in w.rows
  {
    && (|e.subs| == e.batch || forall x {:trigger StaleSub(w, e.durable, e.cutoff, x)} ::
        StaleSub(w, e.durable, e.cutoff, x) ==> x in e.subs)
    && (|e.sess| == e.batch ||
        forall x {:trigger StaleSession(Halfway(w, e), e.durable, e.cutoff, x)} ::
          StaleSession(Halfway(w, e), e.durable, e.cutoff, x) ==> x in e.sess)
  }

  /** What is stale after a sweep was stale before it and not taken. */
  lemma StaleSubLeft(w: World, e: Event, v: World, x: Id)
    requires Inv(w) && e.Reap? && Step(w, e, v) && StaleSub(v, e.durable, e.cutoff, x)
    ensures StaleSub(w, e.durable, e.cutoff, x) && x !in e.subs
  {
    SweepKeeps(w, e);
    SweepEffect(w, e, v, x);
    assert RowOk(w, x);
    SweepEffect(w, e, v, w.rows[x].parent.value);
  }

  lemma StaleSessionLeft(w: World, e: Event, v: World, x: Id)
    requires Inv(w) && e.Reap? && Step(w, e, v) && StaleSession(v, e.durable, e.cutoff, x)
    ensures StaleSession(Halfway(w, e), e.durable, e.cutoff, x) && x !in e.sess
  {
    SweepKeeps(w, e);
    SweepEffect(w, e, v, x);
    var u := Halfway(w, e);
    forall s {:trigger OpenSub(u, x, s)} ensures !OpenSub(u, x, s) {
      if OpenSub(u, x, s) {
        SweepEffect(w, e, v, s);
        assert RowOk(u, s);
        assert OpenSub(v, x, s);
      }
    }
  }

  function OpenRows(w: World): set<Id> {
    set x | x in w.rows && w.rows[x].ended.None?
  }

  /** Distinct ids from a set that are as many as the set are all of it. */
  lemma {:induction false} TakesAll(ids: seq<Id>, all: set<Id>)
    requires Distinct(ids) && (forall i :: 0 <= i < |ids| ==> ids[i] in all)
    ensures |ids| <= |all| && (|ids| == |all| ==> forall x :: x in all ==> x in ids)
  {
    if ids == [] {
      if |all| == 0 { assert all == {}; }
    } else {
      var rest, y := ids[..|ids| - 1], ids[|ids| - 1];
      forall i | 0 <= i < |rest| ensures rest[i] in all - {y} { assert rest[i] == ids[i]; }
      TakesAll(rest, all - {y});
      assert ids == rest + [y];
    }
  }

  /** A batch as large as the number of open rows is enough for one sweep to settle everything. */
  lemma OneSweepIsEnough(w: World, e: Event, v: World)
    requires Inv(w) && e.Reap? && Step(w, e, v) && Unhindered(w, e) && |OpenRows(w)| <= e.batch
    ensures NothingStale(v, e.durable, e.cutoff)
  {
    SweepKeeps(w, e);
    TakesAll(e.subs, OpenRows(w));
    forall i | 0 <= i < |e.sess| ensures e.sess[i] in OpenRows(w) { SweepEffect(w, e, v, e.sess[i]); }
    TakesAll(e.sess, OpenRows(w));
    forall x {:trigger StaleSub(v, e.durable, e.cutoff, x)} ensures !StaleSub(v, e.durable, e.cutoff, x) {
      if StaleSub(v, e.durable, e.cutoff, x) { StaleSubLeft(w, e, v, x); }
    }
    forall x {:trigger StaleSession(v, e.durable, e.cutoff, x)} ensures !StaleSession(v, e.durable, e.cutoff, x) {
      if StaleSession(v, e.durable, e.cutoff, x) {
        StaleSessionLeft(w, e, v, x);
        SweepEffect(w, e, v, x);
      }
    }
  }

  /** So a silent subagent, stray or not, gets a reaper's closure. */
  lemma StaleIsReaped(w: World, e: Event, v: World, x: Id)
    requires Inv(w) && e.Reap? && Step(w, e, v) && Unhindered(w, e)
    requires |OpenRows(w)| <= e.batch && SilentSub(w, e.durable, e.cutoff, x)
    ensures x in v.closures && v.closures[x] == FailedBy(w.rows[x], Reaper, ReapedStale, e.at)
  {
    StaleIsSilent(w, e.durable, e.cutoff, x);
    SweepKeeps(w, e);
    TakesAll(e.subs, OpenRows(w));
    assert x in OpenRows(w);
    SweepEffect(w, e, v, x);
  }

  /** And a silent session off the durable adapter that has no open subagent is ended as abandoned. */
  lemma IdleIsEnded(w: World, e: Event, v: World, x: Id)
    requires Inv(w) && e.Reap? && Step(w, e, v) && Unhindered(w, e) && |OpenRows(w)| <= e.batch
    requires Open(w, x) && w.rows[x].kind.Session? && x !in e.durable && Silent(w.rows[x], e.cutoff)
    requires forall s {:trigger OpenSub(w, x, s)} :: !OpenSub(w, x, s)
    ensures x in v.rows && v.rows[x].ended == Some(e.at) && v.rows[x].outcome == Some(Abandoned)
  {
    OneSweepIsEnough(w, e, v);
    SweepEffect(w, e, v, x);
    forall s {:trigger OpenSub(v, x, s)} ensures !OpenSub(v, x, s) {
      if OpenSub(v, x, s) {
        SweepKeeps(w, e);
        SweepEffect(w, e, v, s);
        assert OpenSub(w, x, s);
      }
    }
    assert !StaleSession(v, e.durable, e.cutoff, x);
    if !Open(v, x) { SessionEndRecorded(w, e, v, x); }
  }

  // ----- convergence -----

  lemma SweepOpensNothing(w: World, e: Event, v: World)
    requires Inv(w) && e.Reap? && Step(w, e, v)
    ensures v.rows.Keys == w.rows.Keys && OpenRows(v) <= OpenRows(w)
    ensures forall i :: 0 <= i < |e.subs| ==> e.subs[i] in OpenRows(w) && e.subs[i] !in OpenRows(v)
    ensures forall i :: 0 <= i < |e.sess| ==> e.sess[i] in OpenRows(w) && e.sess[i] !in OpenRows(v)
  {
    SweepKeeps(w, e);
    forall x | x in w.rows ensures x in OpenRows(v) ==> x in OpenRows(w) && x !in e.subs && x !in e.sess {
      SweepEffect(w, e, v, x);
    }
    forall i | 0 <= i < |e.sess| ensures e.sess[i] in OpenRows(w) && e.sess[i] !in OpenRows(v) {
      SweepEffect(w, e, v, e.sess[i]);
    }
  }

  lemma FewerOpen(a: set<Id>, b: set<Id>, y: Id)
    requires a <= b && y in b && y !in a
    ensures |a| < |b|
  {
    assert a <= b - {y};
    Fewer(a, b - {y});
  }

  /** A sweep with room for one row ends at least one, unless nothing is stale; then it changes nothing. */
  lemma SweepProgresses(w: World, e: Event, v: World)
    requires Inv(w) && e.Reap? && Step(w, e, v) && Unhindered(w, e) && e.batch > 0
    ensures if NothingStale(w, e.durable, e.cutoff) then v == w else |OpenRows(v)| < |OpenRows(w)|
  {
    SweepOpensNothing(w, e, v);
    if |e.subs| > 0 {
      assert StaleSub(w, e.durable, e.cutoff, e.subs[0]);
      FewerOpen(OpenRows(v), OpenRows(w), e.subs[0]);
    } else {
      assert Halfway(w, e) == w;
      if |e.sess| > 0 {
        assert StaleSession(w, e.durable, e.cutoff, e.sess[0]);
        FewerOpen(OpenRows(v), OpenRows(w), e.sess[0]);
      }
    }
  }

  /** Event `k` is an unhindered sweep for this cutoff. */
  ghost predicate SweepAt(ws: seq<World>, es: seq<Event>, durable: set<Id>, cutoff: int, k: int) {
    && StepAt(ws, es, k) && es[k].Reap? && es[k].durable == durable && es[k].cutoff == cutoff && es[k].batch > 0
    && Unhindered(ws[k], es[k])
  }

  /** Nothing is stale, or at least `k` rows have been ended. */
  ghost predicate Shrunk(w: World, v: World, durable: set<Id>, cutoff: int, k: nat) {
    Inv(v) && (NothingStale(v, durable, cutoff) || |OpenRows(v)| + k <= |OpenRows(w)|)
  }

  lemma SweepShrinks(ws: seq<World>, es: seq<Event>, durable: set<Id>, cutoff: int, k: nat)
    requires SweepAt(ws, es, durable, cutoff, k) && Shrunk(ws[0], ws[k], durable, cutoff, k)
    ensures Shrunk(ws[0], ws[k + 1], durable, cutoff, k + 1)
  {
    StepKeeps(ws[k], es[k], ws[k + 1]);
    SweepProgresses(ws[k], es[k], ws[k + 1]);
  }

  lemma {:induction false} SweepsShrink(ws: seq<World>, es: seq<Event>, durable: set<Id>, cutoff: int, k: nat)
    requires |ws| == |es| + 1 && Inv(ws[0]) && k < |ws|
    requires forall i {:trigger SweepAt(ws, es, durable, cutoff, i)} :: 0 <= i < |es| ==>
             SweepAt(ws, es, durable, cutoff, i)
    ensures Shrunk(ws[0], ws[k], durable, cutoff, k)
  {
    if k > 0 {
      SweepsShrink(ws, es, durable, cutoff, k - 1);
      SweepShrinks(ws, es, durable, cutoff, k - 1);
    }
  }

  /** As many sweeps as there are open rows settle everything, whatever the batch size. */
  lemma SweepsConverge(ws: seq<World>, es: seq<Event>, durable: set<Id>, cutoff: int)
    requires |ws| == |es| + 1 && Inv(ws[0]) && |OpenRows(ws[0])| <= |es|
    requires forall i {:trigger SweepAt(ws, es, durable, cutoff, i)} :: 0 <= i < |es| ==>
             SweepAt(ws, es, durable, cutoff, i)
    ensures NothingStale(ws[|es|], durable, cutoff)
  {
    SweepsShrink(ws, es, durable, cutoff, |es|);
    var v := ws[|es|];
    if |OpenRows(v)| == 0 {
      assert OpenRows(v) == {};
      forall x ensures !Open(v, x) { assert x !in OpenRows(v); }
    }
  }

  // ----- the hook-loss rate -----

  predicate Counted(c: Closed, tenant: nat, since: int, until: int) {
    c.tenant == tenant && since <= c.at < until
  }

  function Total(w: World, tenant: nat, since: int, until: int): set<Id> {
    set x | x in w.closures && Counted(w.closures[x], tenant, since, until)
  }

  /** Reaped and never heard of since. */
  function Lost(w: World, tenant: nat, since: int, until: int): set<Id> {
    set x | x in w.closures && Counted(w.closures[x], tenant, since, until) && w.closures[x].closer.Reaper?
      && w.closures[x].late.None?
  }

  function HookLossRate(w: World, tenant: nat, since: int, until: int): (rate: real)
    ensures 0.0 <= rate <= 1.0
  {
    var total, lost := Total(w, tenant, since, until), Lost(w, tenant, since, until);
    Fewer(lost, total);
    if |total| == 0 then 0.0 else RateInRange(|lost|, |total|); |lost| as real / |total| as real
  }

  lemma RateInRange(lost: nat, total: nat)
    requires lost <= total && 0 < total
    ensures 0.0 <= lost as real / total as real <= 1.0
  {
  }

  /** Over any run the counted closures stay counted, and a lost one stops being lost exactly when
      its hook reports after all. */
  lemma LossOnlyByLateHook(ws: seq<World>, es: seq<Event>, k: nat, tenant: nat, since: int, until: int, x: Id)
    requires IsRun(ws, es) && ws[0] == EMPTY && k < |es|
    ensures Total(ws[k], tenant, since, until) <= Total(ws[k + 1], tenant, since, until)
    ensures x in Lost(ws[k], tenant, since, until) && x !in Lost(ws[k + 1], tenant, since, until) <==>
              x in Lost(ws[k], tenant, since, until) && es[k].HookClose? && es[k].id == x && es[k].tenant == tenant
  {
    RunKeeps(ws, es, k);
    assert StepAt(ws, es, k);
    StepFreezes(ws[k], es[k], ws[k + 1]);
    forall y | y in Total(ws[k], tenant, since, until) ensures y in Total(ws[k + 1], tenant, since, until) {
      assert ClosureFrozen(ws[k], ws[k + 1], y);
    }
    assert ClosureFrozen(ws[k], ws[k + 1], x) && MarkedByHook(ws[k], es[k], ws[k + 1], x);
    if x in ws[k].closures { assert RowOk(ws[k], x); }
  }
}
