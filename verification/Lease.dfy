/**
 The per-task Redis lease of mission_engine/engine/lease.py as a timed protocol.

 Any number of workers contend for one key.  A worker may run the task only between
 `Start` and the event that ends its heartbeat race.  Time is real-valued; `Tick` advances it.

 What the timing assumptions are, and where each one sits:
 - no process pause: `Tick` never passes the end of a running heartbeat cycle;
 - the compare-and-act commands (WATCH/GET/MULTI/EXEC) are atomic: `RefreshLands`, `Release`;
 - `lag` bounds the delay between a command taking effect in Redis and the worker stamping
   its clock (`last_ok`), for SET NX as well as for PEXPIRE;
 - `commit` bounds the time from the end of the heartbeat race to the worker's last commit,
   which comes after `lease.run` and before the release.
 */
module Lease {
  import opened Options

  /** One time unit throughout: ttl is LEASE_TTL_MS, refresh LEASE_REFRESH_SECONDS, timeout
      LEASE_REFRESH_TIMEOUT_SECONDS. */
  datatype Params = Params(ttl: real, refresh: real, timeout: real, lag: real, commit: real) {
    ghost predicate Valid() {
      ttl > 0.0 && refresh >= 0.0 && timeout >= 0.0 && lag >= 0.0 && commit >= 0.0
    }

    /** `worst_cycle` of the heartbeat. */
    function Cycle(): real {
      refresh + timeout
    }
  }

  /** The constants of lease.py, in milliseconds. */
  function Defaults(lag: real, commit: real): Params {
    Params(20000.0, 5000.0, 2000.0, lag, commit)
  }

  datatype Key = Key(token: nat, expiry: real)

  /** One TaskLease object.  `effect` is when the last SET or PEXPIRE took effect in Redis. */
  datatype Phase =
    | Waiting(effect: real)
    | Working(effect: real, lastOk: real, cycleStart: real)
    | Committing(effect: real, since: real)
    | Leaving

  datatype State = State(now: real, key: Option<Key>, leases: map<nat, Phase>, next: nat)

  const Init := State(0.0, None, map[], 0)

  datatype Event =
    | Tick(to: real)
    | Acquire
    | Start(t: nat)
    | Skip(t: nat)
    | RefreshLands(t: nat)
    | RefreshOk(t: nat)
    | RefreshLost(t: nat)
    | RefreshFails(t: nat)
    | Finish(t: nat)
    | Landed(t: nat)
    | Release(t: nat)
    | Crash(t: nat)

  /** `is_leased`: the key exists, that is, has not reached its expiry. */
  predicate Leased(s: State) {
    s.key.Some? && s.now < s.key.value.expiry
  }

  /** What GET would return is this token. */
  predicate Held(s: State, t: nat) {
    Leased(s) && s.key.value.token == t
  }

  predicate Inside(s: State, t: nat) {
    t in s.leases && s.leases[t].Working?
  }

  /** The time a process may not sleep past without acting. */
  predicate NoPause(p: Params, s: State, to: real) {
    forall t :: t in s.leases ==>
      match s.leases[t]
      case Waiting(effect) => to <= effect + p.lag
      case Working(_, _, cycleStart) => to <= cycleStart + p.Cycle()
      case Committing(_, since) => to <= since + p.commit
      case Leaving => true
  }

  /** A refresh attempt can only report between the end of the sleep and the timeout. */
  predicate CheckDue(p: Params, s: State, t: nat) {
    Inside(s, t) && s.leases[t].cycleStart + p.refresh <= s.now <= s.leases[t].cycleStart + p.Cycle()
  }

  /** One step of the protocol; None when the event is not enabled. */
  function Apply(p: Params, s: State, e: Event): Option<State> {
    match e
    case Tick(to) =>
      if s.now <= to && NoPause(p, s, to) then Some(s.(now := to)) else None
    case Acquire =>
      if Leased(s) then Some(s)
      else Some(s.(key := Some(Key(s.next, s.now + p.ttl)),
                   leases := s.leases[s.next := Waiting(s.now)], next := s.next + 1))
    case Start(t) =>
      if t in s.leases && s.leases[t].Waiting?
      then Some(s.(leases := s.leases[t := Working(s.leases[t].effect, s.now, s.now)])) else None
    case Skip(t) =>
      if t in s.leases && s.leases[t].Waiting? then Some(s.(leases := s.leases[t := Leaving])) else None
    case RefreshLands(t) =>
      if CheckDue(p, s, t) && Held(s, t)
      then Some(s.(key := Some(Key(t, s.now + p.ttl)),
                   leases := s.leases[t := Working(s.now, s.leases[t].lastOk, s.leases[t].cycleStart)]))
      else None
    case RefreshOk(t) =>
      if CheckDue(p, s, t)
         && s.leases[t].cycleStart + p.refresh <= s.leases[t].effect && s.now - s.leases[t].effect <= p.lag
      then Some(s.(leases := s.leases[t := Working(s.leases[t].effect, s.now, s.now)])) else None
    case RefreshLost(t) =>
      if Inside(s, t) && !Held(s, t) then Some(s.(leases := s.leases[t := Leaving])) else None
    case RefreshFails(t) =>
      if !CheckDue(p, s, t) then None
      else if s.now - s.leases[t].lastOk + p.Cycle() >= p.ttl then Some(s.(leases := s.leases[t := Leaving]))
      else Some(s.(leases := s.leases[t := Working(s.leases[t].effect, s.leases[t].lastOk, s.now)]))
    case Finish(t) =>
      if Inside(s, t) then Some(s.(leases := s.leases[t := Committing(s.leases[t].effect, s.now)])) else None
    case Landed(t) =>
      if t in s.leases && s.leases[t].Committing? then Some(s.(leases := s.leases[t := Leaving])) else None
    case Release(t) =>
      if t in s.leases && s.leases[t].Leaving?
      then Some(s.(key := if Held(s, t) then None else s.key, leases := s.leases - {t})) else None
    case Crash(t) =>
      if t in s.leases then Some(s.(leases := s.leases - {t})) else None
  }

  /** The state after a whole run, None when some event was not enabled. */
  function Run(p: Params, s: State, es: seq<Event>): Option<State>
    decreases |es|
  {
    if es == [] then Some(s)
    else
      var r := Apply(p, s, es[0]);
      if r.None? then None else Run(p, r.value, es[1..])
  }

  ghost predicate Exclusive(s: State) {
    forall t, u :: Inside(s, t) && Inside(s, u) ==> t == u
  }

  /** No run, with any number of workers, crashes and Redis failures, has two workers inside. */
  ghost predicate AlwaysExclusive(p: Params) {
    forall es: seq<Event> ::
      Run(p, Init, es).Some? ==> Exclusive(Run(p, Init, es).value)
  }

  function Times(k: nat, x: real): real {
    if k == 0 then 0.0 else Times(k - 1, x) + x
  }

  /** `gap` is the length of some k consecutive heartbeat cycles, each at least the refresh
      interval and at most the refresh interval plus the timeout. */
  ghost predicate Schedulable(p: Params, gap: real) {
    exists k: nat :: Times(k, p.refresh) <= gap <= Times(k, p.Cycle())
  }

  /** The heartbeat can still be running when the key expires: after failing for `gap` it went
      on (or has not checked yet), and the next check may come only at or after the expiry. */
  ghost predicate CanOutlive(p: Params, gap: real) {
    && Schedulable(p, gap)
    && (gap == 0.0 || gap + p.Cycle() < p.ttl)
    && gap + p.Cycle() >= p.ttl - p.lag
  }

  ghost predicate Unsafe(p: Params) {
    exists gap: real :: CanOutlive(p, gap)
  }

  // ----- the invariant -----

  /** A running worker's view of the key is exact, and its deadline lies before the expiry. */
  ghost predicate WorkerOk(p: Params, s: State, t: nat)
    requires t in s.leases
  {
    match s.leases[t]
    case Waiting(effect) =>
      s.key == Some(Key(t, effect + p.ttl)) && effect <= s.now <= effect + p.lag
    case Working(effect, lastOk, cycleStart) =>
      && s.key == Some(Key(t, effect + p.ttl))
      && effect <= s.now && lastOk <= s.now && lastOk - effect <= p.lag
      && Schedulable(p, cycleStart - lastOk)
      && (cycleStart == lastOk || cycleStart - lastOk + p.Cycle() < p.ttl)
      && s.now <= cycleStart + p.Cycle()
    case Committing(_, _) => true
    case Leaving => true
  }

  ghost predicate Inv(p: Params, s: State) {
    && (forall t :: t in s.leases ==> t < s.next && WorkerOk(p, s, t))
    && (s.key.Some? ==> s.key.value.token < s.next)
  }

  lemma {:induction false} TimesSum(k: nat, x: real, y: real)
    ensures x <= y ==> Times(k, x) <= Times(k, y)
  {
    if k > 0 { TimesSum(k - 1, x, y); }
  }

  lemma ZeroGap(p: Params)
    ensures Schedulable(p, 0.0)
  {
    assert Times(0, p.refresh) <= 0.0 <= Times(0, p.Cycle());
  }

  lemma NextGap(p: Params, gap: real, step: real)
    requires Schedulable(p, gap) && p.refresh <= step <= p.Cycle()
    ensures Schedulable(p, gap + step)
  {
    var k: nat :| Times(k, p.refresh) <= gap <= Times(k, p.Cycle());
    assert Times(k + 1, p.refresh) <= gap + step <= Times(k + 1, p.Cycle());
  }

  /** The worker relies on the key. */
  predicate Relying(s: State, t: nat) {
    t in s.leases && (s.leases[t].Waiting? || s.leases[t].Working?)
  }

  /** Away from the unsafe parameters, a worker inside the work holds an unexpired key. */
  lemma InsideIsHeld(p: Params, s: State, t: nat)
    requires p.Valid() && !Unsafe(p) && Inv(p, s) && Relying(s, t)
    ensures Held(s, t)
  {
    ZeroGap(p);
    assert !CanOutlive(p, 0.0);
    if s.leases[t].Working? {
      assert !CanOutlive(p, s.leases[t].cycleStart - s.leases[t].lastOk);
    }
  }

  /** A worker whose refresh fails and who goes on has checked early enough. */
  lemma FailedRefresh(p: Params, s: State, t: nat)
    requires p.Valid() && !Unsafe(p) && Inv(p, s) && Apply(p, s, RefreshFails(t)).Some?
    ensures WorkerOk(p, Apply(p, s, RefreshFails(t)).value, t)
  {
    assert WorkerOk(p, s, t);
    NextGap(p, s.leases[t].cycleStart - s.leases[t].lastOk, s.now - s.leases[t].cycleStart);
    assert s.leases[t].cycleStart - s.leases[t].lastOk + (s.now - s.leases[t].cycleStart) == s.now - s.leases[t].lastOk;
  }

  /** Another worker's step leaves a worker as it was, since its key is held. */
  lemma OthersStep(p: Params, s: State, e: Event, u: nat)
    requires Inv(p, s) && Apply(p, s, e).Some? && !e.Tick? && u in s.leases && (e.Acquire? || e.t != u)
    requires Relying(s, u) ==> Held(s, u)
    ensures u in Apply(p, s, e).value.leases && WorkerOk(p, Apply(p, s, e).value, u)
  {
    assert WorkerOk(p, s, u);
  }

  lemma OwnStep(p: Params, s: State, e: Event, u: nat)
    requires p.Valid() && !Unsafe(p) && Inv(p, s) && Apply(p, s, e).Some? && !e.Tick? && !e.Acquire? && e.t == u
    requires u in Apply(p, s, e).value.leases
    ensures WorkerOk(p, Apply(p, s, e).value, u)
  {
    assert WorkerOk(p, s, u);
    if e.RefreshFails? { FailedRefresh(p, s, u); } else { ZeroGap(p); }
  }

  /** One worker after one step: if it was already there and still matters, it held the key. */
  lemma WorkerStep(p: Params, s: State, e: Event, u: nat)
    requires p.Valid() && !Unsafe(p) && Inv(p, s) && Apply(p, s, e).Some?
    requires u in Apply(p, s, e).value.leases
    ensures u < Apply(p, s, e).value.next && WorkerOk(p, Apply(p, s, e).value, u)
  {
    if Relying(s, u) { InsideIsHeld(p, s, u); }
    if e.Tick? {
      assert WorkerOk(p, s, u);
    } else if u in s.leases {
      if !e.Acquire? && e.t == u { OwnStep(p, s, e, u); } else { OthersStep(p, s, e, u); }
    }
  }

  lemma InvStep(p: Params, s: State, e: Event)
    requires p.Valid() && !Unsafe(p) && Inv(p, s) && Apply(p, s, e).Some?
    ensures Inv(p, Apply(p, s, e).value)
  {
    var s' := Apply(p, s, e).value;
    forall u | u in s'.leases ensures u < s'.next && WorkerOk(p, s', u) { WorkerStep(p, s, e, u); }
  }

  lemma {:induction false} InvRun(p: Params, s: State, es: seq<Event>)
    requires p.Valid() && !Unsafe(p) && Inv(p, s) && Run(p, s, es).Some?
    ensures Inv(p, Run(p, s, es).value)
    decreases |es|
  {
    if es != [] {
      InvStep(p, s, es[0]);
      InvRun(p, Apply(p, s, es[0]).value, es[1..]);
    }
  }

  /** In every reachable state a worker inside the work holds the unexpired key, so there is
      at most one, and no other client's command has touched the key. */
  lemma HeldThroughout(p: Params, es: seq<Event>)
    requires p.Valid() && !Unsafe(p) && Run(p, Init, es).Some?
    ensures forall t :: Inside(Run(p, Init, es).value, t) ==> Held(Run(p, Init, es).value, t)
    ensures Exclusive(Run(p, Init, es).value)
  {
    InvRun(p, Init, es);
    var s := Run(p, Init, es).value;
    forall t | Inside(s, t) ensures Held(s, t) { InsideIsHeld(p, s, t); }
  }

  // ----- the converse: a run that breaks exclusion for every unsafe parameter choice -----

  lemma {:induction false} RunAppend(p: Params, s: State, es: seq<Event>, fs: seq<Event>)
    requires Run(p, s, es).Some?
    ensures Run(p, s, es + fs) == Run(p, Run(p, s, es).value, fs)
    decreases |es|
  {
    if es == [] {
      assert es + fs == fs;
    } else {
      RunAppend(p, Apply(p, s, es[0]).value, es[1..], fs);
      assert (es + fs)[0] == es[0] && (es + fs)[1..] == es[1..] + fs;
    }
  }

  /** Worker `t` acquired at time 0, started at time `lag` and has been failing to refresh for
      `gap` ever since. */
  function Failing(p: Params, t: nat, gap: real): State {
    State(p.lag + gap, Some(Key(t, p.ttl)), map[t := Working(0.0, p.lag, p.lag + gap)], t + 1)
  }

  /** One more failed cycle of length `step`. */
  lemma FailOnce(p: Params, t: nat, gap: real, step: real)
    requires p.Valid() && p.refresh <= step <= p.Cycle() && gap + step + p.Cycle() < p.ttl
    ensures Run(p, Failing(p, t, gap), [Tick(p.lag + gap + step), RefreshFails(t)]) == Some(Failing(p, t, gap + step))
  {
    var s := Failing(p, t, gap);
    var mid := s.(now := p.lag + gap + step);
    assert Apply(p, s, Tick(p.lag + gap + step)) == Some(mid);
    assert Apply(p, mid, RefreshFails(t)) == Some(Failing(p, t, gap + step)) by {
      assert s.leases[t := Working(0.0, p.lag, p.lag + gap + step)] == Failing(p, t, gap + step).leases;
    }
    var es := [Tick(p.lag + gap + step), RefreshFails(t)];
    assert es[1..] == [RefreshFails(t)] && es[1..][1..] == [];
    assert Run(p, mid, es[1..]) == Run(p, Failing(p, t, gap + step), []);
  }

  lemma {:induction false} FailFor(p: Params, t: nat, k: nat, gap: real) returns (es: seq<Event>)
    requires p.Valid() && Times(k, p.refresh) <= gap <= Times(k, p.Cycle())
    requires k == 0 || gap + p.Cycle() < p.ttl
    ensures Run(p, Failing(p, t, 0.0), es) == Some(Failing(p, t, gap))
    ensures forall i :: 0 <= i < |es| ==> es[i].Tick? || es[i].RefreshFails?
    decreases k
  {
    if k == 0 {
      es := [];
    } else {
      var most := gap - Times(k - 1, p.Cycle());
      var step := if most > p.refresh then most else p.refresh;
      TimesSum(k - 1, p.refresh, p.Cycle());
      es := FailFor(p, t, k - 1, gap - step);
      FailOnce(p, t, gap - step, step);
      RunAppend(p, Failing(p, t, 0.0), es, [Tick(p.lag + (gap - step) + step), RefreshFails(t)]);
      es := es + [Tick(p.lag + (gap - step) + step), RefreshFails(t)];
      assert gap - step + step == gap;
    }
  }

  /** Worker `t` can have been failing for `gap`. */
  lemma CanFailFor(p: Params, t: nat, gap: real) returns (es: seq<Event>)
    requires p.Valid() && Schedulable(p, gap) && (gap == 0.0 || gap + p.Cycle() < p.ttl)
    ensures gap >= 0.0 && Run(p, Failing(p, t, 0.0), es) == Some(Failing(p, t, gap))
    ensures forall i :: 0 <= i < |es| ==> es[i].Tick? || es[i].RefreshFails?
  {
    var k: nat :| Times(k, p.refresh) <= gap <= Times(k, p.Cycle());
    TimesSum(k, 0.0, p.refresh);
    TimesZero(k);
    es := FailFor(p, t, if gap == 0.0 then 0 else k, gap);
  }

  /** From there a second worker acquires the expired key and both are inside. */
  lemma Overtake(p: Params, gap: real) returns (es: seq<Event>)
    requires p.Valid() && gap >= 0.0 && gap + p.Cycle() >= p.ttl - p.lag
    ensures Run(p, Failing(p, 0, gap), es).Some? && !Exclusive(Run(p, Failing(p, 0, gap), es).value)
  {
    var s := Failing(p, 0, gap);
    var at := if p.ttl > s.now then p.ttl else s.now;
    var s1 := s.(now := at);
    var s2 := State(at, Some(Key(1, at + p.ttl)), s.leases[1 := Waiting(at)], 2);
    var s3 := s2.(leases := s2.leases[1 := Working(at, at, at)]);
    assert Apply(p, s, Tick(at)) == Some(s1) && Apply(p, s1, Acquire) == Some(s2) && Apply(p, s2, Start(1)) == Some(s3);
    es := [Tick(at), Acquire, Start(1)];
    assert es[1..] == [Acquire, Start(1)] && es[1..][1..] == [Start(1)] && es[1..][1..][1..] == [];
    assert Run(p, s1, es[1..]) == Run(p, s2, es[1..][1..]) == Run(p, s3, []);
    assert Inside(s3, 0) && Inside(s3, 1);
  }

  /** A run in which worker 0 starts and then fails to refresh for `gap`. */
  lemma Reach(p: Params, gap: real) returns (es: seq<Event>)
    requires p.Valid() && Schedulable(p, gap) && (gap == 0.0 || gap + p.Cycle() < p.ttl)
    ensures gap >= 0.0 && Run(p, Init, es) == Some(Failing(p, 0, gap))
  {
    var fails := CanFailFor(p, 0, gap);
    var first := [Acquire, Tick(p.lag), Start(0)];
    var s1 := State(0.0, Some(Key(0, p.ttl)), map[0 := Waiting(0.0)], 1);
    var s2 := s1.(now := p.lag);
    assert Apply(p, Init, Acquire) == Some(s1) && Apply(p, s1, Tick(p.lag)) == Some(s2);
    assert Apply(p, s2, Start(0)) == Some(Failing(p, 0, 0.0)) by {
      assert s2.leases[0 := Working(0.0, p.lag, p.lag)] == Failing(p, 0, 0.0).leases;
    }
    assert first[1..] == [Tick(p.lag), Start(0)] && first[1..][1..] == [Start(0)] && first[1..][1..][1..] == [];
    assert Run(p, s1, first[1..]) == Run(p, s2, first[1..][1..]) == Run(p, Failing(p, 0, 0.0), []);
    RunAppend(p, Init, first, fails);
    es := first + fails;
  }

  lemma Breaks(p: Params, gap: real)
    requires p.Valid() && CanOutlive(p, gap)
    ensures !AlwaysExclusive(p)
  {
    var first := Reach(p, gap);
    var last := Overtake(p, gap);
    RunAppend(p, Init, first, last);
    assert Run(p, Init, first + last) == Run(p, Failing(p, 0, gap), last);
  }

  lemma {:induction false} TimesZero(k: nat)
    ensures Times(k, 0.0) == 0.0
  {
    if k > 0 { TimesZero(k - 1); }
  }

  /** Mutual exclusion over all runs holds exactly for the parameters that are not unsafe. */
  lemma ExclusionIff(p: Params)
    requires p.Valid()
    ensures AlwaysExclusive(p) <==> !Unsafe(p)
  {
    if Unsafe(p) {
      var gap: real :| CanOutlive(p, gap);
      Breaks(p, gap);
    } else {
      forall es: seq<Event> | Run(p, Init, es).Some? ensures Exclusive(Run(p, Init, es).value) {
        HeldThroughout(p, es);
      }
    }
  }

  /** When `last_ok` is stamped at the instant the command takes effect, the condition is
      exactly that one heartbeat cycle fits in the ttl. */
  lemma ExclusionWithoutLag(p: Params)
    requires p.Valid() && p.lag == 0.0
    ensures AlwaysExclusive(p) <==> p.refresh + p.timeout < p.ttl
  {
    ExclusionIff(p);
    ZeroGap(p);
    if p.Cycle() >= p.ttl { assert CanOutlive(p, 0.0); }
  }

  /** Worker 0 has been working since time 0 and has just refreshed for the `n`-th time. */
  function Refreshed(p: Params, n: nat): State {
    var at := Times(n, p.refresh);
    State(at, Some(Key(0, at + p.ttl)), map[0 := Working(at, at, at)], 1)
  }

  lemma RefreshOnce(p: Params, n: nat)
    requires p.Valid() && p.refresh < p.ttl
    ensures Run(p, Refreshed(p, n), [Tick(Times(n + 1, p.refresh)), RefreshLands(0), RefreshOk(0)])
         == Some(Refreshed(p, n + 1))
  {
    var s, at := Refreshed(p, n), Times(n + 1, p.refresh);
    var es := [Tick(at), RefreshLands(0), RefreshOk(0)];
    var s1 := s.(now := at);
    assert Apply(p, s, Tick(at)) == Some(s1);
    var s2 := State(at, Some(Key(0, at + p.ttl)), map[0 := Working(at, at - p.refresh, at - p.refresh)], 1);
    assert s1.leases[0 := Working(at, at - p.refresh, at - p.refresh)] == s2.leases;
    assert Apply(p, s1, RefreshLands(0)) == Some(s2);
    assert s2.leases[0 := Working(at, at, at)] == Refreshed(p, n + 1).leases;
    assert Apply(p, s2, RefreshOk(0)) == Some(Refreshed(p, n + 1));
    assert es[1..] == [RefreshLands(0), RefreshOk(0)] && es[1..][1..] == [RefreshOk(0)] && es[1..][1..][1..] == [];
    assert Run(p, s1, es[1..]) == Run(p, s2, es[1..][1..]) == Run(p, Refreshed(p, n + 1), []);
  }

  /** A worker whose refreshes succeed works for as long as it likes: after `n` refresh intervals it is
      inside and holds a key good for a whole ttl. */
  lemma {:induction false} RefreshKeepsWorking(p: Params, n: nat) returns (es: seq<Event>)
    requires p.Valid() && p.refresh < p.ttl
    ensures Run(p, Init, es).Some?
    ensures var s := Run(p, Init, es).value;
            s.now == Times(n, p.refresh) && Inside(s, 0) && s.key == Some(Key(0, s.now + p.ttl)) && Held(s, 0)
    ensures Run(p, Init, es) == Some(Refreshed(p, n))
    decreases n
  {
    if n == 0 {
      es := [Acquire, Start(0)];
      var s1 := State(0.0, Some(Key(0, p.ttl)), map[0 := Waiting(0.0)], 1);
      assert Apply(p, Init, Acquire) == Some(s1);
      assert s1.leases[0 := Working(0.0, 0.0, 0.0)] == Refreshed(p, 0).leases;
      assert Apply(p, s1, Start(0)) == Some(Refreshed(p, 0));
      assert es[1..] == [Start(0)] && es[1..][1..] == [];
      assert Run(p, s1, es[1..]) == Run(p, Refreshed(p, 0), []);
    } else {
      es := RefreshKeepsWorking(p, n - 1);
      RefreshOnce(p, n - 1);
      var more := [Tick(Times(n, p.refresh)), RefreshLands(0), RefreshOk(0)];
      RunAppend(p, Init, es, more);
      es := es + more;
    }
  }

  /** A worker that is done gives the key back at once if it is still its own, so that the next one can
      take it without waiting for the expiry, and leaves anybody else's key alone. */
  lemma ReleaseFrees(p: Params, s: State, t: nat)
    requires p.Valid() && t in s.leases && s.leases[t].Leaving?
    ensures Apply(p, s, Release(t)).Some?
    ensures var r := Apply(p, s, Release(t)).value;
            && t !in r.leases && r.now == s.now
            && (Held(s, t) ==> !Leased(r) && Run(p, s, [Release(t), Acquire]).Some?
                               && Held(Run(p, s, [Release(t), Acquire]).value, s.next))
            && (!Held(s, t) ==> r.key == s.key)
  {
    var es := [Release(t), Acquire];
    var r := Apply(p, s, Release(t)).value;
    assert es[1..] == [Acquire] && es[1..][1..] == [];
    assert Run(p, s, es) == Run(p, r, es[1..]);
    assert Run(p, r, es[1..]) == Run(p, Apply(p, r, Acquire).value, []);
  }

  /** A refresh is confirmed exactly while the key is the worker's own: otherwise it cannot land, and
      the worker learns of the loss and ends its work. */
  lemma LossIsNoticed(p: Params, s: State, t: nat)
    requires CheckDue(p, s, t)
    ensures Apply(p, s, RefreshLands(t)).Some? <==> Held(s, t)
    ensures Apply(p, s, RefreshLost(t)).Some? <==> !Held(s, t)
    ensures Held(s, t) ==> Apply(p, s, RefreshLands(t)).value.key == Some(Key(t, s.now + p.ttl))
    ensures !Held(s, t) ==> !Inside(Apply(p, s, RefreshLost(t)).value, t)
    ensures Apply(p, s, RefreshFails(t)).Some?
    ensures Inside(Apply(p, s, RefreshFails(t)).value, t) <==>
              s.now - s.leases[t].lastOk + p.refresh + p.timeout < p.ttl
  {
  }

  /** With the constants of lease.py any positive delay, however small, can break exclusion:
      two cycles can end just short of ttl - 7000 ms and the next check comes just before the ttl,
      which counts from the reply and not from the instant the key was set. */
  lemma DefaultsNeedNoLag(lag: real, commit: real)
    requires lag >= 0.0 && commit >= 0.0
    ensures AlwaysExclusive(Defaults(lag, commit)) <==> lag == 0.0
  {
    var p := Defaults(lag, commit);
    ExclusionIff(p);
    ExclusionWithoutLag(Defaults(0.0, commit));
    if lag > 0.0 {
      var gap := CloseGap(p, lag);
      assert CanOutlive(p, gap);
    }
  }

  /** Two failing cycles that end less than `slack` before ttl - 7000 ms. */
  lemma CloseGap(p: Params, slack: real) returns (gap: real)
    requires p == Defaults(p.lag, p.commit) && slack > 0.0
    ensures Schedulable(p, gap) && gap + p.Cycle() < p.ttl && gap + p.Cycle() >= p.ttl - slack
  {
    gap := if slack < 1000.0 then 13000.0 - slack else 12000.0;
    assert Times(1, p.refresh) == p.refresh && Times(1, p.Cycle()) == p.Cycle();
    assert Times(2, p.refresh) <= gap <= Times(2, p.Cycle());
  }

  // ----- until the last commit has landed -----

  predicate Acting(s: State, t: nat) {
    t in s.leases && (s.leases[t].Working? || s.leases[t].Committing?)
  }

  /** No run has two workers between the start of the work and their last commit. */
  ghost predicate AlwaysAlone(p: Params) {
    forall es: seq<Event>, t, u ::
      Run(p, Init, es).Some? && Acting(Run(p, Init, es).value, t) && Acting(Run(p, Init, es).value, u) ==> t == u
  }

  /** The last commit can land when the key has expired: the work ends at the very end of the
      last heartbeat cycle, after the heartbeat has been failing for `gap`. */
  ghost predicate CanLandLate(p: Params, gap: real) {
    && Schedulable(p, gap)
    && (gap == 0.0 || gap + p.Cycle() < p.ttl)
    && gap + p.Cycle() + p.commit >= p.ttl - p.lag
  }

  ghost predicate LandsLate(p: Params) {
    exists gap: real :: CanLandLate(p, gap)
  }

  lemma LateCoversUnsafe(p: Params)
    requires p.Valid() && !LandsLate(p)
    ensures !Unsafe(p)
  {
    forall gap: real ensures !CanOutlive(p, gap) { assert !CanLandLate(p, gap); }
  }

  /** A worker that has ended its work will have committed before its key expires. */
  ghost predicate CommitOk(p: Params, s: State, t: nat) {
    t in s.leases && s.leases[t].Committing? ==>
      && s.key == Some(Key(t, s.leases[t].effect + p.ttl))
      && s.now <= s.leases[t].since + p.commit < s.leases[t].effect + p.ttl
  }

  ghost predicate AloneInv(p: Params, s: State) {
    Inv(p, s) && forall t {:trigger CommitOk(p, s, t)} :: CommitOk(p, s, t)
  }

  lemma ActingIsHeld(p: Params, s: State, t: nat)
    requires p.Valid() && !LandsLate(p) && AloneInv(p, s) && (Acting(s, t) || Relying(s, t))
    ensures Held(s, t)
  {
    LateCoversUnsafe(p);
    if s.leases[t].Committing? { assert CommitOk(p, s, t); } else { InsideIsHeld(p, s, t); }
  }

  lemma EndsInTime(p: Params, s: State, t: nat)
    requires p.Valid() && !LandsLate(p) && Inv(p, s) && Inside(s, t)
    ensures s.now + p.commit < s.leases[t].effect + p.ttl
  {
    assert WorkerOk(p, s, t);
    assert !CanLandLate(p, s.leases[t].cycleStart - s.leases[t].lastOk);
  }

  lemma CommitStep(p: Params, s: State, e: Event, u: nat)
    requires p.Valid() && !LandsLate(p) && AloneInv(p, s) && Apply(p, s, e).Some?
    ensures CommitOk(p, Apply(p, s, e).value, u)
  {
    assert CommitOk(p, s, u);
    if u in s.leases && s.leases[u].Committing? { ActingIsHeld(p, s, u); }
    if e == Finish(u) {
      assert WorkerOk(p, s, u);
      EndsInTime(p, s, u);
    }
  }

  lemma AloneStep(p: Params, s: State, e: Event)
    requires p.Valid() && !LandsLate(p) && AloneInv(p, s) && Apply(p, s, e).Some?
    ensures AloneInv(p, Apply(p, s, e).value)
  {
    LateCoversUnsafe(p);
    InvStep(p, s, e);
    var s' := Apply(p, s, e).value;
    forall u {:trigger CommitOk(p, s', u)} ensures CommitOk(p, s', u) { CommitStep(p, s, e, u); }
  }

  lemma {:induction false} AloneRun(p: Params, s: State, es: seq<Event>)
    requires p.Valid() && !LandsLate(p) && AloneInv(p, s) && Run(p, s, es).Some?
    ensures AloneInv(p, Run(p, s, es).value)
    decreases |es|
  {
    if es != [] {
      AloneStep(p, s, es[0]);
      AloneRun(p, Apply(p, s, es[0]).value, es[1..]);
    }
  }

  /** Worker `t` has ended its work at the end of its last cycle. */
  function Ended(p: Params, t: nat, gap: real): State {
    var at := p.lag + gap + p.Cycle();
    State(at, Some(Key(t, p.ttl)), map[t := Committing(0.0, at)], t + 1)
  }

  /** The rest of a run in which a second worker starts before the first one's commit. */
  lemma CommitLate(p: Params, gap: real) returns (es: seq<Event>)
    requires p.Valid() && gap >= 0.0 && CanLandLate(p, gap)
    ensures Run(p, Ended(p, 0, gap), es).Some?
    ensures Acting(Run(p, Ended(p, 0, gap), es).value, 0) && Acting(Run(p, Ended(p, 0, gap), es).value, 1)
  {
    var s := Ended(p, 0, gap);
    var at := if p.ttl > s.now then p.ttl else s.now;
    var s1 := s.(now := at);
    var s2 := State(at, Some(Key(1, at + p.ttl)), s.leases[1 := Waiting(at)], 2);
    var s3 := s2.(leases := s2.leases[1 := Working(at, at, at)]);
    assert Apply(p, s, Tick(at)) == Some(s1) && Apply(p, s1, Acquire) == Some(s2) && Apply(p, s2, Start(1)) == Some(s3);
    es := [Tick(at), Acquire, Start(1)];
    assert es[1..] == [Acquire, Start(1)] && es[1..][1..] == [Start(1)] && es[1..][1..][1..] == [];
    assert Run(p, s1, es[1..]) == Run(p, s2, es[1..][1..]) == Run(p, s3, []);
  }

  lemma Ending(p: Params, gap: real)
    requires p.Valid() && gap >= 0.0
    ensures Run(p, Failing(p, 0, gap), [Tick(p.lag + gap + p.Cycle()), Finish(0)]) == Some(Ended(p, 0, gap))
  {
    var s := Failing(p, 0, gap);
    var mid := s.(now := p.lag + gap + p.Cycle());
    assert Apply(p, s, Tick(mid.now)) == Some(mid);
    assert Apply(p, mid, Finish(0)) == Some(Ended(p, 0, gap)) by {
      assert mid.leases[0 := Committing(0.0, mid.now)] == Ended(p, 0, gap).leases;
    }
    var es := [Tick(mid.now), Finish(0)];
    assert es[1..] == [Finish(0)] && es[1..][1..] == [];
    assert Run(p, mid, es[1..]) == Run(p, Ended(p, 0, gap), []);
  }

  /** Exclusion up to and including the last commit holds exactly for the parameters under which
      that commit cannot land late. */
  lemma AloneIff(p: Params)
    requires p.Valid()
    ensures AlwaysAlone(p) <==> !LandsLate(p)
  {
    if LandsLate(p) {
      var gap: real :| CanLandLate(p, gap);
      var first := Reach(p, gap);
      Ending(p, gap);
      var end := [Tick(p.lag + gap + p.Cycle()), Finish(0)];
      var last := CommitLate(p, gap);
      RunAppend(p, Init, first, end);
      RunAppend(p, Init, first + end, last);
      var s := Run(p, Init, first + end + last).value;
      assert Acting(s, 0) && Acting(s, 1);
    } else {
      forall es: seq<Event>, t, u
        | Run(p, Init, es).Some? && Acting(Run(p, Init, es).value, t) && Acting(Run(p, Init, es).value, u)
        ensures t == u
      {
        AloneRun(p, Init, es);
        ActingIsHeld(p, Run(p, Init, es).value, t);
        ActingIsHeld(p, Run(p, Init, es).value, u);
      }
    }
  }

  /** With the constants of lease.py the last commit must follow the end of the work, and every
      stamp its command, in no time at all. */
  lemma DefaultsNeedInstantCommit(lag: real, commit: real)
    requires lag >= 0.0 && commit >= 0.0
    ensures AlwaysAlone(Defaults(lag, commit)) <==> lag == 0.0 && commit == 0.0
  {
    var p := Defaults(lag, commit);
    AloneIff(p);
    if lag + commit > 0.0 {
      var gap := CloseGap(p, lag + commit);
      assert CanLandLate(p, gap);
    } else {
      forall gap: real ensures !CanLandLate(p, gap) {}
    }
  }
}
