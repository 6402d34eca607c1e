/**
 The per-provider circuit breaker of services/model-gateway/model_gateway/routing/circuit_breaker.py
 and how hard a provider that never answers can be hit through it.
 */
module Breaker {
  import opened Options

  datatype Config = Config(threshold: nat, cooldown: real)

  /** One provider: failures in a row, and when the circuit opened. */
  datatype Health = Health(failures: nat, openedAt: Option<real>)

  const NEW := Health(0, None)

  predicate Sane(cfg: Config) {
    1 <= cfg.threshold && 0.0 < cfg.cooldown
  }

  /** The circuit is open exactly when the threshold is reached. */
  predicate Ok(cfg: Config, h: Health) {
    h.openedAt.Some? <==> h.failures >= cfg.threshold
  }

  /** `None`: refused, the circuit is open. */
  function Admitted(cfg: Config, h: Health, now: real): Option<Health> {
    if h.openedAt.None? then Some(h)
    else if now - h.openedAt.value < cfg.cooldown then None
    else Some(NEW)
  }

  function Failed(cfg: Config, h: Health, now: real): Health {
    Health(h.failures + 1, if h.failures + 1 >= cfg.threshold && h.openedAt.None? then Some(now) else h.openedAt)
  }

  class CircuitBreaker {
    const cfg: Config
    var state: map<string, Health>

    ghost predicate Valid()
      reads this
    {
      Sane(cfg) && forall p :: p in state ==> Ok(cfg, state[p])
    }

    ghost function Of(provider: string): Health
      reads this
    {
      if provider in state then state[provider] else NEW
    }

    constructor (cfg: Config)
      requires Sane(cfg)
      ensures Valid() && this.cfg == cfg && forall p :: Of(p) == NEW
    {
      this.cfg, state := cfg, map[];
    }

    /** `setdefault`: a provider not seen before is healthy. */
    method Get(provider: string) returns (h: Health)
      requires Valid()
      modifies `state
      ensures Valid() && h == Of(provider) && provider in state && state[provider] == h
      ensures forall p :: Of(p) == old(Of(p))
    {
      if provider !in state {
        state := state[provider := NEW];
      }
      h := state[provider];
    }

    /** Refuses with the time left while the circuit is open; after the cooldown lets one call through. */
    method BeforeCall(provider: string, now: real) returns (retryAfter: Option<real>)
      requires Valid()
      modifies `state
      ensures Valid() && forall p :: p != provider ==> Of(p) == old(Of(p))
      ensures var h := old(Of(provider));
              && (retryAfter.Some? <==> h.openedAt.Some? && now - h.openedAt.value < cfg.cooldown)
              && (retryAfter.Some? ==> retryAfter.value == h.openedAt.value + cfg.cooldown - now > 0.0)
              && (retryAfter.Some? ==> Of(provider) == h)
              && (retryAfter.None? ==> Of(provider) == if h.openedAt.Some? then Health(0, None) else h)
      ensures Admitted(cfg, old(Of(provider)), now) == if retryAfter.Some? then None else Some(Of(provider))
    {
      var h := Get(provider);
      if h.openedAt == None {
        return None;
      }
      var elapsed := now - h.openedAt.value;
      if elapsed < cfg.cooldown {
        return Some(cfg.cooldown - elapsed);
      }
      state := state[provider := Health(0, None)];
      retryAfter := None;
    }

    method RecordSuccess(provider: string)
      requires Valid()
      modifies `state
      ensures Valid() && Of(provider) == Health(0, None) && forall p :: p != provider ==> Of(p) == old(Of(p))
    {
      var _ := Get(provider);
      state := state[provider := Health(0, None)];
    }

    method RecordFailure(provider: string, now: real)
      requires Valid()
      modifies `state
      ensures Valid() && Of(provider) == Failed(cfg, old(Of(provider)), now)
      ensures var h := old(Of(provider));
              && Of(provider).failures == h.failures + 1
              && Of(provider).openedAt == if h.failures + 1 == cfg.threshold then Some(now) else h.openedAt
      ensures forall p :: p != provider ==> Of(p) == old(Of(p))
    {
      var h := Get(provider);
      h := h.(failures := h.failures + 1);
      if h.failures >= cfg.threshold && h.openedAt == None {
        h := h.(openedAt := Some(now));
      }
      state := state[provider := h];
    }
  }

  // ----- sequential calls without a success -----

  /** A call asks at `at` and, if let through, fails at `end`; a permanent rejection is not counted. */
  datatype Call = Call(at: real, end: real, counted: bool)

  ghost predicate Sequential(cs: seq<Call>) {
    && (forall i :: 0 <= i < |cs| ==> cs[i].at <= cs[i].end)
    && (forall i, j :: 0 <= i < j < |cs| ==> cs[i].end <= cs[j].at)
  }

  /** The breaker after the calls, and the times of the failures it counted. */
  function Play(cfg: Config, h: Health, cs: seq<Call>): (Health, seq<real>) {
    if cs == [] then (h, [])
    else
      var (g, fs) := Play(cfg, h, cs[..|cs| - 1]);
      var c := cs[|cs| - 1];
      match Admitted(cfg, g, c.at)
      case None => (g, fs)
      case Some(a) => if c.counted then (Failed(cfg, a, c.end), fs + [c.end]) else (a, fs)
  }

  ghost predicate Sorted(fs: seq<real>) {
    forall i, j :: 0 <= i < j < |fs| ==> fs[i] <= fs[j]
  }

  ghost predicate Ordered(fs: seq<real>, now: real) {
    Sorted(fs) && forall i :: 0 <= i < |fs| ==> fs[i] <= now
  }

  /** Failures `threshold` apart are a cooldown apart. */
  ghost predicate Spaced(cfg: Config, fs: seq<real>) {
    forall i, j :: 0 <= i && j == i + cfg.threshold && j < |fs| ==> fs[i] + cfg.cooldown <= fs[j]
  }

  /** If the circuit is open the last failure opened it; failures before the current streak are a
      cooldown old. */
  ghost predicate Tracks(cfg: Config, h: Health, fs: seq<real>, now: real) {
    && Ok(cfg, h) && Ordered(fs, now) && Spaced(cfg, fs)
    && (h.openedAt.Some? && fs != [] ==> h.openedAt.value == fs[|fs| - 1])
    && (forall i :: 0 <= i < |fs| - h.failures ==> fs[i] + cfg.cooldown <= now)
  }

  lemma AdmitTracks(cfg: Config, h: Health, fs: seq<real>, was: real, now: real)
    requires Sane(cfg) && Tracks(cfg, h, fs, was) && was <= now && Admitted(cfg, h, now).Some?
    ensures Tracks(cfg, Admitted(cfg, h, now).value, fs, now) && Admitted(cfg, h, now).value.openedAt.None?
  {
  }

  lemma FailTracks(cfg: Config, h: Health, fs: seq<real>, was: real, now: real)
    requires Sane(cfg) && Tracks(cfg, h, fs, was) && h.openedAt.None? && was <= now
    ensures Tracks(cfg, Failed(cfg, h, now), fs + [now], now)
  {
    var gs := fs + [now];
    forall i, j | 0 <= i && j == i + cfg.threshold && j < |gs| ensures gs[i] + cfg.cooldown <= gs[j] {
      if j == |fs| { assert fs[i] + cfg.cooldown <= was; }
    }
  }

  lemma {:induction false} PlayTracks(cfg: Config, h: Health, cs: seq<Call>, now: real)
    requires Sane(cfg) && Ok(cfg, h) && Sequential(cs) && forall i :: 0 <= i < |cs| ==> cs[i].end <= now
    ensures Tracks(cfg, Play(cfg, h, cs).0, Play(cfg, h, cs).1, now)
  {
    if cs != [] {
      var c := cs[|cs| - 1];
      PlayTracks(cfg, h, cs[..|cs| - 1], c.at);
      var (g, fs) := Play(cfg, h, cs[..|cs| - 1]);
      if Admitted(cfg, g, c.at).Some? {
        AdmitTracks(cfg, g, fs, c.at, c.at);
        if c.counted { FailTracks(cfg, Admitted(cfg, g, c.at).value, fs, c.at, c.end); }
      }
    }
  }

  // ----- and what it lets through -----

  lemma {:induction false} StaysOpenSince(cfg: Config, h: Health, cs: seq<Call>)
    requires Sane(cfg) && Ok(cfg, h)
    ensures Play(cfg, h, cs).1 == [] ==>
              Play(cfg, h, cs).0.openedAt == h.openedAt || Play(cfg, h, cs).0.openedAt.None?
  {
    if cs != [] { StaysOpenSince(cfg, h, cs[..|cs| - 1]); }
  }

  lemma PlayLast(cfg: Config, h: Health, cs: seq<Call>, c: Call)
    ensures Play(cfg, h, cs + [c]) ==
            var (g, fs) := Play(cfg, h, cs);
            match Admitted(cfg, g, c.at)
            case None => (g, fs)
            case Some(a) => if c.counted then (Failed(cfg, a, c.end), fs + [c.end]) else (a, fs)
  {
    assert (cs + [c])[..|cs + [c]| - 1] == cs;
  }

  lemma Earlier(cs: seq<Call>, c: Call)
    requires Sequential(cs + [c])
    ensures Sequential(cs) && forall i :: 0 <= i < |cs| ==> cs[i].end <= c.at
  {
    var all := cs + [c];
    assert all[|cs|] == c;
    assert forall i :: 0 <= i < |cs| ==> all[i] == cs[i];
  }

  /** A call that asks at least one cooldown after the last counted failure, and after the circuit
      opened if it was open to begin with, is let through: its own failure is counted. */
  lemma ProbeIsLetThrough(cfg: Config, h: Health, cs: seq<Call>, c: Call)
    requires Sane(cfg) && Ok(cfg, h) && Sequential(cs + [c]) && c.counted
    requires var fs := Play(cfg, h, cs).1;
             if fs != [] then fs[|fs| - 1] + cfg.cooldown <= c.at
             else h.openedAt.Some? ==> h.openedAt.value + cfg.cooldown <= c.at
    ensures Play(cfg, h, cs + [c]).1 == Play(cfg, h, cs).1 + [c.end]
  {
    Earlier(cs, c);
    PlayTracks(cfg, h, cs, c.at);
    StaysOpenSince(cfg, h, cs);
    PlayLast(cfg, h, cs, c);
  }

  lemma {:induction false} FailuresSoFar(cfg: Config, cs: seq<Call>)
    requires Sane(cfg)
    ensures |Play(cfg, NEW, cs).1| < cfg.threshold ==>
              Play(cfg, NEW, cs).0 == Health(|Play(cfg, NEW, cs).1|, None)
  {
    if cs != [] { FailuresSoFar(cfg, cs[..|cs| - 1]); }
  }

  /** And so is every call to a new provider until `threshold` failures have been counted. */
  lemma FewFailuresLetThrough(cfg: Config, cs: seq<Call>, c: Call)
    requires Sane(cfg) && c.counted && |Play(cfg, NEW, cs).1| < cfg.threshold
    ensures Play(cfg, NEW, cs + [c]).1 == Play(cfg, NEW, cs).1 + [c.end]
  {
    FailuresSoFar(cfg, cs);
    PlayLast(cfg, NEW, cs, c);
  }

  lemma {:induction false} FarApart(cfg: Config, fs: seq<real>, i: nat, q: nat)
    requires Spaced(cfg, fs) && i + cfg.threshold * q < |fs|
    ensures fs[i] + q as real * cfg.cooldown <= fs[i + cfg.threshold * q]
  {
    if q > 0 {
      assert cfg.threshold * q == cfg.threshold * (q - 1) + cfg.threshold;
      FarApart(cfg, fs, i, q - 1);
      var m := i + cfg.threshold * (q - 1);
      assert fs[m] + cfg.cooldown <= fs[m + cfg.threshold];
      assert q as real * cfg.cooldown == (q - 1) as real * cfg.cooldown + cfg.cooldown;
    }
  }

  lemma PlaySpaces(cfg: Config, h: Health, cs: seq<Call>)
    requires Sane(cfg) && Ok(cfg, h) && Sequential(cs)
    ensures Sorted(Play(cfg, h, cs).1) && Spaced(cfg, Play(cfg, h, cs).1)
  {
    PlayTracks(cfg, h, cs, if cs == [] then 0.0 else cs[|cs| - 1].end);
  }

  lemma SpanHolds(cfg: Config, fs: seq<real>, i: nat, j: nat, t: real, q: nat, most: nat)
    requires Sorted(fs) && Spaced(cfg, fs) && i <= j < |fs| && fs[j] - fs[i] <= t
    requires t < q as real * cfg.cooldown && most == cfg.threshold * q
    ensures j - i + 1 <= most
  {
    if i + most <= j {
      FarApart(cfg, fs, i, q);
    }
  }

  lemma SpanBelow(t: real, cooldown: real, q: int)
    requires 0.0 <= t && 0.0 < cooldown && q == (t / cooldown).Floor + 1
    ensures 1 <= q && t < q as real * cooldown
  {
    var x := t / cooldown;
    assert x * cooldown == t && x < q as real;
  }

  /** How many cooldowns a span of length `t` touches at most. */
  function Cooldowns(cfg: Config, t: real): (q: nat)
    requires Sane(cfg) && 0.0 <= t
    ensures t < q as real * cfg.cooldown
  {
    var q := (t / cfg.cooldown).Floor + 1;
    SpanBelow(t, cfg.cooldown, q);
    q
  }

  lemma SpanIsBounded(cfg: Config, fs: seq<real>, i: nat, j: nat, t: real)
    requires Sane(cfg) && 0.0 <= t && Sorted(fs) && Spaced(cfg, fs) && i <= j < |fs| && fs[j] - fs[i] <= t
    ensures j - i + 1 <= cfg.threshold * Cooldowns(cfg, t)
  {
    var q := Cooldowns(cfg, t);
    SpanHolds(cfg, fs, i, j, t, q, cfg.threshold * q);
  }

  /** With sequential calls and no success, whatever the breaker's state to begin with, at most
      threshold * (floor(t / cooldown) + 1) counted failures fall into a span of length `t`. */
  lemma FailuresAreBounded(cfg: Config, h: Health, cs: seq<Call>, fs: seq<real>, i: nat, j: nat, t: real)
    requires Sane(cfg) && Ok(cfg, h) && Sequential(cs) && 0.0 <= t
    requires fs == Play(cfg, h, cs).1 && i <= j < |fs| && fs[j] - fs[i] <= t
    ensures j - i + 1 <= cfg.threshold * Cooldowns(cfg, t)
  {
    PlaySpaces(cfg, h, cs);
    SpanIsBounded(cfg, fs, i, j, t);
  }
}
