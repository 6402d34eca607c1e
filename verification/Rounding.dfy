/**
 When exactly the ledger column's rounding shows.  For the price of every request: billed <=
 committed holds over all runs if and only if the price is a whole number of halves of 10^-6 USD
 per token, committed <= ceiling if and only if it is whole, and both allowances of
 `MeteringProofs.SpendSafety` are reached, for any number of attempts.
 */
module Rounding {
  import opened Options
  import opened Budget
  import opened Metering
  import opened MeteringProofs
  import opened MeteringRuns

  function Times(n: nat, x: nat): nat {
    if n == 0 then 0 else Times(n - 1, x) + x
  }

  function Rows(n: nat, v: nat): seq<Row> {
    if n == 0 then [] else Rows(n - 1, v) + [Row(v, Failed)]
  }

  function Bills(n: nat, w: nat): seq<nat> {
    if n == 0 then [] else Bills(n - 1, w) + [w]
  }

  lemma {:induction false} RowTotals(n: nat, v: nat)
    ensures |Rows(n, v)| == n && SumCost(Rows(n, v)) == Times(n, v)
  {
    if n > 0 {
      RowTotals(n - 1, v);
      var rest := Rows(n - 1, v);
      assert Rows(n, v)[..n - 1] == rest;
    }
  }

  lemma {:induction false} BillTotals(n: nat, w: nat)
    ensures |Bills(n, w)| == n && Sum(Bills(n, w)) == Times(n, w)
  {
    if n > 0 {
      BillTotals(n - 1, w);
      SumAppend(Bills(n - 1, w), w);
    }
  }

  lemma Totals(n: nat, w: nat, v: nat)
    ensures |Rows(n, v)| == n && |Bills(n, w)| == n
    ensures SumCost(Rows(n, v)) == Times(n, v) && Sum(Bills(n, w)) == Times(n, w)
  {
    RowTotals(n, v);
    BillTotals(n, w);
  }

  lemma {:induction false} TimesGrows(m: nat, n: nat, x: nat)
    requires m <= n
    ensures Times(m, x) <= Times(n, x)
    decreases n
  {
    if m < n { TimesGrows(m, n - 1, x); }
  }

  // ----- a call all of whose attempts fail and are billed in full -----

  /** The policy allows `n` attempts of a request that costs at most `w` each. */
  ghost predicate Allows(cfg: Config, q: Policy, r: Request, w: nat, n: nat) {
    && WorstCase(r) == Some(w) && w > 0 && AtPrice(cfg, r) && r.maxOutputTokens == q.maxOutputTokens
    && 1 <= n <= cfg.maxAttempts && n <= q.maxCalls && n - 1 <= q.maxRetries && Times(n, w) <= q.maxCost
    && 0 < q.maxMinutes
  }

  function Charges(q: Policy, r: Request, rows: seq<Row>): Db {
    Tables(q, r, FRESH.task, MissionRunning, rows)
  }

  function After(q: Policy, r: Request, w: nat, k: nat): History {
    History(k, Bills(k, w), if k == 0 then 0 else k - 1, 0)
  }

  function CallAfter(q: Policy, r: Request, w: nat, k: nat): Call {
    Call(1, r, q, false, Usage(0, 0, 0.0, 0), Bills(k, w), k + 1)
  }

  /** `k` attempts have failed and the next one is about to be written ahead. */
  function Retrying(q: Policy, r: Request, w: nat, v: nat, k: nat): State {
    State(Charges(q, r, Rows(k, v)), Some(Ready(FRESH, CallAfter(q, r, w, k))), After(q, r, w, k))
  }

  lemma FirstAdmitted(cfg: Config, q: Policy, r: Request, w: nat, v: nat, n: nat)
    requires Allows(cfg, q, r, w, n)
    ensures Reaches(cfg, Init(q), Retrying(q, r, w, v, 0))
  {
    Prompted(cfg, q, r);
    TimesGrows(1, n, w);
    assert Times(1, w) == w;
    Admitting(cfg, q, r, AtPrompt(q, r), FRESH);
    Then(cfg, Init(q), AtPrompt(q, r), Admit(0.0));
  }

  /** The request of attempt `k + 1` is out and billed in full. */
  function Billed(q: Policy, r: Request, w: nat, v: nat, k: nat, x: Exec): State {
    State(Charges(q, r, Rows(k, v) + [Row(v, Requested)]), Some(x),
          History(k + 1, Bills(k + 1, w), k, 0))
  }

  function Charged(q: Policy, r: Request, w: nat, v: nat, k: nat): State {
    State(Charges(q, r, Rows(k, v) + [Row(v, Requested)]), Some(Ahead(FRESH, CallAfter(q, r, w, k), k)),
          History(k, Bills(k, w) + [0], k, 0))
  }

  lemma BillSent(k: nat, w: nat)
    ensures |Bills(k, w)| == k && (Bills(k, w) + [0])[k := w] == Bills(k + 1, w)
  {
    Totals(k, w, 0);
  }

  lemma RowFinished(k: nat, v: nat)
    ensures |Rows(k, v)| == k && (Rows(k, v) + [Row(v, Requested)])[k := Row(v, Failed)] == Rows(k + 1, v)
  {
    Totals(k, 0, v);
  }

  lemma FullCharge(r: Request, w: nat, v: nat)
    requires WorstCase(r) == Some(w) && Stored(w) == v
    ensures FinishedRow(r, Failure(None)) == Row(v, Failed)
  {
  }

  lemma RetryWritten(cfg: Config, q: Policy, r: Request, w: nat, v: nat, k: nat)
    requires WorstCase(r) == Some(w) && Stored(w) == v
    ensures Apply(cfg, Retrying(q, r, w, v, k), WriteAhead) == Some(Charged(q, r, w, v, k))
  {
    RowFinished(k, v);
    WritingAhead(cfg, Retrying(q, r, w, v, k), FRESH, CallAfter(q, r, w, k));
  }

  lemma Sending(cfg: Config, q: Policy, r: Request, w: nat, v: nat, k: nat)
    requires WorstCase(r) == Some(w)
    ensures Apply(cfg, Charged(q, r, w, v, k), Send(w))
            == Some(Billed(q, r, w, v, k, InFlight(FRESH, CallAfter(q, r, w, k), k)))
  {
    BillSent(k, w);
  }

  lemma Receiving(cfg: Config, q: Policy, r: Request, w: nat, v: nat, k: nat)
    ensures Apply(cfg, Billed(q, r, w, v, k, InFlight(FRESH, CallAfter(q, r, w, k), k)), Receive(Failure(None)))
         == Some(Billed(q, r, w, v, k, Ending(FRESH, CallAfter(q, r, w, k), k, Failure(None))))
  {
    Totals(k + 1, w, v);
  }

  lemma Finishing(cfg: Config, q: Policy, r: Request, w: nat, v: nat, k: nat)
    requires WorstCase(r) == Some(w) && Stored(w) == v
    ensures Apply(cfg, Billed(q, r, w, v, k, Ending(FRESH, CallAfter(q, r, w, k), k, Failure(None))), Finish(0.0))
         == Some(State(Charges(q, r, Rows(k + 1, v)), Some(AfterFailure(cfg, FRESH, CallAfter(q, r, w, k), None, 0.0)),
                       After(q, r, w, k + 1)))
  {
    RowFinished(k, v);
    FullCharge(r, w, v);
    var s := Billed(q, r, w, v, k, Ending(FRESH, CallAfter(q, r, w, k), k, Failure(None)));
    assert Apply(cfg, s, Finish(0.0)) == DoFinish(cfg, s, s.exec.value, 0.0);
  }

  /** The attempt is finished at its worst case, and the next one is allowed if it is one of the `n`. */
  lemma Failing(cfg: Config, q: Policy, r: Request, w: nat, v: nat, n: nat, k: nat) returns (t: State)
    requires Stored(w) == v && Allows(cfg, q, r, w, n) && k < n && Reaches(cfg, Init(q), Retrying(q, r, w, v, k))
    ensures Reaches(cfg, Init(q), t) && t.db.rows == Rows(k + 1, v) && t.hist.bills == Bills(k + 1, w)
    ensures k + 1 < n ==> t == Retrying(q, r, w, v, k + 1)
  {
    RetryWritten(cfg, q, r, w, v, k);
    Then(cfg, Init(q), Retrying(q, r, w, v, k), WriteAhead);
    Sending(cfg, q, r, w, v, k);
    Then(cfg, Init(q), Charged(q, r, w, v, k), Send(w));
    Receiving(cfg, q, r, w, v, k);
    var c := CallAfter(q, r, w, k);
    Then(cfg, Init(q), Billed(q, r, w, v, k, InFlight(FRESH, c, k)), Receive(Failure(None)));
    Finishing(cfg, q, r, w, v, k);
    Then(cfg, Init(q), Billed(q, r, w, v, k, Ending(FRESH, c, k, Failure(None))), Finish(0.0));
    if k + 1 < n { Again(cfg, q, r, w, n, k); }
    t := State(Charges(q, r, Rows(k + 1, v)), Some(AfterFailure(cfg, FRESH, c, None, 0.0)), After(q, r, w, k + 1));
  }

  lemma StillAllowed(q: Policy, k: nat, spent: nat, w: nat)
    requires k + 1 < q.maxCalls && k < q.maxRetries && spent < q.maxCost && spent + w <= q.maxCost && 0 < q.maxMinutes
    ensures Evaluate(q, Usage(k + 1, spent, 0.0, k), q.maxOutputTokens, true, w) == Allowed
  {
  }

  lemma BillsSoFar(k: nat, w: nat, n: nat)
    requires k + 1 < n && w > 0
    ensures Bills(k, w) + [w] == Bills(k + 1, w) && |Bills(k + 1, w)| == k + 1
    ensures Sum(Bills(k + 1, w)) < Times(n, w) && Sum(Bills(k + 1, w)) + w <= Times(n, w)
  {
    Totals(k + 1, w, 0);
    TimesGrows(k + 2, n, w);
  }

  lemma Again(cfg: Config, q: Policy, r: Request, w: nat, n: nat, k: nat)
    requires Allows(cfg, q, r, w, n) && k + 1 < n
    ensures AfterFailure(cfg, FRESH, CallAfter(q, r, w, k), None, 0.0) == Ready(FRESH, CallAfter(q, r, w, k + 1))
  {
    BillsSoFar(k, w, n);
    StillAllowed(q, k, Sum(Bills(k + 1, w)), w);
  }

  lemma {:induction false} Attempts(cfg: Config, q: Policy, r: Request, w: nat, v: nat, n: nat, k: nat)
    returns (t: State)
    requires Stored(w) == v && Allows(cfg, q, r, w, n) && 1 <= k <= n
    ensures Reaches(cfg, Init(q), t) && t.db.rows == Rows(k, v) && t.hist.bills == Bills(k, w)
    ensures k < n ==> t == Retrying(q, r, w, v, k)
    decreases k
  {
    if k == 1 {
      FirstAdmitted(cfg, q, r, w, v, n);
    } else {
      t := Attempts(cfg, q, r, w, v, n, k - 1);
    }
    t := Failing(cfg, q, r, w, v, n, k - 1);
  }

  // ----- the exact conditions -----

  /** Only calls at the price of `r`. */
  ghost predicate OnlyPriceOf(cfg: Config, r: Request) {
    forall price {:trigger cfg.priced(price)} :: cfg.priced(price) <==> PriceFor(r.provider, r.model) == Some(price)
  }

  /** Over all runs with this price, whatever the configuration and the policy. */
  ghost predicate BilledIsCommitted(r: Request) {
    forall cfg, policy, es {:trigger Run(cfg, Init(policy), es)} ::
      OnlyPriceOf(cfg, r) && Run(cfg, Init(policy), es).Some? ==>
        Sum(Run(cfg, Init(policy), es).value.hist.bills) <= SumCost(Run(cfg, Init(policy), es).value.db.rows)
  }

  ghost predicate CeilingIsKept(r: Request) {
    forall cfg, policy, es {:trigger Run(cfg, Init(policy), es)} ::
      OnlyPriceOf(cfg, r) && Run(cfg, Init(policy), es).Some? ==>
        SumCost(Run(cfg, Init(policy), es).value.db.rows) <= Max0(policy.maxCost)
  }

  /** One failed attempt of a request with these token counts. */
  lemma OneAttempt(r: Request, i: nat, o: nat) returns (cfg: Config, policy: Policy, es: seq<Event>)
    requires PriceFor(r.provider, r.model).Some? && Cost(PriceFor(r.provider, r.model).value, i, o) > 0
    ensures OnlyPriceOf(cfg, r) && Run(cfg, Init(policy), es).Some?
    ensures var w := Cost(PriceFor(r.provider, r.model).value, i, o); var s := Run(cfg, Init(policy), es).value;
            policy.maxCost == w && SumCost(s.db.rows) == Stored(w) && Sum(s.hist.bills) == w
  {
    var price := PriceFor(r.provider, r.model).value;
    var w := Cost(price, i, o);
    var small := Request(r.provider, r.model, 3 * i, o);
    assert EstimateInputTokens(3 * i) == i;
    cfg := Config(1, 0, _ => true, p => p == price);
    policy := Policy(w, 1, 1, 0, o);
    assert Times(1, w) == w && Times(1, Stored(w)) == Stored(w);
    assert Allows(cfg, policy, small, w, 1);
    var t := Attempts(cfg, policy, small, w, Stored(w), 1, 1);
    Totals(1, w, Stored(w));
    es :| Run(cfg, Init(policy), es) == Some(t);
  }

  lemma BilledIsCommittedIff(r: Request)
    requires PriceFor(r.provider, r.model).Some?
    ensures BilledIsCommitted(r) <==> HalfPrice(PriceFor(r.provider, r.model).value)
  {
    var price := PriceFor(r.provider, r.model).value;
    if HalfPrice(price) {
      forall cfg, policy, es {:trigger Run(cfg, Init(policy), es)}
        | OnlyPriceOf(cfg, r) && Run(cfg, Init(policy), es).Some?
        ensures Sum(Run(cfg, Init(policy), es).value.hist.bills) <= SumCost(Run(cfg, Init(policy), es).value.db.rows)
      {
        assert AllHalf(cfg);
        SpendSafety(cfg, policy, es);
      }
    } else {
      var i, o := LossyTokens(price);
      var cfg, policy, es := OneAttempt(r, i, o);
    }
  }

  lemma CeilingIsKeptIff(r: Request)
    requires PriceFor(r.provider, r.model).Some?
    ensures CeilingIsKept(r) <==> WholePrice(PriceFor(r.provider, r.model).value)
  {
    var price := PriceFor(r.provider, r.model).value;
    if WholePrice(price) {
      forall cfg, policy, es {:trigger Run(cfg, Init(policy), es)}
        | OnlyPriceOf(cfg, r) && Run(cfg, Init(policy), es).Some?
        ensures SumCost(Run(cfg, Init(policy), es).value.db.rows) <= Max0(policy.maxCost)
      {
        assert AllWhole(cfg);
        SpendSafety(cfg, policy, es);
      }
    } else {
      var i, o := InflatedTokens(price);
      Positive(price, i, o);
      var cfg, policy, es := OneAttempt(r, i, o);
    }
  }

  lemma Positive(price: Price, i: nat, o: nat)
    requires Cost(price, i, o) < Stored(Cost(price, i, o))
    ensures Cost(price, i, o) > 0
  {
    assert Stored(0) == 0;
  }

  /** Billed <= committed <= ceiling over all runs with a request's price, if and only if it is whole. */
  lemma SpendSafeIff(r: Request)
    requires PriceFor(r.provider, r.model).Some?
    ensures BilledIsCommitted(r) && CeilingIsKept(r) <==> WholePrice(PriceFor(r.provider, r.model).value)
  {
    BilledIsCommittedIff(r);
    CeilingIsKeptIff(r);
  }

  // ----- the allowances are reached -----

  lemma {:induction false} TimesApart(n: nat, x: nat, y: nat, d: nat)
    requires x == y + d
    ensures Times(n, x) == Times(n, y) + d * n
  {
    if n > 0 { TimesApart(n - 1, x, y, d); }
  }

  /** A request to gpt-4o-mini with `i` input tokens and no output. */
  lemma Mini(i: nat) returns (r: Request)
    ensures PriceFor(r.provider, r.model) == Some(Price(15, 60))
    ensures WorstCase(r) == Some(15 * i) && r.maxOutputTokens == 0
  {
    var provider, model := "openai", "gpt-4o-mini";
    assert PriceFor(provider, model) == Some(Price(15, 60));
    r := Request(provider, model, 3 * i, 0);
    MiniCost(r, i);
  }

  lemma MiniCost(r: Request, i: nat)
    requires PriceFor(r.provider, r.model) == Some(Price(15, 60)) && r.promptBytes == 3 * i && r.maxOutputTokens == 0
    ensures WorstCase(r) == Some(15 * i)
  {
    assert EstimateInputTokens(3 * i) == i;
  }

  const ANY := Config(0, 0, _ => true, _ => true)

  /** `n` attempts of 45 units are billed in full and kept as nothing. */
  lemma LossIsReached(n: nat) returns (cfg: Config, policy: Policy, t: State)
    requires n >= 1
    ensures Reaches(cfg, Init(policy), t) && |t.db.rows| == n
    ensures Sum(t.hist.bills) == SumCost(t.db.rows) + Loss(cfg, n) == SumCost(t.db.rows) + 45 * n
  {
    cfg := ANY.(maxAttempts := n);
    policy := Policy(Times(n, 45), n, 1, n, 0);
    var r := Mini(3);
    t := Attempts(cfg, policy, r, 45, 0, n, n);
    Totals(n, 45, 0);
    assert Stored(45) == 0;
    TimesApart(n, 45, 0, 45);
    assert cfg.priced(Price(15, 60)) && !HalfPrice(Price(15, 60));
  }

  /** `n` attempts of 150 units within a ceiling of 150 * n are kept as 200 each. */
  lemma GainIsReached(n: nat) returns (cfg: Config, policy: Policy, t: State)
    requires n >= 1
    ensures Reaches(cfg, Init(policy), t) && cfg.maxAttempts == n
    ensures SumCost(t.db.rows) == Max0(policy.maxCost) + Gain(cfg, n) == Max0(policy.maxCost) + 50 * n
  {
    cfg := ANY.(maxAttempts := n);
    policy := Policy(Times(n, 150), n, 1, n, 0);
    var r := Mini(10);
    t := Attempts(cfg, policy, r, 150, 200, n, n);
    Totals(n, 150, 200);
    assert Stored(150) == 200;
    TimesApart(n, 200, 150, 50);
    assert cfg.priced(Price(15, 60)) && !WholePrice(Price(15, 60));
  }
}
