/**
 Prices, worst-case estimates and the budget decision: model_gateway/telemetry.py and
 policy_sdk/budgets.py.  Money is counted in units of 10^-8 USD, in which every price of the
 table is a whole number per token.
 */
module Budget {
  import opened Options

  datatype Price = Price(input: nat, output: nat)

  /** The price table; the mock provider's row is a wildcard, and an unlisted pair has no price.
      All prices are multiples of 5 * 10^-8 USD per token. */
  function PriceFor(provider: string, model: string): (r: Option<Price>)
    ensures r.Some? ==> r.value.input % 5 == 0 && r.value.output % 5 == 0
  {
    match (provider, model)
    case ("anthropic", "claude-sonnet-5") => Some(Price(300, 1500))
    case ("anthropic", "claude-haiku-4-5-20251001") => Some(Price(100, 500))
    case ("anthropic", "claude-opus-5") => Some(Price(1500, 7500))
    case ("openai", "gpt-4o-mini") => Some(Price(15, 60))
    case ("openai", "gpt-4o") => Some(Price(250, 1000))
    case ("mock", _) => Some(Price(0, 0))
    case _ => None
  }

  function Cost(price: Price, tokensIn: nat, tokensOut: nat): nat {
    tokensIn * price.input + tokensOut * price.output
  }

  /** A model request; only the UTF-8 size of its two prompts matters to the estimates. */
  datatype Request = Request(provider: string, model: string, promptBytes: nat, maxOutputTokens: nat)

  const BYTES_PER_INPUT_TOKEN := 3

  /** Size divided by three, rounded up: the least number of tokens of three bytes that hold it. */
  function EstimateInputTokens(bytes: nat): (n: nat)
    ensures 3 * n >= bytes && forall m: nat :: 3 * m >= bytes ==> n <= m
  {
    (bytes + BYTES_PER_INPUT_TOKEN - 1) / BYTES_PER_INPUT_TOKEN
  }

  /** The most one attempt can be billed: the estimated input and the whole output cap. */
  function WorstCase(r: Request): Option<nat> {
    match PriceFor(r.provider, r.model)
    case None => None
    case Some(price) => Some(Cost(price, EstimateInputTokens(r.promptBytes), r.maxOutputTokens))
  }

  /** A 4xx other than 408 (the client errors of section 15.5 of RFC 9110, less its 15.5.9). */
  predicate ProvablyUnbilled(status: Option<int>) {
    status.Some? && 400 <= status.value < 500 && status.value != 408
  }

  /** 429 (section 4 of RFC 6585) is unbilled but clears, so it is retried. */
  predicate PermanentRejection(status: Option<int>) {
    ProvablyUnbilled(status) && status.value != 429
  }

  lemma CostMonotone(price: Price, in1: nat, out1: nat, in2: nat, out2: nat)
    requires in1 <= in2 && out1 <= out2
    ensures Cost(price, in1, out1) <= Cost(price, in2, out2)
  {
    assert in1 * price.input <= in2 * price.input;
    assert out1 * price.output <= out2 * price.output;
  }

  // ----- what the ledger column keeps -----

  /** numeric(10, 6): the nearest whole number of 10^-6 USD, halves up. */
  function Stored(cost: nat): nat {
    (cost + 50) / 100 * 100
  }

  /** Whole numbers of 10^-6 USD per token. */
  predicate WholePrice(price: Price) {
    price.input % 100 == 0 && price.output % 100 == 0
  }

  /** Whole numbers of halves of 10^-6 USD per token. */
  predicate HalfPrice(price: Price) {
    price.input % 50 == 0 && price.output % 50 == 0
  }

  lemma Hundreds(x: nat, y: nat)
    requires x <= y
    ensures x / 100 <= y / 100
  {
  }

  lemma StoredNear(a: nat, b: nat)
    ensures a < Stored(a) + 50 && Stored(a) <= a + 50
    ensures a <= b ==> Stored(a) <= Stored(b)
  {
    if a <= b { Hundreds(a + 50, b + 50); }
  }

  lemma StoredParts(q: nat, r: nat)
    requires r < 100
    ensures Stored(100 * q + r) == if r < 50 then 100 * q else 100 * q + 100
  {
    var x := 100 * q + r + 50;
    if r < 50 { assert x / 100 == q; } else { assert x / 100 == q + 1; }
  }

  lemma FifthsOfHundred(q: nat, r: nat)
    requires (100 * q + r) % 5 == 0 && r < 50
    ensures r <= 45
  {
    assert 100 * q + r == 5 * (20 * q) + r;
  }

  lemma StoredSide(c: nat)
    ensures Stored(c) < c <==> 0 < c % 100 < 50
    ensures c < Stored(c) <==> 50 <= c % 100
    ensures c % 5 == 0 ==> c <= Stored(c) + 45
  {
    var q, r := c / 100, c % 100;
    StoredParts(q, r);
    if c % 5 == 0 && r < 50 { FifthsOfHundred(q, r); }
  }

  lemma Mirrored(a: nat)
    requires a % 100 != 0
    ensures (99 * a) % 100 == 100 - a % 100
  {
    var q, r := a / 100, a % 100;
    assert 99 * a == 100 * (99 * q + r - 1) + (100 - r);
  }

  lemma Regroup(n: nat, d: nat, a: nat)
    ensures n * (d * a) == d * (n * a)
  {
  }

  lemma CostScales(price: Price, tokensIn: nat, tokensOut: nat, d: nat, a: nat, b: nat) returns (q: nat)
    requires price == Price(d * a, d * b)
    ensures Cost(price, tokensIn, tokensOut) == d * q
  {
    Regroup(tokensIn, d, a);
    Regroup(tokensOut, d, b);
    var x, y := tokensIn * a, tokensOut * b;
    q := x + y;
    assert d * x + d * y == d * q;
  }

  lemma Divided(c: nat, d: nat, q: nat)
    requires d == 5 || d == 50 || d == 100
    requires c == d * q
    ensures c % d == 0
  {
    if d == 5 {
      assert c == 5 * q;
    } else if d == 50 {
      assert c == 50 * q;
    } else {
      assert c == 100 * q;
    }
  }

  /** A common divisor of both prices divides every cost. */
  lemma CostDivides(price: Price, tokensIn: nat, tokensOut: nat, d: nat)
    requires (d == 5 || d == 50 || d == 100) && price.input % d == 0 && price.output % d == 0
    ensures Cost(price, tokensIn, tokensOut) % d == 0
  {
    var a, b := price.input / d, price.output / d;
    assert price == Price(d * a, d * b);
    var q := CostScales(price, tokensIn, tokensOut, d, a, b);
    Divided(Cost(price, tokensIn, tokensOut), d, q);
  }

  lemma CostOfOne(price: Price)
    ensures Cost(price, 1, 0) == price.input && Cost(price, 99, 0) == 99 * price.input
    ensures Cost(price, 0, 1) == price.output && Cost(price, 0, 99) == 99 * price.output
  {
  }

  lemma DownSide(a: nat)
    requires a % 50 != 0
    ensures Stored(a) < a || Stored(99 * a) < 99 * a
  {
    var q, r := a / 100, a % 100;
    assert a == 50 * (2 * q) + r;
    if r < 50 {
      StoredSide(a);
    } else {
      assert r != 50;
      Mirrored(a);
      StoredSide(99 * a);
    }
  }

  lemma UpSide(a: nat)
    requires a % 100 != 0
    ensures a < Stored(a) || 99 * a < Stored(99 * a)
  {
    StoredSide(a);
    Mirrored(a);
    StoredSide(99 * a);
  }

  /** Token counts whose cost the column rounds down, for any other price. */
  lemma LossyTokens(price: Price) returns (i: nat, o: nat)
    requires !HalfPrice(price)
    ensures Stored(Cost(price, i, o)) < Cost(price, i, o)
  {
    CostOfOne(price);
    if price.input % 50 != 0 {
      DownSide(price.input);
      if Stored(price.input) < price.input { i, o := 1, 0; } else { i, o := 99, 0; }
    } else {
      DownSide(price.output);
      if Stored(price.output) < price.output { i, o := 0, 1; } else { i, o := 0, 99; }
    }
  }

  /** Token counts whose cost the column rounds up, for any other price. */
  lemma InflatedTokens(price: Price) returns (i: nat, o: nat)
    requires !WholePrice(price)
    ensures Cost(price, i, o) < Stored(Cost(price, i, o))
  {
    CostOfOne(price);
    if price.input % 100 != 0 {
      UpSide(price.input);
      if price.input < Stored(price.input) { i, o := 1, 0; } else { i, o := 99, 0; }
    } else {
      UpSide(price.output);
      if price.output < Stored(price.output) { i, o := 0, 1; } else { i, o := 0, 99; }
    }
  }

  /** The column never rounds a charge at a price down exactly if the price is a whole number of
      halves, and never up exactly if it is whole. */
  lemma RoundingIff(price: Price)
    ensures (forall i: nat, o: nat :: Cost(price, i, o) <= Stored(Cost(price, i, o))) <==> HalfPrice(price)
    ensures (forall i: nat, o: nat :: Stored(Cost(price, i, o)) <= Cost(price, i, o)) <==> WholePrice(price)
  {
    if HalfPrice(price) {
      forall i: nat, o: nat ensures Cost(price, i, o) <= Stored(Cost(price, i, o)) { NotLossy(price, i, o); }
    } else {
      var i, o := LossyTokens(price);
    }
    if WholePrice(price) {
      forall i: nat, o: nat ensures Stored(Cost(price, i, o)) <= Cost(price, i, o) { NotInflated(price, i, o); }
    } else {
      var i, o := InflatedTokens(price);
    }
  }

  lemma NotLossy(price: Price, i: nat, o: nat)
    requires HalfPrice(price)
    ensures Cost(price, i, o) <= Stored(Cost(price, i, o))
  {
    CostDivides(price, i, o, 50);
    StoredSide(Cost(price, i, o));
  }

  lemma NotInflated(price: Price, i: nat, o: nat)
    requires WholePrice(price)
    ensures Stored(Cost(price, i, o)) <= Cost(price, i, o)
  {
    CostDivides(price, i, o, 100);
    StoredSide(Cost(price, i, o));
  }

  lemma LossAtMost45(price: Price, i: nat, o: nat)
    requires price.input % 5 == 0 && price.output % 5 == 0
    ensures Cost(price, i, o) <= Stored(Cost(price, i, o)) + 45
  {
    CostDivides(price, i, o, 5);
    StoredSide(Cost(price, i, o));
  }

  datatype Policy = Policy(maxCost: int, maxCalls: int, maxMinutes: int, maxRetries: int, maxOutputTokens: nat)

  datatype Usage = Usage(calls: int, cost: int, minutes: real, retries: int)

  datatype Decision = Allowed | CallsReached | CostReached | RuntimeExceeded | OutputTooLarge | RetriesReached

  /** `evaluate_budget`: the first ceiling that would be passed, in the source's order. */
  function Evaluate(p: Policy, u: Usage, requestedTokens: nat, isRetry: bool, worst: nat): Decision {
    if u.calls >= p.maxCalls then CallsReached
    else if u.cost >= p.maxCost || u.cost + worst > p.maxCost then CostReached
    else if u.minutes >= p.maxMinutes as real then RuntimeExceeded
    else if requestedTokens > p.maxOutputTokens then OutputTooLarge
    else if isRetry && u.retries >= p.maxRetries then RetriesReached
    else Allowed
  }

  /** A call is allowed exactly below every ceiling: there is a call left, the worst case still fits
      under the cost ceiling, which is not reached yet, there is time left, the output is not too
      large, and for a retry there is a retry left. */
  lemma AllowedIff(p: Policy, u: Usage, requestedTokens: nat, isRetry: bool, worst: nat)
    ensures Evaluate(p, u, requestedTokens, isRetry, worst) == Allowed <==>
              && u.calls < p.maxCalls && u.cost < p.maxCost && u.cost + worst <= p.maxCost
              && u.minutes < p.maxMinutes as real && requestedTokens <= p.maxOutputTokens
              && (isRetry ==> u.retries < p.maxRetries)
  {
  }
}
