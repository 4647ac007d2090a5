/**
 Pricing snapshots and the cost of a token usage: four separately rounded charges
 added in the snapshot's currency.
 */
module Pricing {
  import opened Prelude
  import opened Money

  datatype Provider = LocalAi | DeepSeek | Qwen | Codex | Claude

  datatype PricingStatus = Known | Stale | Unknown

  datatype Rates = Rates(input: Safe, output: Safe, cacheRead: Option<Safe>, cacheWrite: Option<Safe>)

  datatype PricingSnapshot = PricingSnapshot(
    provider: Provider, model: Option<string>, currency: Option<string>,
    input: Option<Safe>, output: Option<Safe>, cacheRead: Option<Safe>, cacheWrite: Option<Safe>,
    status: PricingStatus)

  datatype Resolved = Resolved(currency: string, rates: Rates)

  /** Token counts as a caller passes them: any integers, checked only by the charge. */
  datatype TokenUsage = TokenUsage(input: int, output: int, cacheRead: int, cacheWrite: int)

  function FindSnapshot(snapshots: seq<PricingSnapshot>, provider: Provider): Option<PricingSnapshot> {
    if snapshots == [] then None
    else if snapshots[0].provider == provider then Some(snapshots[0])
    else FindSnapshot(snapshots[1..], provider)
  }

  function Resolve(snapshots: seq<PricingSnapshot>, provider: Provider, model: string, automatic: bool, cloud: bool)
    : Option<Resolved>
  {
    match FindSnapshot(snapshots, provider)
    case None => None
    case Some(s) =>
      if automatic && cloud && s.status != Known then None
      else if s.status == Unknown then None
      else if s.model.None? || s.currency.None? || s.input.None? || s.output.None? then None
      else if s.model.value != model then None
      else Some(Resolved(s.currency.value, Rates(s.input.value, s.output.value, s.cacheRead, s.cacheWrite)))
  }

  /** A charge is payable when its rate is known, or when there is nothing to charge. */
  predicate Payable(tokens: int, rate: Option<Safe>) {
    match rate
    case None => tokens == 0
    case Some(r) => MicrosForTokens(tokens, r).Some?
  }

  function ChargeMicros(tokens: int, rate: Option<Safe>): nat
    requires Payable(tokens, rate)
  {
    match rate
    case None => 0
    case Some(r) => MicrosForTokens(tokens, r).value
  }

  predicate AllPayable(rates: Rates, usage: TokenUsage) {
    && Payable(usage.input, Some(rates.input))
    && Payable(usage.output, Some(rates.output))
    && Payable(usage.cacheRead, rates.cacheRead)
    && Payable(usage.cacheWrite, rates.cacheWrite)
  }

  function CostMicros(rates: Rates, usage: TokenUsage): nat
    requires AllPayable(rates, usage)
  {
    ChargeMicros(usage.input, Some(rates.input)) + ChargeMicros(usage.output, Some(rates.output))
    + ChargeMicros(usage.cacheRead, rates.cacheRead) + ChargeMicros(usage.cacheWrite, rates.cacheWrite)
  }

  /** What a usage costs: the sum of its charges, when each is payable and the sum is safe. */
  function CostOf(pricing: Resolved, usage: TokenUsage): Option<Money> {
    if CurrencyCode(pricing.currency) && AllPayable(pricing.rates, usage)
        && CostMicros(pricing.rates, usage) <= MAX_SAFE
    then Some(Money(pricing.currency, CostMicros(pricing.rates, usage)))
    else None
  }

  method Charge(total: Money, tokens: int, rate: Option<Safe>) returns (r: Option<Money>)
    requires CurrencyCode(total.currency)
    ensures r.Some? <==> Payable(tokens, rate) && total.amountMicros + ChargeMicros(tokens, rate) <= MAX_SAFE
    ensures r.Some? ==> r.value == Money(total.currency, total.amountMicros + ChargeMicros(tokens, rate))
  {
    if rate.None? {
      return if tokens == 0 then Some(total) else None;
    }
    var micros := MicrosForTokens(tokens, rate.value);
    if micros.None? {
      return None;
    }
    r := AddMoney(total, Money(total.currency, micros.value));
  }

  /** The running total of the source computes exactly `CostOf`. */
  method CalculateCost(pricing: Resolved, usage: TokenUsage) returns (r: Option<Money>)
    ensures r == CostOf(pricing, usage)
  {
    r := CreateMoney(pricing.currency, 0);
    if r.None? { return; }
    r := Charge(r.value, usage.input, Some(pricing.rates.input));
    if r.None? { return; }
    r := Charge(r.value, usage.output, Some(pricing.rates.output));
    if r.None? { return; }
    r := Charge(r.value, usage.cacheRead, pricing.rates.cacheRead);
    if r.None? { return; }
    r := Charge(r.value, usage.cacheWrite, pricing.rates.cacheWrite);
  }

  /** More tokens never cost less, and fewer tokens of an affordable usage stay affordable. */
  lemma CostMonotone(pricing: Resolved, less: TokenUsage, more: TokenUsage)
    requires 0 <= less.input <= more.input && 0 <= less.output <= more.output
    requires 0 <= less.cacheRead <= more.cacheRead && 0 <= less.cacheWrite <= more.cacheWrite
    requires CostOf(pricing, more).Some?
    ensures CostOf(pricing, less).Some?
    ensures CostOf(pricing, less).value.amountMicros <= CostOf(pricing, more).value.amountMicros
  {
    CeilingCostMonotone(less.input, more.input, pricing.rates.input, pricing.rates.input);
    CeilingCostMonotone(less.output, more.output, pricing.rates.output, pricing.rates.output);
    if pricing.rates.cacheRead.Some? {
      CeilingCostMonotone(less.cacheRead, more.cacheRead, pricing.rates.cacheRead.value, pricing.rates.cacheRead.value);
    }
    if pricing.rates.cacheWrite.Some? {
      CeilingCostMonotone(less.cacheWrite, more.cacheWrite, pricing.rates.cacheWrite.value,
                          pricing.rates.cacheWrite.value);
    }
  }
}
