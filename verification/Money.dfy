/**
 Integer money: amounts in millionths of a currency unit, bounded by the largest
 integer an IEEE double represents exactly, and token prices rounded up.
 */
module Money {
  import opened Prelude

  const MAX_SAFE: nat := 9007199254740991
  const TOKENS_PER_MILLION: nat := 1000000

  /** A number that the event schema accepts: a non-negative safe integer. */
  type Safe = n: int | 0 <= n <= MAX_SAFE

  datatype Money = Money(currency: string, amountMicros: Safe)

  predicate CurrencyCode(code: string) {
    |code| == 3 && forall i | 0 <= i < 3 :: 'A' <= code[i] <= 'Z'
  }

  predicate IsSafe(n: int) {
    0 <= n <= MAX_SAFE
  }

  function CreateMoney(currency: string, amountMicros: int): Option<Money> {
    if CurrencyCode(currency) && IsSafe(amountMicros) then Some(Money(currency, amountMicros)) else None
  }

  function AddMoney(left: Money, right: Money): Option<Money> {
    if left.currency != right.currency then None
    else CreateMoney(left.currency, left.amountMicros + right.amountMicros)
  }

  /** The price of `tokens` tokens at `rate` micros per million, rounded up. */
  function CeilingCost(tokens: nat, rate: nat): nat {
    if tokens * rate == 0 then 0 else (tokens * rate + TOKENS_PER_MILLION - 1) / TOKENS_PER_MILLION
  }

  /** The checked form: unsafe arguments and an unsafe result are refused. */
  function MicrosForTokens(tokens: int, rate: int): Option<Safe> {
    if !IsSafe(tokens) || !IsSafe(rate) then None
    else
      var cost := CeilingCost(tokens, rate);
      if cost > MAX_SAFE then None else Some(cost)
  }

  /** Rounding up is exact: the cost is the least whole amount that covers the price. */
  lemma CeilingCostIsLeastCover(tokens: nat, rate: nat, amount: nat)
    ensures CeilingCost(tokens, rate) <= amount <==> tokens * rate <= amount * TOKENS_PER_MILLION
  {
    var product := tokens * rate;
    if product != 0 {
      var cost := (product + TOKENS_PER_MILLION - 1) / TOKENS_PER_MILLION;
      assert cost * TOKENS_PER_MILLION <= product + TOKENS_PER_MILLION - 1 < (cost + 1) * TOKENS_PER_MILLION;
    }
  }

  lemma MulMonotone(a: nat, b: nat, c: nat, d: nat)
    requires a <= b && c <= d
    ensures a * c <= b * d
  {
    assert a * c <= b * c <= b * d;
  }

  lemma CeilingCostMonotone(fewer: nat, more: nat, cheap: nat, dear: nat)
    requires fewer <= more && cheap <= dear
    ensures CeilingCost(fewer, cheap) <= CeilingCost(more, dear)
  {
    MulMonotone(fewer, more, cheap, dear);
    CeilingCostIsLeastCover(more, dear, CeilingCost(more, dear));
    CeilingCostIsLeastCover(fewer, cheap, CeilingCost(more, dear));
  }

  /** Billing a call in two parts never lowers the price and adds at most one micro. */
  lemma SplitCostsAtMostOneMicro(first: nat, second: nat, rate: nat)
    ensures CeilingCost(first + second, rate)
         <= CeilingCost(first, rate) + CeilingCost(second, rate)
         <= CeilingCost(first + second, rate) + 1
  {
    var a, b, whole := CeilingCost(first, rate), CeilingCost(second, rate), CeilingCost(first + second, rate);
    assert (first + second) * rate == first * rate + second * rate;
    CeilingCostIsLeastCover(first, rate, a);
    CeilingCostIsLeastCover(second, rate, b);
    CeilingCostIsLeastCover(first + second, rate, a + b);
    CeilingCostIsLeastCover(first + second, rate, whole);
    if a > 0 { CeilingCostIsLeastCover(first, rate, a - 1); }
    if b > 0 { CeilingCostIsLeastCover(second, rate, b - 1); }
  }

  function Total(parts: seq<nat>): nat {
    if parts == [] then 0 else Total(parts[..|parts| - 1]) + parts[|parts| - 1]
  }

  function TotalCost(parts: seq<nat>, rate: nat): nat {
    if parts == [] then 0 else TotalCost(parts[..|parts| - 1], rate) + CeilingCost(parts[|parts| - 1], rate)
  }

  /** Splitting a call into any number of parts adds less than one micro per part. */
  lemma {:induction false} AnySplitIsBounded(parts: seq<nat>, rate: nat)
    requires parts != []
    ensures CeilingCost(Total(parts), rate) <= TotalCost(parts, rate)
         <= CeilingCost(Total(parts), rate) + |parts| - 1
  {
    var front, last := parts[..|parts| - 1], parts[|parts| - 1];
    if front == [] {
      assert Total(front) == 0 && TotalCost(front, rate) == 0;
    } else {
      AnySplitIsBounded(front, rate);
      SplitCostsAtMostOneMicro(Total(front), last, rate);
    }
  }
}
