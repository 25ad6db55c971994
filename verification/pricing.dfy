/** Money arithmetic of the compute meter.

    An amount is an integer number of 10^-6 USD and a rate an integer number of 10^-6 USD per
    1000 tokens: the quantum both ledger columns carry. */
module Pricing {
  import opened Common

  datatype Source = OpenRouterLive | CatalogOverride | BlendedFallback

  datatype Quote = Quote(source: Source, effective: int, prompt: Option<int>, completion: Option<int>)

  /** ROUND_HALF_UP of the non-negative fraction n / d. */
  function RoundHalfUp(n: nat, d: nat): nat
    requires d > 0
  {
    (2 * n + d) / (2 * d)
  }

  lemma RoundBracket(n: nat, d: nat)
    requires d > 0
    ensures 2 * d * RoundHalfUp(n, d) <= 2 * n + d < 2 * d * RoundHalfUp(n, d) + 2 * d
  {
    var m := 2 * n + d;
    assert m == 2 * d * (m / (2 * d)) + m % (2 * d);
  }

  /** Rounding never carries a fraction past an integer it does not exceed. */
  lemma RoundNeverPasses(n: nat, d: nat, bound: nat)
    requires d > 0 && n <= bound * d
    ensures RoundHalfUp(n, d) <= bound
  {
    RoundBracket(n, d);
    Mono(2, n, bound * d);
    assert 2 * d * (bound + 1) == 2 * (bound * d) + 2 * d;
    Cancel(2 * d, RoundHalfUp(n, d), bound + 1);
  }

  lemma RoundMonotone(a: nat, b: nat, d: nat)
    requires d > 0 && a <= b
    ensures RoundHalfUp(a, d) <= RoundHalfUp(b, d)
  {
    RoundBracket(a, d);
    RoundBracket(b, d);
    OneMore(2 * d, RoundHalfUp(b, d));
    Cancel(2 * d, RoundHalfUp(a, d), RoundHalfUp(b, d) + 1);
  }

  lemma OneMore(k: int, x: int)
    ensures k * (x + 1) == k * x + k
  {
  }

  lemma Cancel(k: nat, a: int, b: int)
    requires k * a < k * b
    ensures a < b
  {
    if a >= b { Mono(k, b, a); }
  }

  lemma Mono(k: nat, a: int, b: int)
    requires a <= b
    ensures k * a <= k * b
  {
  }

  /** `tokens x rate / 1000`, rounded to the ledger's quantum; nothing for no tokens. */
  function TokensToCost(tokens: int, rate: int): nat {
    if tokens <= 0 || rate <= 0 then 0
    else
      assert tokens * rate >= 0 by { Mono(tokens, 0, rate); }
      RoundHalfUp(tokens * rate, 1000)
  }

  /** The mean of the two live rates, at the same quantum. */
  function MeanRate(prompt: nat, completion: nat): nat {
    RoundHalfUp(prompt + completion, 2)
  }

  function LiveQuote(prompt: nat, completion: nat): Quote {
    Quote(OpenRouterLive, MeanRate(prompt, completion), Some(prompt), Some(completion))
  }

  /** A quote the price client can produce: live quotes carry both rates and their mean, the
      others one non-negative rate. */
  ghost predicate WellFormed(q: Quote) {
    match q.source
    case OpenRouterLive =>
      && q.prompt.Some? && q.completion.Some? && q.prompt.value >= 0 && q.completion.value >= 0
      && q == LiveQuote(q.prompt.value, q.completion.value)
    case _ => q.effective >= 0 && q.prompt.None? && q.completion.None?
  }

  /** Prompt and completion shares of a usage when it is billed on the split: completion bears
      whatever the provider reports beyond the two counts. */
  function CompletionShare(tokens: int, prompt: int, completion: int): int {
    Max(completion, 0) + Max(tokens - Max(prompt, 0) - Max(completion, 0), 0)
  }

  predicate BillsSplit(prompt: Option<int>, completion: Option<int>, q: Quote) {
    q.source.OpenRouterLive? && q.prompt.Some? && q.completion.Some? && prompt.Some? && completion.Some?
  }

  function UsageToCost(tokens: int, prompt: Option<int>, completion: Option<int>, q: Quote): nat {
    if tokens <= 0 then 0
    else if BillsSplit(prompt, completion, q) then
      TokensToCost(Max(prompt.value, 0), q.prompt.value)
      + TokensToCost(CompletionShare(tokens, prompt.value, completion.value), q.completion.value)
    else TokensToCost(tokens, q.effective)
  }

  // ----- the turn clamp -----

  predicate PriceIsKnown(source: Source) {
    source != BlendedFallback
  }

  function Positive(rate: Option<int>): int {
    if rate.Some? && rate.value > 0 then rate.value else 0
  }

  /** The dearer positive split rate, or the effective rate when there is none. */
  function ClampRate(q: Quote): int {
    var split := Max(Positive(q.prompt), Positive(q.completion));
    if split > 0 then split else q.effective
  }

  /** How many tokens `available` buys at `rate`, rounded down; none applies for a free rate. */
  function PotTokens(available: int, rate: int): Option<nat> {
    if rate <= 0 then None
    else if available <= 0 then Some(0)
    else Some(available * 1000 / rate)
  }

  function Bounded(room: nat, limit: Option<int>): nat {
    if limit.Some? then Min(room, Max(0, limit.value)) else room
  }

  function TurnClamp(daily: int, pot: Option<int>, agent: Option<int>): nat {
    Bounded(Bounded(Max(daily, 0), pot), agent)
  }

  function ClampMaxTokens(requested: Option<int>, room: int): nat {
    if room < 1 then 0
    else if requested.None? || requested.value < 1 then room
    else Min(requested.value, room)
  }

  function Overshoot(tokens: int, clamp: int): nat {
    Max(tokens - clamp, 0)
  }

  lemma ClampFitsEveryRoom(daily: int, pot: Option<int>, agent: Option<int>, requested: Option<int>)
    ensures var c := TurnClamp(daily, pot, agent);
            && c <= Max(daily, 0)
            && (pot.Some? ==> c <= Max(pot.value, 0))
            && (agent.Some? ==> c <= Max(agent.value, 0))
            && ClampMaxTokens(requested, c) <= c
            && (c == Max(daily, 0) || (pot.Some? && c == Max(pot.value, 0)) || (agent.Some? && c == Max(agent.value, 0)))
  {
  }

  // ----- what the clamp buys -----

  /** Tokens bought at one rate never cost more than the pot, at that rate or any cheaper one. */
  lemma PotTokensFit(available: nat, rate: int, tokens: nat, billed: int)
    requires rate > 0 && tokens <= PotTokens(available, rate).value && billed <= rate
    ensures TokensToCost(tokens, billed) <= available
  {
    if available > 0 && tokens > 0 && billed > 0 {
      var bought := available * 1000 / rate;
      assert bought * rate <= available * 1000;
      assert tokens * billed <= tokens * rate by { Mono(tokens, billed, rate); }
      assert tokens * rate <= bought * rate by { Mono(rate, tokens, bought); }
      assert tokens * billed >= 0 by { Mono(tokens, 0, billed); }
      RoundNeverPasses(tokens * billed, 1000, available);
    }
  }

  lemma MeanBelowDearer(prompt: nat, completion: nat)
    ensures MeanRate(prompt, completion) <= Max(prompt, completion)
  {
    RoundNeverPasses(prompt + completion, 2, Max(prompt, completion));
  }

  /** The clamp rate is at least every rate the same quote can bill at. */
  lemma ClampRateIsDearest(q: Quote)
    requires WellFormed(q)
    ensures ClampRate(q) >= q.effective
    ensures q.completion.Some? ==> ClampRate(q) >= q.completion.value
  {
    if q.source.OpenRouterLive? {
      MeanBelowDearer(q.prompt.value, q.completion.value);
    }
  }

  /** The money bound. A turn clamped with the pot's room, billed by the same quote, with its
      completion and unattributed tokens inside the clamp, costs at most the pot beyond the prompt. */
  lemma CompletionFitsPot(q: Quote, available: nat, daily: int, agent: Option<int>,
                          tokens: int, prompt: Option<int>, completion: Option<int>)
    requires WellFormed(q) && PriceIsKnown(q.source)
    requires var clamp := TurnClamp(daily, PotTokens(available, ClampRate(q)), agent);
             if BillsSplit(prompt, completion, q)
             then CompletionShare(tokens, prompt.value, completion.value) <= clamp
             else tokens <= clamp
    ensures var promptCost := if BillsSplit(prompt, completion, q)
                              then TokensToCost(Max(prompt.value, 0), q.prompt.value) else 0;
            UsageToCost(tokens, prompt, completion, q) <= available + promptCost
  {
    ClampRateIsDearest(q);
    var rate := ClampRate(q);
    var pot := PotTokens(available, rate);
    ClampFitsEveryRoom(daily, pot, agent, None);
    if tokens > 0 && rate > 0 {
      if BillsSplit(prompt, completion, q) {
        PotTokensFit(available, rate, CompletionShare(tokens, prompt.value, completion.value), q.completion.value);
      } else {
        PotTokensFit(available, rate, tokens, q.effective);
      }
    }
  }

  /** The prompt is not reserved: a turn inside its clamp can cost more than the pot held - billed on the
      split, billed live on the sum alone, or priced from the catalogue. */
  lemma PromptCanOverdraw()
    ensures var q := LiveQuote(1000000, 1000000);
            var clamp := TurnClamp(20000, PotTokens(16000, ClampRate(q)), None);
            16 <= clamp && TurnCost(q, 100, 16, true) > 16000 && TurnCost(q, 100, 16, false) > 16000
    ensures var q := Quote(CatalogOverride, 1000000, None, None);
            var clamp := TurnClamp(20000, PotTokens(16000, ClampRate(q)), None);
            16 <= clamp && TurnCost(q, 100, 16, true) > 16000
  {
  }

  lemma CostMonotone(fewer: int, more: int, rate: int)
    requires fewer <= more
    ensures TokensToCost(fewer, rate) <= TokensToCost(more, rate)
  {
    if fewer > 0 && rate > 0 {
      Mono(rate, fewer, more);
      Mono(fewer, 0, rate);
      RoundMonotone(fewer * rate, more * rate, 1000);
    }
  }

  /** The bill of a turn that sent `prompt` tokens and moved `beyond` more, with the two counts reported
      or only their sum. */
  function TurnCost(q: Quote, prompt: nat, beyond: nat, counted: bool): nat {
    UsageToCost(prompt + beyond, if counted then Some(prompt) else None, if counted then Some(beyond) else None, q)
  }

  /** What the prompt and `beyond` tokens cost at the quote's own rates. */
  ghost function CostAtRates(q: Quote, prompt: nat, beyond: nat, counted: bool): nat
    requires WellFormed(q)
  {
    if counted && q.source.OpenRouterLive?
    then TokensToCost(prompt, q.prompt.value) + TokensToCost(beyond, q.completion.value)
    else TokensToCost(prompt + beyond, q.effective)
  }

  lemma TurnCostAtRates(q: Quote, prompt: nat, beyond: nat, counted: bool)
    requires WellFormed(q)
    ensures TurnCost(q, prompt, beyond, counted) == CostAtRates(q, prompt, beyond, counted)
  {
    if prompt + beyond == 0 {
      assert TokensToCost(0, q.effective) == 0;
    } else if counted && q.source.OpenRouterLive? {
      assert CompletionShare(prompt + beyond, prompt, beyond) == beyond;
      SplitCost(prompt + beyond, prompt, beyond, q);
    }
  }

  lemma SplitCost(tokens: int, prompt: nat, completion: int, q: Quote)
    requires tokens > 0 && BillsSplit(Some(prompt), Some(completion), q)
    ensures UsageToCost(tokens, Some(prompt), Some(completion), q)
         == TokensToCost(prompt, q.prompt.value)
          + TokensToCost(CompletionShare(tokens, prompt, completion), q.completion.value)
  {
    assert Max(prompt, 0) == prompt;
  }

  /** However much of what is beyond the prompt is reported as completion, the bill is the same. */
  lemma RemainderBillsAsCompletion(q: Quote, prompt: nat, beyond: nat, completion: nat)
    requires WellFormed(q) && completion <= beyond
    ensures UsageToCost(prompt + beyond, Some(prompt), Some(completion), q) == TurnCost(q, prompt, beyond, true)
  {
    assert CompletionShare(prompt + beyond, prompt, completion) == CompletionShare(prompt + beyond, prompt, beyond);
  }

  predicate Affordable(q: Quote, prompt: nat, beyond: nat, counted: bool, available: nat) {
    TurnCost(q, prompt, beyond, counted) <= available
  }

  lemma SmallerIsAffordable(q: Quote, prompt: nat, beyond: nat, clamp: nat, counted: bool, available: nat)
    requires WellFormed(q) && beyond <= clamp && Affordable(q, prompt, clamp, counted, available)
    ensures Affordable(q, prompt, beyond, counted, available)
  {
    TurnCostAtRates(q, prompt, beyond, counted);
    TurnCostAtRates(q, prompt, clamp, counted);
    if counted && q.source.OpenRouterLive? {
      CostMonotone(beyond, clamp, q.completion.value);
    } else {
      CostMonotone(prompt + beyond, prompt + clamp, q.effective);
    }
  }

  /** When a turn can overdraw, for every quote and with or without reported counts: everything inside the
      clamp leaves the bill within the pot exactly when the prompt and a full clamp fit it together. */
  lemma OverdrawExactly(q: Quote, available: nat, prompt: nat, clamp: nat, counted: bool)
    requires WellFormed(q)
    ensures (forall beyond: nat :: beyond <= clamp ==> Affordable(q, prompt, beyond, counted, available))
       <==> CostAtRates(q, prompt, clamp, counted) <= available
  {
    TurnCostAtRates(q, prompt, clamp, counted);
    if Affordable(q, prompt, clamp, counted, available) {
      forall beyond: nat | beyond <= clamp ensures Affordable(q, prompt, beyond, counted, available) {
        SmallerIsAffordable(q, prompt, beyond, clamp, counted, available);
      }
    }
  }

  /** Each share is rounded once, so a split bill is within one quantum of the exact cost. */
  lemma SplitBillWithinOneQuantum(q: Quote, tokens: int, prompt: int, completion: int)
    requires WellFormed(q) && q.source.OpenRouterLive? && tokens > 0
    ensures var exact := Max(prompt, 0) * q.prompt.value
                       + CompletionShare(tokens, prompt, completion) * q.completion.value;
            -1000 <= 1000 * UsageToCost(tokens, Some(prompt), Some(completion), q) - exact <= 1000
  {
    CostWithinHalfQuantum(Max(prompt, 0), q.prompt.value);
    CostWithinHalfQuantum(CompletionShare(tokens, prompt, completion), q.completion.value);
  }

  lemma CostWithinHalfQuantum(tokens: nat, rate: nat)
    ensures -500 <= 1000 * TokensToCost(tokens, rate) - tokens * rate <= 500
  {
    if tokens > 0 && rate > 0 {
      RoundBracket(tokens * rate, 1000);
    } else {
      assert tokens * rate == 0;
    }
  }
}
