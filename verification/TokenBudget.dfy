/** The turn's token budget: when the loop may continue on budget, and what the counters of its
    diminishing-returns test add up to. */
module TokenBudget {

  const DEFAULT_COMPLETION_THRESHOLD := 0.9
  const DEFAULT_DIMINISHING_TOKENS := 500

  datatype BudgetConfig = BudgetConfig(
    turnTokenBudget: int, continuationLimit: int, completionThreshold: real, diminishingThreshold: int)
  {
    /** resolveTurnTokenBudget: the request's budget wins. */
    function Resolve(requested: int): int {
      if requested > 0 then requested else turnTokenBudget
    }

    function Completion(): (c: real)
      ensures c > 0.0
    {
      if completionThreshold <= 0.0 then DEFAULT_COMPLETION_THRESHOLD else completionThreshold
    }

    function Diminishing(): (t: int)
      ensures t > 0
    {
      if diminishingThreshold <= 0 then DEFAULT_DIMINISHING_TOKENS else diminishingThreshold
    }
  }

  /** The three counters of the budget logic. */
  datatype Counters = Counters(count: nat, lastCheck: int, lastDelta: int)

  const Fresh := Counters(0, 0, 0)

  /** maybeContinueForBudget: whether it grants a continuation. */
  predicate Grants(cfg: BudgetConfig, requested: int, b: Counters, total: int, moreToCome: bool) {
    var budget := cfg.Resolve(requested);
    && budget > 0
    && !(b.count >= cfg.continuationLimit && cfg.continuationLimit > 0)
    && moreToCome
    && !(b.count >= 2 && total - b.lastCheck < cfg.Diminishing() && b.lastDelta < cfg.Diminishing())
    && total as real / budget as real < cfg.Completion()
  }

  function Granted(b: Counters, total: int): Counters {
    Counters(b.count + 1, total, total - b.lastCheck)
  }

  /** What k grants have cost at least: every second grant from the third on stands for T tokens. */
  function Spent(k: int, t: int): int {
    if k <= 2 then 0 else Spent(k - 2, t) + t
  }

  lemma {:induction false} SpentIsHalf(k: int, t: int)
    ensures k >= 1 ==> Spent(k, t) == (k - 1) / 2 * t
  {
    if k > 2 {
      SpentIsHalf(k - 2, t);
    }
  }

  /** The counters against the total: the recorded deltas telescope, and no two consecutive ones are
      both below the threshold from the third grant on. */
  ghost predicate Accounted(cfg: BudgetConfig, requested: int, b: Counters, total: int) {
    && b.lastCheck <= total
    && (b.count == 0 ==> b == Fresh)
    && (b.count > 0 ==>
          && 0 <= b.lastDelta <= b.lastCheck
          && cfg.Resolve(requested) > 0
          && b.lastCheck as real < cfg.Completion() * cfg.Resolve(requested) as real
          && (if b.count % 2 == 1 then b.lastCheck else b.lastCheck - b.lastDelta) >= Spent(b.count, cfg.Diminishing()))
  }

  lemma Percentage(total: int, budget: int, c: real)
    requires budget > 0
    ensures total as real / budget as real < c <==> total as real < c * budget as real
  {
    var pct := total as real / budget as real;
    assert pct * budget as real == total as real;
    if pct < c {
      assert pct * budget as real < c * budget as real;
    }
    if c <= pct {
      assert c * budget as real <= pct * budget as real;
    }
  }

  /** A grant keeps the account. */
  lemma GrantKeepsAccount(cfg: BudgetConfig, requested: int, b: Counters, total: int, moreToCome: bool)
    requires Accounted(cfg, requested, b, total) && Grants(cfg, requested, b, total, moreToCome)
    ensures Accounted(cfg, requested, Granted(b, total), total)
  {
    hide Spent;
    GrantIsBelow(cfg, requested, b, total, moreToCome);
    SpentMonotone(b.count, cfg.Diminishing());
  }

  lemma GrantIsBelow(cfg: BudgetConfig, requested: int, b: Counters, total: int, moreToCome: bool)
    requires Grants(cfg, requested, b, total, moreToCome)
    ensures total as real < cfg.Completion() * cfg.Resolve(requested) as real
  {
    Percentage(total, cfg.Resolve(requested), cfg.Completion());
  }

  lemma {:induction false} SpentMonotone(k: int, t: int)
    requires t >= 0
    ensures k % 2 == 1 ==> Spent(k + 1, t) == Spent(k, t)
    ensures k % 2 == 0 ==> Spent(k + 1, t) == if k >= 2 then Spent(k, t) + t else 0
  {
    if k > 2 {
      SpentMonotone(k - 2, t);
    }
  }

  /** After k grants, floor((k - 1) / 2) * T tokens had been used at the last one, and that was still
      below the completion threshold of the budget. */
  lemma GrantsAreSpent(cfg: BudgetConfig, requested: int, b: Counters, total: int)
    requires Accounted(cfg, requested, b, total) && b.count > 0
    ensures (b.count - 1) / 2 * cfg.Diminishing() <= b.lastCheck
    ensures b.lastCheck as real < cfg.Completion() * cfg.Resolve(requested) as real
    ensures ((b.count - 1) / 2 * cfg.Diminishing()) as real < cfg.Completion() * cfg.Resolve(requested) as real
  {
    SpentIsHalf(b.count, cfg.Diminishing());
  }

  /** A grant is refused exactly for one of the five reasons, in terms of whole tokens. */
  lemma GrantsIff(cfg: BudgetConfig, requested: int, b: Counters, total: int, moreToCome: bool)
    ensures Grants(cfg, requested, b, total, moreToCome) <==>
      && cfg.Resolve(requested) > 0 && moreToCome
      && (cfg.continuationLimit > 0 ==> b.count < cfg.continuationLimit)
      && (b.count >= 2 ==> total - b.lastCheck >= cfg.Diminishing() || b.lastDelta >= cfg.Diminishing())
      && total as real < cfg.Completion() * cfg.Resolve(requested) as real
  {
    if cfg.Resolve(requested) > 0 {
      Percentage(total, cfg.Resolve(requested), cfg.Completion());
    }
  }
}
