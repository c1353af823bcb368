/** Upgrade cost scaling, the affordability check and the spend. */
module Costs {
  import opened Numbers
  import opened Catalog
  import opened GameState

  /** The amount a cost object asks for; an absent key reads as zero. */
  function CostAmount(c: Cost, r: Resource): int {
    if r in c then c[r] else 0
  }

  /** Every amount of `base` scaled by `mult^level` and rounded down. */
  function ScaledCost(base: Cost, mult: real, level: nat): (c: Cost)
    ensures c.Keys == base.Keys
  {
    map r | r in base :: (base[r] as real * Pow(mult, level)).Floor
  }

  /** Looking up one scaled amount. */
  lemma ScaledCostAt(base: Cost, mult: real, level: nat, r: Resource)
    requires r in base
    ensures ScaledCost(base, mult, level)[r] == (base[r] as real * Pow(mult, level)).Floor
  {
  }

  /** Each scaled amount is the largest whole number not above the exact
      product. */
  lemma ScaledCostRoundsDown(base: Cost, mult: real, level: nat, r: Resource)
    requires r in base
    ensures var c := ScaledCost(base, mult, level)[r];
      c as real <= base[r] as real * Pow(mult, level) < c as real + 1.0
  {
    ScaledCostAt(base, mult, level, r);
  }

  /** With non-negative amounts and a multiplier of at least one, no
      amount falls as the level rises. */
  lemma ScaledCostMonotone(base: Cost, mult: real, level: nat, r: Resource)
    requires r in base && base[r] >= 0 && mult >= 1.0
    ensures ScaledCost(base, mult, level)[r] <= ScaledCost(base, mult, level + 1)[r]
  {
    PowGrows(mult, level);
    ScaleFloorMonotone(base[r] as real, Pow(mult, level), Pow(mult, level + 1));
    ScaledCostAt(base, mult, level, r);
    ScaledCostAt(base, mult, level + 1, r);
  }

  /** Non-negative amounts and a non-negative multiplier scale to
      non-negative amounts. */
  lemma ScaledCostNonNegative(base: Cost, mult: real, level: nat, r: Resource)
    requires r in base && base[r] >= 0 && mult >= 1.0
    ensures ScaledCost(base, mult, level)[r] >= 0
  {
    var x := base[r] as real * Pow(mult, level);
    assert x >= 0.0 by {
      PowAtLeastOne(mult, level);
      ScaleMonotone(base[r] as real, 0.0, Pow(mult, level));
    }
    ScaledCostAt(base, mult, level, r);
  }

  /** At level 0 nothing is scaled. */
  lemma ScaledCostAtZero(base: Cost, mult: real)
    ensures ScaledCost(base, mult, 0) == base
  {
    var c := ScaledCost(base, mult, 0);
    forall r | r in c ensures c[r] == base[r] {
      assert c[r] == (base[r] as real * 1.0).Floor;
    }
  }

  /** `calculateUpgradeCost(upgrade, level)`. It names exactly the base
      cost's resources, asks for non-negative amounts, and at level 0 asks
      for the base cost itself. */
  function UpgradeCost(u: UpgradeId, level: nat): (c: Cost)
    ensures c.Keys == BaseCost(u).Keys
    ensures forall r :: r in c ==> c[r] >= 0
    ensures level == 0 ==> c == BaseCost(u)
  {
    var base, mult := BaseCost(u), CostMultiplier(u);
    MultiplierAtLeastOne(u);
    ScaledCostAtZero(base, mult);
    assert forall r :: r in base ==> ScaledCost(base, mult, level)[r] >= 0 by {
      forall r | r in base ensures ScaledCost(base, mult, level)[r] >= 0 {
        BaseCostPositive(u, r);
        ScaledCostNonNegative(base, mult, level, r);
      }
    }
    ScaledCost(base, mult, level)
  }

  /** Each upgrade cost is `floor(base * costMultiplier^level)`: the largest
      whole number not above the exact scaled amount. */
  lemma UpgradeCostRoundsDown(u: UpgradeId, level: nat, r: Resource)
    requires r in BaseCost(u)
    ensures var c := UpgradeCost(u, level)[r];
      c as real <= BaseCost(u)[r] as real * Pow(CostMultiplier(u), level) < c as real + 1.0
  {
    ScaledCostRoundsDown(BaseCost(u), CostMultiplier(u), level, r);
  }

  /** Upgrade costs never fall as the level rises. */
  lemma UpgradeCostMonotone(u: UpgradeId, level: nat, r: Resource)
    requires r in BaseCost(u)
    ensures UpgradeCost(u, level)[r] <= UpgradeCost(u, level + 1)[r]
  {
    BaseCostPositive(u, r);
    MultiplierAtLeastOne(u);
    ScaledCostMonotone(BaseCost(u), CostMultiplier(u), level, r);
  }

  /** Focused Breathing costs 5, 10 and 20 Dao Marks at levels 0, 1 and 2. */
  lemma FocusedBreathingCosts()
    ensures UpgradeCost(FocusedBreathing, 0) == map[DaoMarks := 5]
    ensures UpgradeCost(FocusedBreathing, 1) == map[DaoMarks := 10]
    ensures UpgradeCost(FocusedBreathing, 2) == map[DaoMarks := 20]
  {
    assert Pow(2.0, 1) == 2.0;
    assert Pow(2.0, 2) == 4.0;
  }

  /** `canAfford(cost)`: each of Qi, Dao Marks and Insight is checked only
      when the cost names it with a non-zero amount; Prestige is never
      checked. */
  function CanAfford(g: Game, c: Cost): (ok: bool)
    ensures ok <==> forall r :: r != Prestige && CostAmount(c, r) != 0 ==>
                                 Balance(g, r) >= CostAmount(c, r) as real
  {
    && !(CostAmount(c, Qi) != 0 && g.qi < CostAmount(c, Qi) as real)
    && !(CostAmount(c, DaoMarks) != 0 && g.daoMarks < CostAmount(c, DaoMarks) as real)
    && !(CostAmount(c, Insight) != 0 && g.insight < CostAmount(c, Insight) as real)
  }

  /** `spendResources(cost)`: deduct Qi, Dao Marks and Insight; Prestige
      and everything else are left alone. */
  function Spend(g: Game, c: Cost): (r: Game)
    ensures forall res :: res != Prestige ==>
      Balance(r, res) == Balance(g, res) - CostAmount(c, res) as real
    ensures r == g.(qi := r.qi, daoMarks := r.daoMarks, insight := r.insight)
    ensures r.upgrades == g.upgrades && r.techniques == g.techniques && r.prestige == g.prestige
    ensures CanAfford(g, c) && NonNegativeBalances(g) ==> NonNegativeBalances(r)
  {
    g.(qi := if CostAmount(c, Qi) != 0 then g.qi - CostAmount(c, Qi) as real else g.qi,
       daoMarks := if CostAmount(c, DaoMarks) != 0 then g.daoMarks - CostAmount(c, DaoMarks) as real else g.daoMarks,
       insight := if CostAmount(c, Insight) != 0 then g.insight - CostAmount(c, Insight) as real else g.insight)
  }
}
