/** Buying upgrades (`canBuyUpgrade`, `buyUpgrade`) and researching
    techniques (the click handler of a rendered technique). */
module Purchase {
  import opened Optional
  import opened Catalog
  import opened Levels
  import opened Effects
  import opened GameState
  import opened Costs
  import opened Recalc

  /** `canBuyUpgrade(upgrade)`: below the level cap, every prerequisite
      met, and the current cost affordable. */
  function CanBuyUpgrade(g: Game, u: UpgradeId): (ok: bool)
    ensures LevelOf(g.upgrades, u) >= MaxLevel(u) ==> !ok
    ensures (exists v :: v in Requires(u) && LevelOf(g.upgrades, v) < Requires(u)[v]) ==> !ok
    ensures !CanAfford(g, UpgradeCost(u, LevelOf(g.upgrades, u))) ==> !ok
    ensures (&& LevelOf(g.upgrades, u) < MaxLevel(u)
             && RequirementsMet(g.upgrades, Requires(u))
             && CanAfford(g, UpgradeCost(u, LevelOf(g.upgrades, u)))) ==> ok
  {
    var level := LevelOf(g.upgrades, u);
    level < MaxLevel(u)
    && RequirementsMet(g.upgrades, Requires(u))
    && CanAfford(g, UpgradeCost(u, level))
  }

  /** Store `level + 1` as the level of `u`. */
  function Raise(g: Game, u: UpgradeId, level: nat): (r: Game)
    ensures r.upgrades == SetLevel(g.upgrades, u, level + 1)
    ensures r == g.(upgrades := r.upgrades)
  {
    g.(upgrades := SetLevel(g.upgrades, u, level + 1))
  }

  /** The body of `buyUpgrade` past its checks: pay the current level's
      cost, store one level more, recompute. */
  function PayAndRaise(g: Game, u: UpgradeId): Game {
    Recompute(Raise(Spend(g, UpgradeCost(u, LevelOf(g.upgrades, u))), u, LevelOf(g.upgrades, u)))
  }

  /** Raising sets that upgrade's level and no other, and keeps the store
      free of duplicates. */
  lemma RaiseLevels(g: Game, u: UpgradeId, level: nat)
    ensures LevelOf(Raise(g, u, level).upgrades, u) == level + 1
    ensures forall v :: v != u ==> LevelOf(Raise(g, u, level).upgrades, v) == LevelOf(g.upgrades, v)
    ensures Distinct(g.upgrades) ==> Distinct(Raise(g, u, level).upgrades)
  {
    var store := SetLevel(g.upgrades, u, level + 1);
    assert Raise(g, u, level).upgrades == store;
    if Distinct(g.upgrades) {
      SetLevelKeepsDistinct(g.upgrades, u, level + 1);
    }
  }

  /** A purchase that passed its checks raises that upgrade by one level,
      within its cap, and no other. */
  lemma PayAndRaiseLevels(g: Game, u: UpgradeId)
    requires LevelOf(g.upgrades, u) < MaxLevel(u)
    ensures var r := PayAndRaise(g, u);
      && LevelOf(r.upgrades, u) == LevelOf(g.upgrades, u) + 1 <= MaxLevel(u)
      && (forall v :: v != u ==> LevelOf(r.upgrades, v) == LevelOf(g.upgrades, v))
      && (Distinct(g.upgrades) ==> Distinct(r.upgrades))
  {
    var level := LevelOf(g.upgrades, u);
    var paid := Spend(g, UpgradeCost(u, level));
    var bought := Raise(paid, u, level);
    assert PayAndRaise(g, u) == Recompute(bought);
    RaiseLevels(paid, u, level);
  }

  /** The store a purchase leaves: `level + 1` written under the key, in
      place if it is already stored and last if not. */
  lemma PayAndRaiseStore(g: Game, u: UpgradeId)
    ensures PayAndRaise(g, u).upgrades == SetLevel(g.upgrades, u, LevelOf(g.upgrades, u) + 1)
  {
    RaiseStore(g, u);
    PayAndRaiseUnfolds(g, u);
  }

  lemma RaiseStore(g: Game, u: UpgradeId)
    ensures Recompute(Raise(Spend(g, UpgradeCost(u, LevelOf(g.upgrades, u))), u, LevelOf(g.upgrades, u))).upgrades
         == SetLevel(g.upgrades, u, LevelOf(g.upgrades, u) + 1)
  {
  }


  lemma PayAndRaiseUnfolds(g: Game, u: UpgradeId)
    ensures PayAndRaise(g, u).upgrades
         == Recompute(Raise(Spend(g, UpgradeCost(u, LevelOf(g.upgrades, u))), u, LevelOf(g.upgrades, u))).upgrades
  {
  }

  /** A purchase that passed its checks pays exactly the current level's
      cost, and balances stay non-negative. */
  lemma PayAndRaiseBalances(g: Game, u: UpgradeId)
    requires CanBuyUpgrade(g, u)
    ensures var r := PayAndRaise(g, u);
      var cost := UpgradeCost(u, LevelOf(g.upgrades, u));
      && (forall res :: res != Prestige ==>
            Balance(r, res) == Balance(g, res) - CostAmount(cost, res) as real)
      && r.prestige == g.prestige
      && r.techniques == g.techniques
      && (NonNegativeBalances(g) ==> NonNegativeBalances(r))
  {
    var level := LevelOf(g.upgrades, u);
    var paid := Spend(g, UpgradeCost(u, level));
    var bought := Raise(paid, u, level);
    assert PayAndRaise(g, u) == Recompute(bought);
    assert PayAndRaise(g, u) == bought.(stats := PayAndRaise(g, u).stats);
    forall res ensures Balance(bought, res) == Balance(paid, res) { }
  }

  /** A purchase leaves the stats freshly recomputed. */
  lemma PayAndRaiseRecomputed(g: Game, u: UpgradeId)
    ensures Recompute(PayAndRaise(g, u)) == PayAndRaise(g, u)
  {
    var level := LevelOf(g.upgrades, u);
    var paid := Spend(g, UpgradeCost(u, level));
    var bought := Raise(paid, u, level);
    assert PayAndRaise(g, u) == Recompute(bought);
    RecomputeIdempotent(bought);
  }

  /** A purchase touches only the balances, the levels and the stats, and
      the stats are those of the game with its new levels. */
  lemma PayAndRaiseFrame(g: Game, u: UpgradeId)
    ensures var r := PayAndRaise(g, u);
      && r == g.(qi := r.qi, daoMarks := r.daoMarks, insight := r.insight,
                 upgrades := r.upgrades, stats := r.stats)
      && r.stats == Recompute(g.(upgrades := r.upgrades)).stats
  {
    var level := LevelOf(g.upgrades, u);
    var paid := Spend(g, UpgradeCost(u, level));
    assert paid == g.(qi := paid.qi, daoMarks := paid.daoMarks, insight := paid.insight);
    assert PayAndRaise(g, u) == Recompute(Raise(paid, u, level));
  }

  /** `buyUpgrade(upgradeId)`. An unknown key or an upgrade that cannot be
      bought fails and changes nothing. A purchase pays exactly the cost
      of the current level, raises that upgrade (and no other) by one
      level, never past its cap, keeps balances non-negative, and leaves
      the stats freshly recomputed. */
  function BuyUpgrade(g: Game, key: string): (r: Outcome)
    ensures !r.ok ==> r.game == g
    ensures r.ok <==> UpgradeOfKey(key).Some? && CanBuyUpgrade(g, UpgradeOfKey(key).value)
    ensures r.ok ==>
      var u := UpgradeOfKey(key).value;
      var cost := UpgradeCost(u, LevelOf(g.upgrades, u));
      && UpgradeKey(u) == key
      && LevelOf(r.game.upgrades, u) == LevelOf(g.upgrades, u) + 1 <= MaxLevel(u)
      && (forall v :: v != u ==> LevelOf(r.game.upgrades, v) == LevelOf(g.upgrades, v))
      && (forall res :: res != Prestige ==>
            Balance(r.game, res) == Balance(g, res) - CostAmount(cost, res) as real)
      && r.game.prestige == g.prestige
      && r.game.techniques == g.techniques
      && (NonNegativeBalances(g) ==> NonNegativeBalances(r.game))
      && Recompute(r.game) == r.game
      && r.game == g.(qi := r.game.qi, daoMarks := r.game.daoMarks, insight := r.game.insight,
                      upgrades := r.game.upgrades, stats := r.game.stats)
      && r.game.stats == Recompute(g.(upgrades := r.game.upgrades)).stats
    ensures r.ok && Distinct(g.upgrades) ==> Distinct(r.game.upgrades)
    ensures r.ok ==>
      var u := UpgradeOfKey(key).value;
      r.game.upgrades == SetLevel(g.upgrades, u, LevelOf(g.upgrades, u) + 1)
  {
    match UpgradeOfKey(key)
    case None => Outcome(false, g)
    case Some(u) =>
      if !CanBuyUpgrade(g, u) then Outcome(false, g)
      else
        PayAndRaiseLevels(g, u);
        PayAndRaiseStore(g, u);
        PayAndRaiseBalances(g, u);
        PayAndRaiseRecomputed(g, u);
        PayAndRaiseFrame(g, u);
        Outcome(true, PayAndRaise(g, u))
  }

  /** A maxed upgrade can never be bought, whatever the balances. */
  lemma MaxedNeverBought(g: Game, u: UpgradeId)
    requires LevelOf(g.upgrades, u) == MaxLevel(u)
    ensures !BuyUpgrade(g, UpgradeKey(u)).ok
  {
    KeyRoundTrip(u);
  }

  /** Whether a technique's prerequisites are met (it is rendered only then). */
  predicate TechniqueVisible(g: Game, t: TechniqueId) {
    RequirementsMet(g.upgrades, TechniqueRequires(t))
  }

  /** Researching a technique: the click handler is attached only to a
      technique that is visible, not yet researched and affordable; it
      pays, records the technique, applies it once and recomputes. */
  function Research(g: Game, t: TechniqueId): (r: Outcome)
    ensures !r.ok ==> r.game == g
    ensures r.ok <==> TechniqueVisible(g, t) && t !in g.techniques && CanAfford(g, TechniqueCost(t))
    ensures r.ok ==>
      && r.game.techniques == g.techniques + [t]
      && r.game.upgrades == g.upgrades
      && (forall res :: res != Prestige ==>
            Balance(r.game, res) == Balance(g, res) - CostAmount(TechniqueCost(t), res) as real)
      && r.game.prestige == g.prestige
      && (NonNegativeBalances(g) ==> NonNegativeBalances(r.game))
      && Recompute(r.game) == r.game
      && r.game == g.(qi := r.game.qi, daoMarks := r.game.daoMarks, insight := r.game.insight,
                      techniques := r.game.techniques, stats := r.game.stats)
      && r.game.stats == Recompute(g.(techniques := r.game.techniques)).stats
  {
    if !(TechniqueVisible(g, t) && t !in g.techniques && CanAfford(g, TechniqueCost(t))) then
      Outcome(false, g)
    else
      var paid := Spend(g, TechniqueCost(t));
      var learned := paid.(techniques := paid.techniques + [t]);
      var applied := learned.(stats := ApplyTechnique(t, learned.stats));
      RecomputeIdempotent(applied);
      Outcome(true, Recompute(applied))
  }

  /** The one-time `apply` inside the research handler leaves no trace:
      the recompute right after it resets the field it touched, so the
      recompute alone determines the stats. */
  lemma ResearchApplyIsOverwritten(g: Game, t: TechniqueId)
    requires Research(g, t).ok
    ensures Research(g, t).game
         == Recompute(Spend(g, TechniqueCost(t)).(techniques := g.techniques + [t]))
  {
    var learned := Spend(g, TechniqueCost(t)).(techniques := g.techniques + [t]);
    var applied := learned.(stats := ApplyTechnique(t, learned.stats));
    assert Reset(applied.stats) == Reset(learned.stats);
    RecomputeForgetsResetFields(learned, applied);
  }

  /** Research counts the technique exactly once: against the stats the
      game recomputes to, the Qi rate before tribute grows by half and
      nothing else changes. */
  lemma ResearchAddsHalf(g: Game, t: TechniqueId)
    requires Research(g, t).ok
    ensures var before, after := Recompute(g).stats, Research(g, t).game.stats;
      && after == before.(qiPerSecond := after.qiPerSecond)
      && after.qiPerSecond - TributeBonus(g.prestige) == 1.5 * (before.qiPerSecond - TributeBonus(g.prestige))
  {
    RecomputeTechniqueAddsHalf(g, t);
  }
}
