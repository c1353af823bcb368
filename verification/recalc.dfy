/** `recalculateStats`: the full rebuild of the derived stats from the
    purchased levels, the researched techniques and Prestige. */
module Recalc {
  import opened Optional
  import opened Numbers
  import opened Catalog
  import opened Levels
  import opened Effects
  import opened GameState

  /** Step 1: reset to base values. `maxQi`, `insightPerSecond` and
      `tributePerSecond` are NOT reset. */
  function Reset(s: Stats): Stats {
    s.(qiPerClick := 1.0, qiPerSecond := 0.0, marksPerSecond := 0.0, marksPerClick := 0.0,
       globalMultiplier := 1.0, qiMultiplier := 1.0, markMultiplier := 1.0,
       refineBonus := 0.0, refineCostReduction := 0.0)
  }

  /** Step 2: replay every stored upgrade, in the store's insertion order,
      with its stored level (level 0 included). */
  function ReplayUpgrades(s: Stats, store: Store): Stats
    decreases |store|
  {
    if |store| == 0 then s
    else ReplayUpgrades(ApplyUpgrade(store[0].id, s, store[0].level), store[1..])
  }

  /** Step 3: replay every researched technique, in research order. */
  function ReplayTechniques(s: Stats, ts: seq<TechniqueId>): Stats
    decreases |ts|
  {
    if |ts| == 0 then s else ReplayTechniques(ApplyTechnique(ts[0], s), ts[1..])
  }

  /** Step 4: the compound multipliers. */
  function ApplyMultipliers(s: Stats): Stats {
    s.(qiPerSecond := s.qiPerSecond * (s.qiMultiplier * s.globalMultiplier),
       marksPerSecond := s.marksPerSecond * (s.markMultiplier * s.globalMultiplier),
       marksPerClick := s.marksPerClick * (s.markMultiplier * s.globalMultiplier))
  }

  /** `Math.floor(prestige / 10)`. */
  function Tribute(prestige: real): real {
    (prestige / 10.0).Floor as real
  }

  /** Step 5: tribute, written only when Prestige is positive. */
  function AddTribute(s: Stats, prestige: real): Stats {
    if prestige > 0.0 then
      s.(tributePerSecond := Tribute(prestige), qiPerSecond := s.qiPerSecond + Tribute(prestige))
    else s
  }

  function Rebuild(s: Stats, store: Store, ts: seq<TechniqueId>, prestige: real): Stats {
    AddTribute(ApplyMultipliers(ReplayTechniques(ReplayUpgrades(Reset(s), store), ts)), prestige)
  }

  // ----- The three fields recompute does not reset -----

  /** The last value the replay writes to `maxQi`, if any. */
  function MaxQiAfter(store: Store): Option<real> {
    if |store| == 0 then None
    else
      var later := MaxQiAfter(store[1..]);
      if later.Some? then later else MaxQiWrite(store[0].id, store[0].level)
  }

  /** The last value the replay writes to `insightPerSecond`, if any. */
  function InsightAfter(store: Store): Option<real> {
    if |store| == 0 then None
    else
      var later := InsightAfter(store[1..]);
      if later.Some? then later else InsightWrite(store[0].id, store[0].level)
  }

  /** The replay never reads the kept fields, and each ends up with the last
      value written to it, or its old value when nothing wrote it. */
  lemma {:induction false} ReplayUpgradesCarry(store: Store, s: Stats, m: real, i: real, t: real)
    ensures ReplayUpgrades(s.(maxQi := m, insightPerSecond := i, tributePerSecond := t), store)
         == ReplayUpgrades(s, store).(maxQi := Otherwise(MaxQiAfter(store), m),
                                      insightPerSecond := Otherwise(InsightAfter(store), i),
                                      tributePerSecond := t)
  {
    if |store| > 0 {
      var e := store[0];
      ApplyUpgradeCarry(e.id, s, e.level, m, i, t);
      ReplayUpgradesCarry(store[1..], ApplyUpgrade(e.id, s, e.level),
                          Otherwise(MaxQiWrite(e.id, e.level), m), Otherwise(InsightWrite(e.id, e.level), i), t);
    }
  }

  lemma {:induction false} ReplayTechniquesCarry(ts: seq<TechniqueId>, s: Stats, m: real, i: real, t: real)
    ensures ReplayTechniques(s.(maxQi := m, insightPerSecond := i, tributePerSecond := t), ts)
         == ReplayTechniques(s, ts).(maxQi := m, insightPerSecond := i, tributePerSecond := t)
  {
    if |ts| > 0 {
      ReplayTechniquesCarry(ts[1..], ApplyTechnique(ts[0], s), m, i, t);
    }
  }

  /** How the whole rebuild treats the kept fields. */
  lemma RebuildCarry(s: Stats, store: Store, ts: seq<TechniqueId>, p: real, m: real, i: real, t: real)
    ensures Rebuild(s.(maxQi := m, insightPerSecond := i, tributePerSecond := t), store, ts, p)
         == Rebuild(s, store, ts, p).(maxQi := Otherwise(MaxQiAfter(store), m),
                                      insightPerSecond := Otherwise(InsightAfter(store), i),
                                      tributePerSecond := if p > 0.0 then Tribute(p) else t)
  {
    var s0 := Reset(s);
    assert Reset(s.(maxQi := m, insightPerSecond := i, tributePerSecond := t))
        == s0.(maxQi := m, insightPerSecond := i, tributePerSecond := t);
    ReplayUpgradesCarry(store, s0, m, i, t);
    var u := ReplayUpgrades(s0, store);
    var m', i' := Otherwise(MaxQiAfter(store), m), Otherwise(InsightAfter(store), i);
    ReplayTechniquesCarry(ts, u, m', i', t);
  }

  /** Rebuilding twice gives what rebuilding once gave. */
  lemma RebuildIdempotent(s: Stats, store: Store, ts: seq<TechniqueId>, p: real)
    ensures Rebuild(Rebuild(s, store, ts, p), store, ts, p) == Rebuild(s, store, ts, p)
  {
    var s1 := Rebuild(s, store, ts, p);
    RebuildCarry(s, store, ts, p, s.maxQi, s.insightPerSecond, s.tributePerSecond);
    assert s.(maxQi := s.maxQi, insightPerSecond := s.insightPerSecond, tributePerSecond := s.tributePerSecond) == s;
    var c := s.(maxQi := s1.maxQi, insightPerSecond := s1.insightPerSecond, tributePerSecond := s1.tributePerSecond);
    assert Reset(s1) == Reset(c);
    RebuildCarry(s, store, ts, p, s1.maxQi, s1.insightPerSecond, s1.tributePerSecond);
  }

  /** In a store without duplicate keys the last write to `maxQi` is the
      Dantian Expansion entry's. */
  lemma {:induction false} MaxQiAfterDistinct(store: Store)
    requires Distinct(store)
    ensures MaxQiAfter(store) ==
      if DantianExpansion in Ids(store)
      then Some(100.0 + LevelOf(store, DantianExpansion) as real * 50.0) else None
  {
    if |store| > 0 {
      assert store == [store[0]] + store[1..];
      IdsCons(store[0], store[1..]);
      DistinctCons(store[0], store[1..]);
      MaxQiAfterDistinct(store[1..]);
    }
  }

  /** In a store without duplicate keys `insightPerSecond` is written
      exactly when Divine Sense Awakening is at level 1 or more. */
  lemma {:induction false} InsightAfterDistinct(store: Store)
    requires Distinct(store)
    ensures InsightAfter(store) ==
      if LevelOf(store, DivineSenseAwakening) >= 1 then Some(0.1) else None
  {
    if |store| > 0 {
      assert store == [store[0]] + store[1..];
      IdsCons(store[0], store[1..]);
      DistinctCons(store[0], store[1..]);
      InsightAfterDistinct(store[1..]);
    }
  }

  /** In a store without duplicate keys the refine bonus is the Manual
      Refinement level and the refine cost reduction the Mental Clarity
      level, in any purchase order: each field has one writer, and it
      overwrites. Without that entry the field keeps its value. */
  lemma {:induction false} ReplayRefineFields(s: Stats, store: Store)
    requires Distinct(store)
    ensures ReplayUpgrades(s, store).refineBonus ==
      if ManualRefinement in Ids(store) then LevelOf(store, ManualRefinement) as real else s.refineBonus
    ensures ReplayUpgrades(s, store).refineCostReduction ==
      if MentalClarity in Ids(store) then LevelOf(store, MentalClarity) as real else s.refineCostReduction
    decreases |store|
  {
    if |store| > 0 {
      assert store == [store[0]] + store[1..];
      IdsCons(store[0], store[1..]);
      DistinctCons(store[0], store[1..]);
      ReplayRefineFields(ApplyUpgrade(store[0].id, s, store[0].level), store[1..]);
    }
  }

  /** After a rebuild from a store without duplicate keys, the refine bonus
      and cost reduction equal the Manual Refinement and Mental Clarity
      levels. */
  lemma RebuildRefineLevels(s: Stats, store: Store, ts: seq<TechniqueId>, p: real)
    ensures Distinct(store) ==>
      Rebuild(s, store, ts, p).refineBonus == LevelOf(store, ManualRefinement) as real
    ensures Distinct(store) ==>
      Rebuild(s, store, ts, p).refineCostReduction == LevelOf(store, MentalClarity) as real
  {
    if Distinct(store) {
      ReplayRefineFields(Reset(s), store);
      ReplayTechniquesFrame(ReplayUpgrades(Reset(s), store), ts);
    }
  }

  /** No upgrade effect touches `marksPerSecond` or `qiMultiplier`. */
  lemma {:induction false} ReplayUpgradesFrame(s: Stats, store: Store)
    ensures ReplayUpgrades(s, store).marksPerSecond == s.marksPerSecond
    ensures ReplayUpgrades(s, store).qiMultiplier == s.qiMultiplier
    decreases |store|
  {
    if |store| > 0 {
      ReplayUpgradesFrame(ApplyUpgrade(store[0].id, s, store[0].level), store[1..]);
    }
  }

  lemma {:induction false} ReplayTechniquesFrame(s: Stats, ts: seq<TechniqueId>)
    ensures ReplayTechniques(s, ts).marksPerSecond == s.marksPerSecond
    ensures ReplayTechniques(s, ts).refineBonus == s.refineBonus
    ensures ReplayTechniques(s, ts).refineCostReduction == s.refineCostReduction
    decreases |ts|
  {
    if |ts| > 0 {
      ReplayTechniquesFrame(ApplyTechnique(ts[0], s), ts[1..]);
    }
  }

  lemma {:induction false} ReplayUpgradesSane(s: Stats, store: Store)
    requires Sane(s)
    ensures Sane(ReplayUpgrades(s, store))
    decreases |store|
  {
    if |store| > 0 {
      ApplyUpgradeSane(store[0].id, s, store[0].level);
      ReplayUpgradesSane(ApplyUpgrade(store[0].id, s, store[0].level), store[1..]);
    }
  }

  lemma {:induction false} ReplayTechniquesSane(s: Stats, ts: seq<TechniqueId>)
    requires Sane(s)
    ensures Sane(ReplayTechniques(s, ts))
    decreases |ts|
  {
    if |ts| > 0 {
      ReplayTechniquesSane(ApplyTechnique(ts[0], s), ts[1..]);
    }
  }

  /** A rebuild from a non-negative insight rate and non-negative Prestige
      yields non-negative rates and multipliers of at least one. */
  lemma RebuildSane(s: Stats, store: Store, ts: seq<TechniqueId>, p: real)
    requires s.insightPerSecond >= 0.0 && p >= 0.0
    ensures Sane(Rebuild(s, store, ts, p))
  {
    ReplayUpgradesSane(Reset(s), store);
    var t := ReplayTechniques(ReplayUpgrades(Reset(s), store), ts);
    ReplayTechniquesSane(ReplayUpgrades(Reset(s), store), ts);
    assert t.markMultiplier * t.globalMultiplier >= 1.0 by {
      ScaleMonotone(t.markMultiplier, 1.0, t.globalMultiplier);
    }
    assert t.qiMultiplier * t.globalMultiplier >= 1.0 by {
      ScaleMonotone(t.qiMultiplier, 1.0, t.globalMultiplier);
    }
    ScaleMonotone(t.qiPerSecond, 0.0, t.qiMultiplier * t.globalMultiplier);
    ScaleMonotone(t.marksPerSecond, 0.0, t.markMultiplier * t.globalMultiplier);
    ScaleMonotone(t.marksPerClick, 0.0, t.markMultiplier * t.globalMultiplier);
    if p > 0.0 {
      assert Tribute(p) >= 0.0 by { FloorMonotone(0.0, p / 10.0); }
    }
  }

  /** What a rebuild keeps, writes and never feeds. */
  lemma RebuildFacts(s: Stats, store: Store, ts: seq<TechniqueId>, p: real)
    ensures Rebuild(s, store, ts, p).marksPerSecond == 0.0
    ensures s.insightPerSecond >= 0.0 && p >= 0.0 ==> Sane(Rebuild(s, store, ts, p))
    ensures Distinct(store) ==>
              Rebuild(s, store, ts, p).maxQi ==
                (if DantianExpansion in Ids(store)
                 then 100.0 + LevelOf(store, DantianExpansion) as real * 50.0 else s.maxQi)
    ensures Distinct(store) ==>
              Rebuild(s, store, ts, p).insightPerSecond ==
                (if LevelOf(store, DivineSenseAwakening) >= 1 then 0.1 else s.insightPerSecond)
    ensures Rebuild(s, store, ts, p).tributePerSecond ==
      if p > 0.0 then Tribute(p) else s.tributePerSecond
  {
    RebuildCarry(s, store, ts, p, s.maxQi, s.insightPerSecond, s.tributePerSecond);
    assert s.(maxQi := s.maxQi, insightPerSecond := s.insightPerSecond, tributePerSecond := s.tributePerSecond) == s;
    ReplayUpgradesFrame(Reset(s), store);
    ReplayTechniquesFrame(ReplayUpgrades(Reset(s), store), ts);
    if Distinct(store) {
      MaxQiAfterDistinct(store);
      InsightAfterDistinct(store);
    }
    if s.insightPerSecond >= 0.0 && p >= 0.0 {
      RebuildSane(s, store, ts, p);
    }
  }

  /** `recalculateStats()`. Only derived stats change; passive Dao Mark
      income is always zero (no effect feeds it); `maxQi` and
      `insightPerSecond` change only when an upgrade writes them, and
      tribute only when Prestige is positive. */
  function Recompute(g: Game): (r: Game)
    ensures r == g.(stats := r.stats)
    ensures r.upgrades == g.upgrades && r.techniques == g.techniques && r.prestige == g.prestige
    ensures r.stats.marksPerSecond == 0.0
    ensures g.stats.insightPerSecond >= 0.0 && g.prestige >= 0.0 ==> Sane(r.stats)
    ensures Distinct(g.upgrades) ==>
              r.stats.maxQi ==
                (if DantianExpansion in Ids(g.upgrades)
                 then 100.0 + LevelOf(g.upgrades, DantianExpansion) as real * 50.0 else g.stats.maxQi)
    ensures Distinct(g.upgrades) ==>
              r.stats.insightPerSecond ==
                (if LevelOf(g.upgrades, DivineSenseAwakening) >= 1 then 0.1 else g.stats.insightPerSecond)
    ensures r.stats.tributePerSecond ==
      if g.prestige > 0.0 then Tribute(g.prestige) else g.stats.tributePerSecond
  {
    RebuildFacts(g.stats, g.upgrades, g.techniques, g.prestige);
    g.(stats := Rebuild(g.stats, g.upgrades, g.techniques, g.prestige))
  }

  /** Recomputing is idempotent. */
  lemma RecomputeIdempotent(g: Game)
    ensures Recompute(Recompute(g)) == Recompute(g)
  {
    RebuildIdempotent(g.stats, g.upgrades, g.techniques, g.prestige);
  }

  /** Only the kept fields of the old stats matter: two games that differ
      only in fields the reset overwrites recompute to the same game. */
  lemma RecomputeForgetsResetFields(g: Game, h: Game)
    requires h == g.(stats := h.stats)
    requires Reset(h.stats) == Reset(g.stats)
    ensures Recompute(h) == Recompute(g)
  {
  }

  /** With nothing purchased, nothing researched and no Prestige the
      rebuild yields the base values. */
  lemma RecomputeFromScratch(g: Game)
    requires g.upgrades == [] && g.techniques == [] && g.prestige == 0.0
    ensures var s := Recompute(g).stats;
      && s.qiPerClick == 1.0 && s.qiPerSecond == 0.0 && s.marksPerClick == 0.0
      && s.marksPerSecond == 0.0 && s.refineBonus == 0.0 && s.refineCostReduction == 0.0
      && s.globalMultiplier == 1.0 && s.qiMultiplier == 1.0 && s.markMultiplier == 1.0
  {
  }

  /** Replaying a single entry applies it once. */
  lemma ReplayUpgradesSingle(s: Stats, e: Entry)
    ensures ReplayUpgrades(s, [e]) == ApplyUpgrade(e.id, s, e.level)
  {
    assert [e][1..] == [];
  }

  /** With Meridian Dredging the only purchase, Dao Marks per click equal
      its level, whatever has been researched and whatever the Prestige. */
  lemma RecomputeMeridianOnly(g: Game, level: nat)
    requires g.upgrades == [Entry(MeridianDredging, level)]
    ensures Recompute(g).stats.marksPerClick == level as real
  {
    var s := Reset(g.stats);
    var u := ReplayUpgrades(s, g.upgrades);
    ReplayUpgradesSingle(s, Entry(MeridianDredging, level));
    assert u.marksPerClick == level as real && u.markMultiplier == 1.0 && u.globalMultiplier == 1.0;
    ReplayTechniquesMarks(u, g.techniques);
  }

  /** Techniques leave click marks and the mark multipliers alone. */
  lemma {:induction false} ReplayTechniquesMarks(s: Stats, ts: seq<TechniqueId>)
    ensures ReplayTechniques(s, ts).marksPerClick == s.marksPerClick
    ensures ReplayTechniques(s, ts).markMultiplier == s.markMultiplier
    ensures ReplayTechniques(s, ts).globalMultiplier == s.globalMultiplier
    ensures ReplayTechniques(s, ts).qiPerClick == s.qiPerClick
    decreases |ts|
  {
    if |ts| > 0 {
      ReplayTechniquesMarks(ApplyTechnique(ts[0], s), ts[1..]);
    }
  }

  // ----- Techniques, the compound multipliers and tribute -----

  /** What tribute adds to the Qi rate: `floor(prestige / 10)` when
      Prestige is positive, nothing otherwise. */
  function TributeBonus(p: real): real {
    if p > 0.0 then Tribute(p) else 0.0
  }

  /** Every technique multiplies the Qi rate by 1.5 and touches nothing
      else, so replaying `ts` scales it by 1.5 once per technique. */
  lemma {:induction false} ReplayTechniquesScales(s: Stats, ts: seq<TechniqueId>)
    ensures ReplayTechniques(s, ts) == s.(qiPerSecond := s.qiPerSecond * Pow(1.5, |ts|))
    decreases |ts|
  {
    if |ts| > 0 {
      var a := ApplyTechnique(ts[0], s);
      ReplayTechniquesScales(a, ts[1..]);
      assert a.qiPerSecond == s.qiPerSecond * 1.5;
      assert Pow(1.5, |ts|) == 1.5 * Pow(1.5, |ts| - 1);
      assert a.qiPerSecond * Pow(1.5, |ts| - 1) == s.qiPerSecond * Pow(1.5, |ts|);
    }
  }

  /** Tribute is added to the Qi rate after the multipliers, so it is not
      multiplied; the rest of the rebuild does not depend on Prestige. */
  lemma TributeAddsToQiRate(s: Stats, store: Store, ts: seq<TechniqueId>, p: real)
    ensures var none := Rebuild(s, store, ts, 0.0);
      Rebuild(s, store, ts, p)
        == none.(qiPerSecond := none.qiPerSecond + TributeBonus(p),
                 tributePerSecond := if p > 0.0 then Tribute(p) else none.tributePerSecond)
  {
  }

  /** The last two steps, for the Qi rate, when the Qi multiplier is 1. */
  lemma FinishQiRate(t: Stats, p: real, q: real, n: nat, g: real)
    requires t.qiPerSecond == q * Pow(1.5, n) && t.qiMultiplier == 1.0 && t.globalMultiplier == g
    ensures AddTribute(ApplyMultipliers(t), p).qiPerSecond == BoostedQiRate(q, n, g) + TributeBonus(p)
  {
  }

  /** The last two steps, for Dao Marks per click. */
  lemma FinishClickMarks(t: Stats, p: real)
    ensures AddTribute(ApplyMultipliers(t), p).marksPerClick
         == ClickMarks(t.marksPerClick, t.markMultiplier, t.globalMultiplier)
  {
  }

  /** The Qi rate before tribute: the upgrade replay's rate `base`, times
      1.5 for each of `techniques` techniques, times the global multiplier. */
  function BoostedQiRate(base: real, techniques: nat, global: real): real {
    base * Pow(1.5, techniques) * global
  }

  /** One more technique multiplies the boosted rate by 1.5. */
  lemma BoostedQiRateStep(base: real, n: nat, global: real)
    ensures BoostedQiRate(base, n + 1, global) == 1.5 * BoostedQiRate(base, n, global)
  {
    assert Pow(1.5, n + 1) == 1.5 * Pow(1.5, n);
  }

  lemma TechniquesQiRate(u: Stats, ts: seq<TechniqueId>)
    ensures ReplayTechniques(u, ts).qiPerSecond == u.qiPerSecond * Pow(1.5, |ts|)
    ensures ReplayTechniques(u, ts).qiMultiplier == u.qiMultiplier
    ensures ReplayTechniques(u, ts).globalMultiplier == u.globalMultiplier
  {
    ReplayTechniquesScales(u, ts);
  }

  /** Steps 3 to 5 for the Qi rate, from the upgrade replay's result. */
  lemma FinishFromUpgrades(u: Stats, ts: seq<TechniqueId>, p: real)
    requires u.qiMultiplier == 1.0
    ensures AddTribute(ApplyMultipliers(ReplayTechniques(u, ts)), p).qiPerSecond
         == BoostedQiRate(u.qiPerSecond, |ts|, u.globalMultiplier) + TributeBonus(p)
  {
    TechniquesQiRate(u, ts);
    FinishQiRate(ReplayTechniques(u, ts), p, u.qiPerSecond, |ts|, u.globalMultiplier);
  }

  /** The Qi rate a rebuild ends with: the upgrade replay's rate, times 1.5
      per technique, times the global multiplier (no effect writes the Qi
      multiplier, which stays 1), plus tribute. */
  lemma RebuildQiRate(s: Stats, store: Store, ts: seq<TechniqueId>, p: real)
    ensures var u := ReplayUpgrades(Reset(s), store);
      Rebuild(s, store, ts, p).qiPerSecond
        == BoostedQiRate(u.qiPerSecond, |ts|, u.globalMultiplier) + TributeBonus(p)
  {
    ReplayUpgradesFrame(Reset(s), store);
    FinishFromUpgrades(ReplayUpgrades(Reset(s), store), ts, p);
  }

  /** One more technique multiplies the Qi rate before tribute by 1.5 and
      changes no other stat. */
  lemma TechniqueAddsHalf(s: Stats, store: Store, ts: seq<TechniqueId>, t: TechniqueId, p: real)
    ensures var before, after := Rebuild(s, store, ts, p), Rebuild(s, store, ts + [t], p);
      && after == before.(qiPerSecond := after.qiPerSecond)
      && after.qiPerSecond - TributeBonus(p) == 1.5 * (before.qiPerSecond - TributeBonus(p))
  {
    var u := ReplayUpgrades(Reset(s), store);
    ReplayTechniquesScales(u, ts);
    ReplayTechniquesScales(u, ts + [t]);
    RebuildQiRate(s, store, ts, p);
    RebuildQiRate(s, store, ts + [t], p);
    assert |ts + [t]| == |ts| + 1;
    BoostedQiRateStep(u.qiPerSecond, |ts|, u.globalMultiplier);
  }

  /** After `recalculateStats()`, researching one more technique multiplies
      the Qi rate before tribute by 1.5 and changes no other stat. */
  lemma RecomputeTechniqueAddsHalf(g: Game, t: TechniqueId)
    ensures var before := Recompute(g).stats;
      var after := Recompute(g.(techniques := g.techniques + [t])).stats;
      && after == before.(qiPerSecond := after.qiPerSecond)
      && after.qiPerSecond - TributeBonus(g.prestige) == 1.5 * (before.qiPerSecond - TributeBonus(g.prestige))
  {
    TechniqueAddsHalf(g.stats, g.upgrades, g.techniques, t, g.prestige);
  }

  /** Dao Marks per click as the multiplier step leaves them: the base
      times the mark multiplier times the global multiplier. */
  function ClickMarks(base: real, mark: real, global: real): real {
    base * (mark * global)
  }

  /** In a store without duplicate keys Meridian Dredging, the only writer
      of the click marks, sets them to its level, in any purchase order. */
  lemma {:induction false} ReplayClickBase(s: Stats, store: Store)
    requires Distinct(store)
    ensures ReplayUpgrades(s, store).marksPerClick ==
      if MeridianDredging in Ids(store) then LevelOf(store, MeridianDredging) as real else s.marksPerClick
    decreases |store|
  {
    if |store| > 0 {
      var e, rest := store[0], store[1..];
      assert store == [e] + rest;
      IdsCons(e, rest);
      DistinctCons(e, rest);
      ReplayClickBase(ApplyUpgrade(e.id, s, e.level), rest);
    }
  }

  /** `m * Math.pow(2, n)`: a multiplier doubled `n` times. */
  function Doubled(m: real, n: nat): real {
    m * Pow(2.0, n)
  }

  /** In a store without duplicate keys Golden Marrow Injection multiplies
      the mark multiplier by 2 to its level, in any purchase order. */
  lemma {:induction false} ReplayMarkMultiplier(s: Stats, store: Store)
    requires Distinct(store)
    ensures ReplayUpgrades(s, store).markMultiplier ==
      Doubled(s.markMultiplier, LevelOf(store, GoldenMarrowInjection))
    decreases |store|
  {
    if |store| > 0 {
      var e, rest := store[0], store[1..];
      assert store == [e] + rest;
      IdsCons(e, rest);
      DistinctCons(e, rest);
      var a := ApplyUpgrade(e.id, s, e.level);
      ReplayMarkMultiplier(a, rest);
      if e.id == GoldenMarrowInjection {
        assert LevelOf(rest, GoldenMarrowInjection) == 0;
        assert a.markMultiplier == Doubled(s.markMultiplier, e.level);
        DoubledZero(a.markMultiplier);
      } else {
        assert LevelOf(store, GoldenMarrowInjection) == LevelOf(rest, GoldenMarrowInjection);
      }
    } else {
      DoubledZero(s.markMultiplier);
    }
  }

  lemma DoubledZero(m: real)
    ensures Doubled(m, 0) == m
  {
  }

  lemma DoubledOne(n: nat)
    ensures Doubled(1.0, n) == Pow(2.0, n)
  {
  }

  /** In a store without duplicate keys Iron Skin Chant adds 0.05 per level
      to the global multiplier, in any purchase order. */
  lemma {:induction false} ReplayGlobalMultiplier(s: Stats, store: Store)
    requires Distinct(store)
    ensures ReplayUpgrades(s, store).globalMultiplier ==
      s.globalMultiplier + LevelOf(store, IronSkinChant) as real * 0.05
    decreases |store|
  {
    if |store| > 0 {
      var e, rest := store[0], store[1..];
      assert store == [e] + rest;
      IdsCons(e, rest);
      DistinctCons(e, rest);
      ReplayGlobalMultiplier(ApplyUpgrade(e.id, s, e.level), rest);
      if e.id == IronSkinChant {
        assert LevelOf(store, IronSkinChant) == e.level;
        assert LevelOf(rest, IronSkinChant) == 0;
      } else {
        assert LevelOf(store, IronSkinChant) == LevelOf(rest, IronSkinChant);
      }
    }
  }

  /** `recalculateStats()` on a store without duplicate keys: Dao Marks per
      click are the Meridian Dredging level, times 2 to the Golden Marrow
      Injection level, times 1 + 0.05 per Iron Skin Chant level. */
  lemma RecomputeClickMarks(g: Game)
    requires Distinct(g.upgrades)
    ensures Recompute(g).stats.marksPerClick ==
      ClickMarks(LevelOf(g.upgrades, MeridianDredging) as real,
                 Pow(2.0, LevelOf(g.upgrades, GoldenMarrowInjection)),
                 1.0 + LevelOf(g.upgrades, IronSkinChant) as real * 0.05)
  {
    var r := Reset(g.stats);
    var u := ReplayUpgrades(r, g.upgrades);
    ReplayClickBase(r, g.upgrades);
    ReplayMarkMultiplier(r, g.upgrades);
    ReplayGlobalMultiplier(r, g.upgrades);
    var t := ReplayTechniques(u, g.techniques);
    ReplayTechniquesMarks(u, g.techniques);
    FinishClickMarks(t, g.prestige);
    var power := Pow(2.0, LevelOf(g.upgrades, GoldenMarrowInjection));
    assert t.marksPerClick == LevelOf(g.upgrades, MeridianDredging) as real;
    DoubledOne(LevelOf(g.upgrades, GoldenMarrowInjection));
    assert t.markMultiplier == power;
    assert t.globalMultiplier == 1.0 + LevelOf(g.upgrades, IronSkinChant) as real * 0.05;
    assert Recompute(g).stats == Rebuild(g.stats, g.upgrades, g.techniques, g.prestige);
  }

  /** After `recalculateStats()` on a store without duplicate keys, the
      refine bonus is the Manual Refinement level and the refine cost
      reduction the Mental Clarity level, in any purchase order. */
  lemma RecomputeRefineLevels(g: Game)
    requires Distinct(g.upgrades)
    ensures Recompute(g).stats.refineBonus == LevelOf(g.upgrades, ManualRefinement) as real
    ensures Recompute(g).stats.refineCostReduction == LevelOf(g.upgrades, MentalClarity) as real
  {
    RebuildRefineLevels(g.stats, g.upgrades, g.techniques, g.prestige);
  }
}
