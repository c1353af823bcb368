/** The derived production stats and the `apply` effect of every upgrade
    and technique, written as pure functions `(Stats, level) -> Stats`. */
module Effects {
  import opened Optional
  import opened Numbers
  import opened Catalog

  datatype Stats = Stats(
    qiPerClick: real,
    qiPerSecond: real,
    marksPerClick: real,
    marksPerSecond: real,
    insightPerSecond: real,
    tributePerSecond: real,
    refineBonus: real,
    refineCostReduction: real,
    globalMultiplier: real,
    qiMultiplier: real,
    markMultiplier: real,
    maxQi: real)

  /** The values a new game starts with. */
  const InitialStats: Stats := Stats(
    qiPerClick := 1.0, qiPerSecond := 0.0, marksPerClick := 0.0, marksPerSecond := 0.0,
    insightPerSecond := 0.0, tributePerSecond := 0.0, refineBonus := 0.0,
    refineCostReduction := 0.0, globalMultiplier := 1.0, qiMultiplier := 1.0,
    markMultiplier := 1.0, maxQi := 100.0)

  /** `UPGRADES[u].apply(game, level)`. Some effects overwrite a field,
      some add to it and some multiply it, so the result depends on the
      order in which effects are replayed. */
  function ApplyUpgrade(u: UpgradeId, s: Stats, level: nat): (r: Stats)
    ensures u != FocusedBreathing && u != QiCompression ==> r.qiPerClick == s.qiPerClick
    ensures u !in {BreathingRhythm, AutonomicCycling, FiveVisceraRemoval, VoidPulseHeart} ==>
      r.qiPerSecond == s.qiPerSecond
    ensures u != ManualRefinement ==> r.refineBonus == s.refineBonus
    ensures u != MentalClarity ==> r.refineCostReduction == s.refineCostReduction
    ensures u != MeridianDredging ==> r.marksPerClick == s.marksPerClick
    ensures u != DantianExpansion ==> r.maxQi == s.maxQi
    ensures u != IronSkinChant ==> r.globalMultiplier == s.globalMultiplier
    ensures u != GoldenMarrowInjection ==> r.markMultiplier == s.markMultiplier
    ensures u != DivineSenseAwakening ==> r.insightPerSecond == s.insightPerSecond
    ensures r.marksPerSecond == s.marksPerSecond && r.tributePerSecond == s.tributePerSecond
    ensures r.qiMultiplier == s.qiMultiplier
  {
    var l := level as real;
    match u
    case FocusedBreathing => s.(qiPerClick := 1.0 + l)
    case ManualRefinement => s.(refineBonus := l)
    case MentalClarity => s.(refineCostReduction := l)
    case MeridianDredging => s.(marksPerClick := l)
    case BreathingRhythm => s.(qiPerSecond := s.qiPerSecond + l * 0.5)
    case DantianExpansion => s.(maxQi := 100.0 + l * 50.0)
    case QiCompression => s.(qiPerClick := s.qiPerClick + l * 2.0)
    case AutonomicCycling => if level >= 1 then s.(qiPerSecond := s.qiPerSecond + 2.0) else s
    case IronSkinChant => s.(globalMultiplier := s.globalMultiplier + l * 0.05)
    case GoldenMarrowInjection => s.(markMultiplier := s.markMultiplier * Pow(2.0, level))
    case FiveVisceraRemoval => if level >= 1 then s.(qiPerSecond := s.qiPerSecond + 10.0) else s
    case VoidPulseHeart => if level >= 1 then s.(qiPerSecond := s.qiPerSecond * 10.0) else s
    case DivineSenseAwakening => if level >= 1 then s.(insightPerSecond := 0.1) else s
  }

  /** `TECHNIQUES[t].apply(game)`: Breath Control raises Qi per second by
      half and leaves every other field alone. */
  function ApplyTechnique(t: TechniqueId, s: Stats): (r: Stats)
    ensures r == s.(qiPerSecond := r.qiPerSecond)
    ensures s.qiPerSecond >= 0.0 ==> s.qiPerSecond <= r.qiPerSecond
    ensures r.qiPerSecond * 2.0 == s.qiPerSecond * 3.0
  {
    match t
    case BreathControl => s.(qiPerSecond := s.qiPerSecond * 1.5)
  }

  /** How each effect combines with the value it finds: applied to two
      different stats, an overwriting effect leaves the same value in its
      field, an adding effect adds the same amount, and a multiplying
      effect scales by the same factor. */
  lemma EffectKinds(u: UpgradeId, s: Stats, t: Stats, level: nat)
    ensures var a, b := ApplyUpgrade(u, s, level), ApplyUpgrade(u, t, level);
      && (u == FocusedBreathing ==> a.qiPerClick == b.qiPerClick)
      && (u == ManualRefinement ==> a.refineBonus == b.refineBonus)
      && (u == MentalClarity ==> a.refineCostReduction == b.refineCostReduction)
      && (u == MeridianDredging ==> a.marksPerClick == b.marksPerClick)
      && (u == DantianExpansion ==> a.maxQi == b.maxQi)
      && (u == DivineSenseAwakening && level >= 1 ==> a.insightPerSecond == b.insightPerSecond)
      && (u == QiCompression ==> a.qiPerClick - s.qiPerClick == b.qiPerClick - t.qiPerClick)
      && (u in {BreathingRhythm, AutonomicCycling, FiveVisceraRemoval} ==>
            a.qiPerSecond - s.qiPerSecond == b.qiPerSecond - t.qiPerSecond)
      && (u == IronSkinChant ==>
            a.globalMultiplier - s.globalMultiplier == b.globalMultiplier - t.globalMultiplier)
      && (u == VoidPulseHeart ==> a.qiPerSecond * t.qiPerSecond == b.qiPerSecond * s.qiPerSecond)
      && (u == GoldenMarrowInjection ==>
            a.markMultiplier * t.markMultiplier == b.markMultiplier * s.markMultiplier)
  {
  }

  /** Production rates and bonuses are non-negative and every multiplier is
      at least one. */
  predicate Sane(s: Stats) {
    && s.qiPerClick >= 0.0 && s.qiPerSecond >= 0.0
    && s.marksPerClick >= 0.0 && s.marksPerSecond >= 0.0
    && s.insightPerSecond >= 0.0 && s.refineBonus >= 0.0
    && s.globalMultiplier >= 1.0 && s.qiMultiplier >= 1.0 && s.markMultiplier >= 1.0
  }

  /** No effect can make a rate negative or a multiplier drop below one. */
  lemma ApplyUpgradeSane(u: UpgradeId, s: Stats, level: nat)
    requires Sane(s)
    ensures Sane(ApplyUpgrade(u, s, level))
  {
    if u == GoldenMarrowInjection {
      PowAtLeastOne(2.0, level);
      assert s.markMultiplier * Pow(2.0, level) >= 1.0 * 1.0;
    }
  }

  /** What an upgrade effect writes to `maxQi`, when it writes it. */
  function MaxQiWrite(u: UpgradeId, level: nat): Option<real> {
    if u == DantianExpansion then Some(100.0 + level as real * 50.0) else None
  }

  /** What an upgrade effect writes to `insightPerSecond`, when it writes it. */
  function InsightWrite(u: UpgradeId, level: nat): Option<real> {
    if u == DivineSenseAwakening && level >= 1 then Some(0.1) else None
  }

  /** The three fields an effect either overwrites with a constant or
      leaves alone, and never reads: changing them before an effect only
      changes them after it, and only where the effect did not write. */
  lemma ApplyUpgradeCarry(u: UpgradeId, s: Stats, level: nat, m: real, i: real, t: real)
    ensures ApplyUpgrade(u, s.(maxQi := m, insightPerSecond := i, tributePerSecond := t), level)
         == ApplyUpgrade(u, s, level).(maxQi := Otherwise(MaxQiWrite(u, level), m),
                                       insightPerSecond := Otherwise(InsightWrite(u, level), i),
                                       tributePerSecond := t)
  {
  }
}
