/** The order in which `recalculateStats` replays upgrades. The code
    replays them in first-purchase order. Focused Breathing OVERWRITES
    Qi per click while Qi Compression ADDS to it, so buying Qi Compression
    first and Focused Breathing second throws the Qi Compression bonus
    away. Replaying in catalog declaration order, skipping unbought
    entries, makes the result depend on the levels alone and lets both
    click bonuses stack as their effect texts say. */
module ReplayOrder {
  import opened Optional
  import opened Catalog
  import opened Levels
  import opened Effects
  import opened Recalc
  import opened GameState
  import opened Costs
  import opened Purchase

  // ----- As written: first-purchase order -----

  /** Two stores holding the same levels, bought in opposite orders,
      rebuild to different Qi per click: 2 instead of 4. */
  lemma PurchaseOrderLosesCompression(s: Stats, ts: seq<TechniqueId>, p: real)
    ensures var late := [Entry(QiCompression, 1), Entry(FocusedBreathing, 1)];
            var early := [Entry(FocusedBreathing, 1), Entry(QiCompression, 1)];
      && (forall u :: LevelOf(late, u) == LevelOf(early, u))
      && Rebuild(s, late, ts, p).qiPerClick == 2.0
      && Rebuild(s, early, ts, p).qiPerClick == 4.0
  {
    var late := [Entry(QiCompression, 1), Entry(FocusedBreathing, 1)];
    var early := [Entry(FocusedBreathing, 1), Entry(QiCompression, 1)];
    var s0 := Reset(s);
    assert ReplayUpgrades(s0, late)
        == ReplayUpgrades(ApplyUpgrade(FocusedBreathing, ApplyUpgrade(QiCompression, s0, 1), 1), []);
    assert ReplayUpgrades(s0, early)
        == ReplayUpgrades(ApplyUpgrade(QiCompression, ApplyUpgrade(FocusedBreathing, s0, 1), 1), []);
    ReplayTechniquesMarks(ReplayUpgrades(s0, late), ts);
    ReplayTechniquesMarks(ReplayUpgrades(s0, early), ts);
  }

  /** A game whose only upgrade is Qi Compression and which can afford
      Focused Breathing buys it, and is left with Qi per click 2: the
      Qi Compression bonus is gone. */
  lemma BreathingAfterCompression(h: Game)
    requires h.upgrades == [Entry(QiCompression, 1)]
    requires h.daoMarks >= 5.0
    ensures var b := BuyUpgrade(h, "focusedBreathing");
      && b.ok
      && b.game.upgrades == [Entry(QiCompression, 1), Entry(FocusedBreathing, 1)]
      && b.game.stats.qiPerClick == 2.0
  {
    BreathingBought(h);
    var b := BuyUpgrade(h, "focusedBreathing");
    BreathingRebuilt(h, b);
    PurchaseOrderLosesCompression(h.stats, h.techniques, h.prestige);
  }

  /** The purchase itself: it succeeds and appends Focused Breathing. */
  lemma BreathingBought(h: Game)
    requires h.upgrades == [Entry(QiCompression, 1)]
    requires h.daoMarks >= 5.0
    ensures var b := BuyUpgrade(h, "focusedBreathing");
      && b.ok
      && b.game.upgrades == [Entry(QiCompression, 1), Entry(FocusedBreathing, 1)]
  {
    BreathingAffordable(h);
    var b := BuyUpgrade(h, "focusedBreathing");
    assert b.ok;
    assert LevelOf(h.upgrades, FocusedBreathing) == 0;
    assert b.game.upgrades == SetLevel(h.upgrades, FocusedBreathing, 1);
    SetLevelAppends(h.upgrades, FocusedBreathing, 1);
  }

  /** A successful purchase rebuilds the stats from the old ones over the
      new store. */
  lemma BreathingRebuilt(h: Game, b: Outcome)
    requires b == BuyUpgrade(h, "focusedBreathing") && b.ok
    ensures b.game.stats == Rebuild(h.stats, b.game.upgrades, h.techniques, h.prestige)
  {
    assert b.game.stats == Recompute(h.(upgrades := b.game.upgrades)).stats;
  }

  lemma BreathingAffordable(h: Game)
    requires h.upgrades == [Entry(QiCompression, 1)]
    requires h.daoMarks >= 5.0
    ensures UpgradeOfKey("focusedBreathing") == Some(FocusedBreathing)
    ensures CanBuyUpgrade(h, FocusedBreathing)
  {
    KeyRoundTrip(FocusedBreathing);
    assert LevelOf(h.upgrades, FocusedBreathing) == 0;
    assert UpgradeCost(FocusedBreathing, 0) == BaseCost(FocusedBreathing);
  }

  /** A game with no upgrades, 100 Qi and at least 25 Dao Marks can buy
      Qi Compression, and pays 25 Dao Marks for it. */
  lemma CompressionFirst(h: Game)
    requires h.upgrades == [] && h.qi >= 100.0 && h.daoMarks >= 25.0
    ensures var a := BuyUpgrade(h, "qiCompression");
      && a.ok
      && a.game.upgrades == [Entry(QiCompression, 1)]
      && a.game.daoMarks == h.daoMarks - 25.0
  {
    assert UpgradeOfKey("qiCompression") == Some(QiCompression) by {
      KeyRoundTrip(QiCompression);
    }
    CompressionAffordable(h);
    var a := BuyUpgrade(h, "qiCompression");
    assert a.ok;
    assert Balance(a.game, DaoMarks) == Balance(h, DaoMarks) - 25 as real;
    assert a.game.upgrades == [Entry(QiCompression, 1)] by {
      SetLevelAppends([], QiCompression, 1);
    }
  }

  lemma CompressionAffordable(h: Game)
    requires h.upgrades == [] && h.qi >= 100.0 && h.daoMarks >= 25.0
    ensures CanBuyUpgrade(h, QiCompression)
    ensures CostAmount(UpgradeCost(QiCompression, LevelOf(h.upgrades, QiCompression)), DaoMarks) == 25
  {
    assert UpgradeCost(QiCompression, 0) == BaseCost(QiCompression);
  }

  /** The loss is reachable by play: with 100 Qi and 30 Dao Marks, buying
      Qi Compression and then Focused Breathing succeeds twice and leaves
      Qi per click at 2, although the two effect texts promise 4. */
  lemma PlayedOrderLosesCompression(now: int)
    ensures var a := BuyUpgrade(NewGame(now).(qi := 100.0, daoMarks := 30.0), "qiCompression");
            var b := BuyUpgrade(a.game, "focusedBreathing");
      && a.ok && b.ok
      && b.game.stats.qiPerClick == 2.0
  {
    CompressionFirst(NewGame(now).(qi := 100.0, daoMarks := 30.0));
    BreathingAfterCompression(BuyUpgrade(NewGame(now).(qi := 100.0, daoMarks := 30.0), "qiCompression").game);
  }

  // ----- Corrected: catalog declaration order -----

  /** Replay the upgrades listed in `ids`, in that order, each at its
      stored level, skipping those not bought. */
  function ReplayCatalog(s: Stats, ids: seq<UpgradeId>, store: Store): Stats
    decreases |ids|
  {
    if |ids| == 0 then s
    else
      var level := LevelOf(store, ids[0]);
      ReplayCatalog(if level > 0 then ApplyUpgrade(ids[0], s, level) else s, ids[1..], store)
  }

  function RebuildInCatalogOrder(s: Stats, store: Store, ts: seq<TechniqueId>, p: real): Stats {
    AddTribute(ApplyMultipliers(ReplayTechniques(ReplayCatalog(Reset(s), AllUpgrades, store), ts)), p)
  }

  lemma {:induction false} ReplayCatalogSameLevels(s: Stats, ids: seq<UpgradeId>, a: Store, b: Store)
    requires forall u :: LevelOf(a, u) == LevelOf(b, u)
    ensures ReplayCatalog(s, ids, a) == ReplayCatalog(s, ids, b)
    decreases |ids|
  {
    if |ids| > 0 {
      var level := LevelOf(a, ids[0]);
      ReplayCatalogSameLevels(if level > 0 then ApplyUpgrade(ids[0], s, level) else s, ids[1..], a, b);
    }
  }

  /** In catalog order the rebuild depends on the levels alone, not on the
      order in which they were bought. */
  lemma CatalogOrderIgnoresPurchaseOrder(s: Stats, a: Store, b: Store, ts: seq<TechniqueId>, p: real)
    requires forall u :: LevelOf(a, u) == LevelOf(b, u)
    ensures RebuildInCatalogOrder(s, a, ts, p) == RebuildInCatalogOrder(s, b, ts, p)
  {
    ReplayCatalogSameLevels(Reset(s), AllUpgrades, a, b);
  }

  lemma {:induction false} ReplayCatalogAppend(s: Stats, x: seq<UpgradeId>, y: seq<UpgradeId>, store: Store)
    ensures ReplayCatalog(s, x + y, store) == ReplayCatalog(ReplayCatalog(s, x, store), y, store)
    decreases |x|
  {
    if |x| == 0 {
      assert x + y == y;
    } else {
      assert (x + y)[0] == x[0] && (x + y)[1..] == x[1..] + y;
      var level := LevelOf(store, x[0]);
      ReplayCatalogAppend(if level > 0 then ApplyUpgrade(x[0], s, level) else s, x[1..], y, store);
    }
  }

  lemma {:induction false} ReplayCatalogKeepsClicks(s: Stats, ids: seq<UpgradeId>, store: Store)
    requires FocusedBreathing !in ids && QiCompression !in ids
    ensures ReplayCatalog(s, ids, store).qiPerClick == s.qiPerClick
    decreases |ids|
  {
    if |ids| > 0 {
      var level := LevelOf(store, ids[0]);
      assert ids[0] in ids;
      ReplayCatalogKeepsClicks(if level > 0 then ApplyUpgrade(ids[0], s, level) else s, ids[1..], store);
    }
  }

  /** Focused Breathing, then upgrades that leave Qi per click alone,
      then Qi Compression, then more such upgrades. */
  lemma ReplayClicksSplit(s: Stats, before: seq<UpgradeId>, after: seq<UpgradeId>, store: Store)
    requires s.qiPerClick == 1.0
    requires FocusedBreathing !in before && QiCompression !in before
    requires FocusedBreathing !in after && QiCompression !in after
    ensures ReplayCatalog(s, [FocusedBreathing] + before + [QiCompression] + after, store).qiPerClick
         == 1.0 + LevelOf(store, FocusedBreathing) as real + 2.0 * LevelOf(store, QiCompression) as real
  {
    ReplayCatalogAppend(s, [FocusedBreathing] + before + [QiCompression], after, store);
    ReplayCatalogAppend(s, [FocusedBreathing] + before, [QiCompression], store);
    ReplayCatalogAppend(s, [FocusedBreathing], before, store);
    var s1 := ReplayCatalog(s, [FocusedBreathing], store);
    assert s1.qiPerClick == 1.0 + LevelOf(store, FocusedBreathing) as real;
    ReplayCatalogKeepsClicks(s1, before, store);
    var s2 := ReplayCatalog(s1, before, store);
    var s3 := ReplayCatalog(s2, [QiCompression], store);
    assert s3.qiPerClick == s2.qiPerClick + 2.0 * LevelOf(store, QiCompression) as real;
    ReplayCatalogKeepsClicks(s3, after, store);
  }

  lemma CatalogReplayClicks(s: Stats, store: Store)
    requires s.qiPerClick == 1.0
    ensures ReplayCatalog(s, AllUpgrades, store).qiPerClick
         == 1.0 + LevelOf(store, FocusedBreathing) as real + 2.0 * LevelOf(store, QiCompression) as real
  {
    var before := [ManualRefinement, MentalClarity, MeridianDredging, BreathingRhythm, DantianExpansion];
    var after := [AutonomicCycling, IronSkinChant, GoldenMarrowInjection, FiveVisceraRemoval,
                  VoidPulseHeart, DivineSenseAwakening];
    assert AllUpgrades == [FocusedBreathing] + before + [QiCompression] + after;
    ReplayClicksSplit(s, before, after, store);
  }

  /** In catalog order the two click bonuses stack: Qi per click is
      1 + (Focused Breathing level) + 2 * (Qi Compression level). */
  lemma CatalogOrderStacksClickBonuses(s: Stats, store: Store, ts: seq<TechniqueId>, p: real)
    ensures RebuildInCatalogOrder(s, store, ts, p).qiPerClick
         == 1.0 + LevelOf(store, FocusedBreathing) as real + 2.0 * LevelOf(store, QiCompression) as real
  {
    CatalogReplayClicks(Reset(s), store);
    ReplayTechniquesMarks(ReplayCatalog(Reset(s), AllUpgrades, store), ts);
  }

  // ----- Qi per second: Void-Pulse Heart -----

  /** Upgrades whose effect reads or writes Qi per second. */
  predicate TouchesQiRate(u: UpgradeId) {
    u == BreathingRhythm || u == AutonomicCycling || u == FiveVisceraRemoval || u == VoidPulseHeart
  }

  /** A store in which Breathing Rhythm was first bought after Void-Pulse
      Heart, and the same levels bought in catalog order. Play from a new
      game never gets past Autonomic Cycling (`Progress.IronSkinOutOfReach`),
      so such a store comes from a loaded save, which `loadGame` copies in
      and recomputes from. */
  const LateRhythm: Store := [Entry(AutonomicCycling, 1), Entry(IronSkinChant, 1),
    Entry(GoldenMarrowInjection, 1), Entry(FiveVisceraRemoval, 1), Entry(VoidPulseHeart, 1),
    Entry(BreathingRhythm, 1)]
  const EarlyRhythm: Store := [Entry(BreathingRhythm, 1), Entry(AutonomicCycling, 1),
    Entry(IronSkinChant, 1), Entry(GoldenMarrowInjection, 1), Entry(FiveVisceraRemoval, 1),
    Entry(VoidPulseHeart, 1)]

  /** Replaying a non-empty store applies its first entry, then the rest. */
  lemma ReplayUpgradesStep(s: Stats, st: Store)
    requires |st| > 0
    ensures ReplayUpgrades(s, st) == ReplayUpgrades(ApplyUpgrade(st[0].id, s, st[0].level), st[1..])
  {
  }

  lemma {:induction false} ReplayUpgradesAppend(s: Stats, x: Store, y: Store)
    ensures ReplayUpgrades(s, x + y) == ReplayUpgrades(ReplayUpgrades(s, x), y)
    decreases |x|
  {
    if |x| == 0 {
      assert x + y == y;
    } else {
      assert (x + y)[0] == x[0] && (x + y)[1..] == x[1..] + y;
      ReplayUpgradesAppend(ApplyUpgrade(x[0].id, s, x[0].level), x[1..], y);
    }
  }

  /** The rate-relevant fields after replaying the tail shared by both
      stores: Iron Skin Chant, Golden Marrow Injection, Five-Viscera Removal. */
  lemma ReplayMiddle(s: Stats)
    ensures var m := ReplayUpgrades(s, LateRhythm[1..4]);
      m.qiPerSecond == s.qiPerSecond + 10.0 && m.qiMultiplier == s.qiMultiplier
      && m.globalMultiplier == s.globalMultiplier + 0.05
  {
    var st := LateRhythm[1..4];
    ReplayUpgradesStep(s, st);
    var s1 := ApplyUpgrade(IronSkinChant, s, 1);
    ReplayUpgradesStep(s1, st[1..]);
    var s2 := ApplyUpgrade(GoldenMarrowInjection, s1, 1);
    ReplayUpgradesStep(s2, st[2..]);
    assert st[1..][1..] == st[2..] && st[2..][1..] == [];
  }

  /** Replayed in purchase order, the late store reaches 120.5 Qi per
      second before the multipliers. */
  lemma LateRhythmReplay(s0: Stats)
    requires s0 == Reset(s0)
    ensures var late := ReplayUpgrades(s0, LateRhythm);
      late.qiPerSecond == 120.5 && late.qiMultiplier == 1.0 && late.globalMultiplier == 1.05
  {
    ReplayUpgradesStep(s0, LateRhythm);
    var l1 := ApplyUpgrade(AutonomicCycling, s0, 1);
    assert LateRhythm[1..] == LateRhythm[1..4] + LateRhythm[4..];
    ReplayUpgradesAppend(l1, LateRhythm[1..4], LateRhythm[4..]);
    ReplayMiddle(l1);
    var l2 := ReplayUpgrades(l1, LateRhythm[1..4]);
    ReplayUpgradesStep(l2, LateRhythm[4..]);
    var l3 := ApplyUpgrade(VoidPulseHeart, l2, 1);
    assert LateRhythm[4..][1..] == [Entry(BreathingRhythm, 1)];
    ReplayUpgradesStep(l3, [Entry(BreathingRhythm, 1)]);
  }

  /** Replayed in purchase order, the early store reaches 125 Qi per
      second before the multipliers. */
  lemma EarlyRhythmReplay(s0: Stats)
    requires s0 == Reset(s0)
    ensures var early := ReplayUpgrades(s0, EarlyRhythm);
      early.qiPerSecond == 125.0 && early.qiMultiplier == 1.0 && early.globalMultiplier == 1.05
  {
    ReplayUpgradesStep(s0, EarlyRhythm);
    var e1 := ApplyUpgrade(BreathingRhythm, s0, 1);
    assert EarlyRhythm[1..] == LateRhythm[..5];
    ReplayUpgradesStep(e1, LateRhythm[..5]);
    var e2 := ApplyUpgrade(AutonomicCycling, e1, 1);
    assert LateRhythm[..5][1..] == LateRhythm[1..4] + [Entry(VoidPulseHeart, 1)];
    ReplayUpgradesAppend(e2, LateRhythm[1..4], [Entry(VoidPulseHeart, 1)]);
    ReplayMiddle(e2);
    var e3 := ReplayUpgrades(e2, LateRhythm[1..4]);
    ReplayUpgradesStep(e3, [Entry(VoidPulseHeart, 1)]);
  }

  /** In a store whose every entry has level one, every stored upgrade
      is at level one. */
  lemma {:induction false} LevelOneEverywhere(st: Store, v: UpgradeId)
    requires forall i :: 0 <= i < |st| ==> st[i].level == 1
    requires v in Ids(st)
    ensures LevelOf(st, v) == 1
    decreases |st|
  {
    if st[0].id != v {
      assert v in Ids(st[1..]) by {
        var i :| 0 <= i < |st| && st[i].id == v;
        assert st[1..][i - 1] == st[i];
      }
      LevelOneEverywhere(st[1..], v);
    }
  }

  /** Each upgrade of the late store after the first requires exactly the
      one stored before it. */
  lemma LateRhythmChain(k: int)
    requires 1 <= k < |LateRhythm| - 1
    ensures Requires(LateRhythm[k].id) == map[LateRhythm[k - 1].id := 1]
  {
    if k == 1 {
    } else if k == 2 {
    } else if k == 3 {
    }
  }

  /** Every upgrade in the late store has its prerequisites met by the
      entries bought before it, so the order is one the purchase checks
      admit; it says nothing about the Qi needed to pay for them. */
  lemma LateRhythmPrerequisitesMet()
    ensures forall k :: 0 <= k < |LateRhythm| ==>
      RequirementsMet(LateRhythm[..k], Requires(LateRhythm[k].id))
  {
    forall k | 0 <= k < |LateRhythm|
      ensures RequirementsMet(LateRhythm[..k], Requires(LateRhythm[k].id))
    {
      if k == 0 || k == 5 {
        assert LateRhythm[k].id in {AutonomicCycling, BreathingRhythm};
        assert Requires(LateRhythm[k].id) == map[];
      } else {
        var prefix := LateRhythm[..k];
        LateRhythmChain(k);
        assert prefix[k - 1] == LateRhythm[k - 1];
        LevelOneEverywhere(prefix, LateRhythm[k - 1].id);
      }
    }
  }

  /** The early store is the late one with its last entry moved first. */
  lemma RhythmStoresSameIds()
    ensures Ids(LateRhythm) == Ids(EarlyRhythm)
  {
    assert EarlyRhythm == [LateRhythm[5]] + LateRhythm[..5];
    assert LateRhythm == LateRhythm[..5] + [LateRhythm[5]];
    assert forall e :: e in LateRhythm <==> e in EarlyRhythm;
  }

  /** Two stores whose entries are all at level one and which hold the
      same upgrades agree on every level. */
  lemma LevelOneSameLevels(a: Store, b: Store)
    requires forall i :: 0 <= i < |a| ==> a[i].level == 1
    requires forall i :: 0 <= i < |b| ==> b[i].level == 1
    requires Ids(a) == Ids(b)
    ensures forall u :: LevelOf(a, u) == LevelOf(b, u)
  {
    forall u ensures LevelOf(a, u) == LevelOf(b, u) {
      if u in Ids(a) {
        LevelOneEverywhere(a, u);
        LevelOneEverywhere(b, u);
      }
    }
  }

  /** Both stores hold the same level of every upgrade. */
  lemma RhythmStoresSameLevels()
    ensures forall u :: LevelOf(LateRhythm, u) == LevelOf(EarlyRhythm, u)
  {
    RhythmStoresSameIds();
    LevelOneSameLevels(LateRhythm, EarlyRhythm);
  }

  /** Void-Pulse Heart multiplies only the Qi per second replayed before
      it, so Breathing Rhythm bought after it escapes the x10: with the same
      levels, Qi per second is 126.525 instead of 131.25. Every upgrade in
      the late store has its prerequisites met by the entries before it. */
  lemma PurchaseOrderSkipsVoidPulse(s: Stats)
    ensures forall u :: LevelOf(LateRhythm, u) == LevelOf(EarlyRhythm, u)
    ensures forall k :: 0 <= k < |LateRhythm| ==>
      RequirementsMet(LateRhythm[..k], Requires(LateRhythm[k].id))
    ensures Rebuild(s, LateRhythm, [], 0.0).qiPerSecond == 126.525
    ensures Rebuild(s, EarlyRhythm, [], 0.0).qiPerSecond == 131.25
  {
    LateRhythmPrerequisitesMet();
    RhythmStoresSameLevels();
    LateRhythmReplay(Reset(s));
    EarlyRhythmReplay(Reset(s));
  }

  lemma {:induction false} ReplayCatalogKeepsRate(s: Stats, ids: seq<UpgradeId>, store: Store)
    requires forall u :: u in ids ==> !TouchesQiRate(u)
    ensures ReplayCatalog(s, ids, store).qiPerSecond == s.qiPerSecond
    decreases |ids|
  {
    if |ids| > 0 {
      var level := LevelOf(store, ids[0]);
      assert ids[0] in ids;
      ReplayCatalogKeepsRate(if level > 0 then ApplyUpgrade(ids[0], s, level) else s, ids[1..], store);
    }
  }

  /** Upgrades that leave Qi per second alone, then one that touches it. */
  lemma ReplayCatalogThen(s: Stats, ids: seq<UpgradeId>, u: UpgradeId, store: Store)
    requires forall x :: x in ids ==> !TouchesQiRate(x)
    ensures ReplayCatalog(s, ids + [u], store).qiPerSecond
         == (if LevelOf(store, u) > 0 then ApplyUpgrade(u, s, LevelOf(store, u)).qiPerSecond
             else s.qiPerSecond)
  {
    ReplayCatalogAppend(s, ids, [u], store);
    ReplayCatalogKeepsRate(s, ids, store);
    var t := ReplayCatalog(s, ids, store);
    assert [u][1..] == [];
    var level := LevelOf(store, u);
    if level > 0 {
      assert ApplyUpgrade(u, t, level).qiPerSecond == ApplyUpgrade(u, s, level).qiPerSecond by {
        match u
        case BreathingRhythm =>
        case AutonomicCycling =>
        case FiveVisceraRemoval =>
        case VoidPulseHeart =>
        case _ =>
      }
    }
  }

  /** The catalog cut into four pieces, each ending in an upgrade that
      touches Qi per second. */
  const RateChunk1: seq<UpgradeId> := [FocusedBreathing, ManualRefinement, MentalClarity, MeridianDredging, BreathingRhythm]
  const RateChunk2: seq<UpgradeId> := [DantianExpansion, QiCompression, AutonomicCycling]
  const RateChunk3: seq<UpgradeId> := [IronSkinChant, GoldenMarrowInjection, FiveVisceraRemoval]
  const RateChunk4: seq<UpgradeId> := [VoidPulseHeart, DivineSenseAwakening]

  lemma Chunk1Rate(s: Stats, store: Store)
    ensures ReplayCatalog(s, RateChunk1, store).qiPerSecond
         == s.qiPerSecond + 0.5 * LevelOf(store, BreathingRhythm) as real
  {
    assert RateChunk1 == RateChunk1[..4] + [BreathingRhythm];
    ReplayCatalogThen(s, RateChunk1[..4], BreathingRhythm, store);
  }

  lemma Chunk2Rate(s: Stats, store: Store)
    ensures ReplayCatalog(s, RateChunk2, store).qiPerSecond
         == s.qiPerSecond + (if LevelOf(store, AutonomicCycling) >= 1 then 2.0 else 0.0)
  {
    assert RateChunk2 == RateChunk2[..2] + [AutonomicCycling];
    ReplayCatalogThen(s, RateChunk2[..2], AutonomicCycling, store);
  }

  lemma Chunk3Rate(s: Stats, store: Store)
    ensures ReplayCatalog(s, RateChunk3, store).qiPerSecond
         == s.qiPerSecond + (if LevelOf(store, FiveVisceraRemoval) >= 1 then 10.0 else 0.0)
  {
    assert RateChunk3 == RateChunk3[..2] + [FiveVisceraRemoval];
    ReplayCatalogThen(s, RateChunk3[..2], FiveVisceraRemoval, store);
  }

  lemma Chunk4Rate(s: Stats, store: Store)
    ensures ReplayCatalog(s, RateChunk4, store).qiPerSecond
         == s.qiPerSecond * (if LevelOf(store, VoidPulseHeart) >= 1 then 10.0 else 1.0)
  {
    ReplayCatalogAppend(s, [VoidPulseHeart], [DivineSenseAwakening], store);
    ReplayCatalogThen(s, [], VoidPulseHeart, store);
    assert [] + [VoidPulseHeart] == [VoidPulseHeart];
    ReplayCatalogKeepsRate(ReplayCatalog(s, [VoidPulseHeart], store), [DivineSenseAwakening], store);
  }

  /** Replaying the catalog is replaying its four chunks in turn. */
  lemma ReplayCatalogInChunks(s: Stats, store: Store)
    ensures ReplayCatalog(s, AllUpgrades, store)
         == ReplayCatalog(ReplayCatalog(ReplayCatalog(ReplayCatalog(s, RateChunk1, store),
              RateChunk2, store), RateChunk3, store), RateChunk4, store)
  {
    assert AllUpgrades == RateChunk1 + RateChunk2 + RateChunk3 + RateChunk4;
    ReplayCatalogAppend(s, RateChunk1 + RateChunk2 + RateChunk3, RateChunk4, store);
    ReplayCatalogAppend(s, RateChunk1 + RateChunk2, RateChunk3, store);
    ReplayCatalogAppend(s, RateChunk1, RateChunk2, store);
  }

  /** The additive Qi-per-second contributions of a store. */
  function AdditiveQiRate(store: Store): real {
    0.5 * LevelOf(store, BreathingRhythm) as real
    + (if LevelOf(store, AutonomicCycling) >= 1 then 2.0 else 0.0)
    + (if LevelOf(store, FiveVisceraRemoval) >= 1 then 10.0 else 0.0)
  }

  /** In catalog order Void-Pulse Heart multiplies every additive
      contribution to Qi per second, whatever the purchase order. */
  lemma CatalogOrderMultipliesWholeRate(s: Stats, store: Store)
    ensures ReplayCatalog(Reset(s), AllUpgrades, store).qiPerSecond
         == AdditiveQiRate(store) * (if LevelOf(store, VoidPulseHeart) >= 1 then 10.0 else 1.0)
  {
    var s0 := Reset(s);
    ReplayCatalogInChunks(s0, store);
    var s1 := ReplayCatalog(s0, RateChunk1, store);
    var s2 := ReplayCatalog(s1, RateChunk2, store);
    var s3 := ReplayCatalog(s2, RateChunk3, store);
    Chunk1Rate(s0, store);
    Chunk2Rate(s1, store);
    Chunk3Rate(s2, store);
    Chunk4Rate(s3, store);
  }
}
