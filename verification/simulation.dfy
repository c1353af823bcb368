/** Resource-changing events: the manual click, the passive tick with its
    phase-2 milestone latch, and the two actions. `Date.now()` is passed in
    as `now`, in milliseconds. */
module Simulation {
  import opened Numbers
  import opened Catalog
  import opened Effects
  import opened GameState

  /** `cultivate()`: one click. Qi grows by the per-click amount but never
      past the cap; Dao Marks (and the lifetime total) grow by the per-click
      marks only when that amount is positive; nothing else changes. */
  function Cultivate(g: Game): (r: Game)
    ensures r.totalClicks == g.totalClicks + 1
    ensures r.qi <= g.stats.maxQi
    ensures r.qi == g.qi + g.stats.qiPerClick || r.qi == g.stats.maxQi
    ensures g.qi + g.stats.qiPerClick <= g.stats.maxQi ==> r.qi == g.qi + g.stats.qiPerClick
    ensures g.stats.qiPerClick >= 0.0 && g.qi <= g.stats.maxQi ==> g.qi <= r.qi
    ensures g.stats.marksPerClick > 0.0 ==> r.daoMarks == g.daoMarks + g.stats.marksPerClick
    ensures g.stats.marksPerClick <= 0.0 ==> r.daoMarks == g.daoMarks
    ensures r.daoMarks - g.daoMarks == r.totalMarksProduced - g.totalMarksProduced
    ensures r == g.(qi := r.qi, daoMarks := r.daoMarks,
                    totalMarksProduced := r.totalMarksProduced, totalClicks := r.totalClicks)
  {
    var clicked := g.(totalClicks := g.totalClicks + 1,
                      qi := Min(g.qi + g.stats.qiPerClick, g.stats.maxQi));
    if g.stats.marksPerClick > 0.0 then
      clicked.(daoMarks := clicked.daoMarks + g.stats.marksPerClick,
               totalMarksProduced := clicked.totalMarksProduced + g.stats.marksPerClick)
    else clicked
  }

  /** A fresh game's first click yields one Qi and one click. */
  lemma FirstClick(now: int)
    ensures Cultivate(NewGame(now)).qi == 1.0
    ensures Cultivate(NewGame(now)).totalClicks == 1
  {
  }

  /** Seconds elapsed since the last tick. */
  function ElapsedSeconds(g: Game, now: int): real {
    (now - g.lastTick) as real / 1000.0
  }

  /** The outcome of a tick: whether the milestone fired, and the game. */
  datatype Ticked = Ticked(milestone: bool, game: Game)

  /** `checkPhaseTransition()`: a latch. It fires at most once, when the
      lifetime Dao Mark total first reaches the threshold in phase 1, and
      once set it stays set. */
  function CheckPhaseTransition(g: Game): (r: Ticked)
    ensures r.game == g.(phase2Warning := r.game.phase2Warning)
    ensures r.milestone <==>
      !g.phase2Warning && g.phase == 1 && g.totalMarksProduced >= PhaseTwoThreshold
    ensures r.game.phase2Warning <==> g.phase2Warning || r.milestone
  {
    if g.phase == 1 && g.totalMarksProduced >= PhaseTwoThreshold && !g.phase2Warning then
      Ticked(true, g.(phase2Warning := true))
    else Ticked(false, g)
  }

  /** Passive generation over the time since the last tick: Qi grows by
      its rate times the elapsed seconds but never past the cap; Dao Marks
      (with the lifetime total) and Insight grow by their rates times the
      elapsed seconds when that amount is positive. */
  function Generate(g: Game, now: int): (r: Game)
    ensures r.lastTick == now
    ensures r.qi <= g.stats.maxQi
    ensures var gained := g.stats.qiPerSecond * ElapsedSeconds(g, now);
      r.qi == g.qi + gained || r.qi == g.stats.maxQi
    ensures var gained := g.stats.qiPerSecond * ElapsedSeconds(g, now);
      g.qi + gained <= g.stats.maxQi ==> r.qi == g.qi + gained
    ensures var marks := g.stats.marksPerSecond * ElapsedSeconds(g, now);
      marks > 0.0 ==> r.daoMarks == g.daoMarks + marks
    ensures var marks := g.stats.marksPerSecond * ElapsedSeconds(g, now);
      marks <= 0.0 ==> r.daoMarks == g.daoMarks
    ensures var insight := g.stats.insightPerSecond * ElapsedSeconds(g, now);
      insight > 0.0 ==> r.insight == g.insight + insight
    ensures var insight := g.stats.insightPerSecond * ElapsedSeconds(g, now);
      insight <= 0.0 ==> r.insight == g.insight
    ensures r.daoMarks >= g.daoMarks && r.insight >= g.insight
    ensures r.daoMarks - g.daoMarks == r.totalMarksProduced - g.totalMarksProduced
    ensures now >= g.lastTick && g.stats.qiPerSecond >= 0.0 && g.qi <= g.stats.maxQi ==> g.qi <= r.qi
    ensures r == g.(qi := r.qi, daoMarks := r.daoMarks, insight := r.insight,
                    totalMarksProduced := r.totalMarksProduced, lastTick := now)
  {
    var dt := ElapsedSeconds(g, now);
    ProductNonNegative(g.stats.qiPerSecond, dt);
    var qiGenerated := g.stats.qiPerSecond * dt;
    var g1 := g.(lastTick := now, qi := Min(g.qi + qiGenerated, g.stats.maxQi));
    var marksGenerated := g.stats.marksPerSecond * dt;
    var g2 := if marksGenerated > 0.0 then
        g1.(daoMarks := g1.daoMarks + marksGenerated,
            totalMarksProduced := g1.totalMarksProduced + marksGenerated)
      else g1;
    var insightGenerated := g.stats.insightPerSecond * dt;
    if insightGenerated > 0.0 then g2.(insight := g2.insight + insightGenerated) else g2
  }

  /** `gameTick()` at time `now`: generate, then check the milestone. The
      game is the generated one, with only the milestone flag possibly set. */
  function GameTick(g: Game, now: int): (r: Ticked)
    ensures r.game == Generate(g, now).(phase2Warning := r.game.phase2Warning)
    ensures r.milestone <==>
      !g.phase2Warning && g.phase == 1 && r.game.totalMarksProduced >= PhaseTwoThreshold
    ensures r.game.phase2Warning <==> g.phase2Warning || r.milestone
    ensures var gained := g.stats.qiPerSecond * ElapsedSeconds(g, now);
      g.qi + gained <= g.stats.maxQi ==> r.game.qi == g.qi + gained
    ensures var insight := g.stats.insightPerSecond * ElapsedSeconds(g, now);
      insight > 0.0 ==> r.game.insight == g.insight + insight
    ensures r.game.lastTick == now
    ensures r.game.qi <= r.game.stats.maxQi
    ensures r.game.daoMarks >= g.daoMarks && r.game.insight >= g.insight
    ensures r.game.totalMarksProduced >= g.totalMarksProduced
    ensures r.game.stats == g.stats && r.game.upgrades == g.upgrades && r.game.techniques == g.techniques
    ensures r.game.prestige == g.prestige
    ensures r.game.daoMarks - g.daoMarks == r.game.totalMarksProduced - g.totalMarksProduced
    ensures r.game == g.(qi := r.game.qi, daoMarks := r.game.daoMarks, insight := r.game.insight,
                         totalMarksProduced := r.game.totalMarksProduced, lastTick := now,
                         phase2Warning := r.game.phase2Warning)
    ensures now >= g.lastTick && g.stats.qiPerSecond >= 0.0 && g.qi <= g.stats.maxQi ==> g.qi <= r.game.qi
    ensures r.milestone ==> !g.phase2Warning && r.game.phase2Warning
    ensures g.phase2Warning ==> r.game.phase2Warning && !r.milestone
  {
    CheckPhaseTransition(Generate(g, now))
  }

  /** `ACTIONS.refineQi.getCost`: 10 Qi less the Mental Clarity reduction,
      but never below 1. */
  function RefineCost(s: Stats): (c: real)
    ensures c >= 1.0
    ensures c >= RefineBaseCost - s.refineCostReduction
    ensures c == 1.0 || c == RefineBaseCost - s.refineCostReduction
  {
    Max(1.0, RefineBaseCost - s.refineCostReduction)
  }

  /** `ACTIONS.refineQi.execute`: succeeds exactly when Qi covers the cost;
      then pays it and credits `1 + refineBonus` Dao Marks to both the
      balance and the lifetime total. A failure changes nothing. */
  function RefineQi(g: Game): (r: Outcome)
    ensures r.ok <==> g.qi >= RefineCost(g.stats)
    ensures !r.ok ==> r.game == g
    ensures r.ok ==>
      && r.game.qi == g.qi - RefineCost(g.stats)
      && r.game.qi >= 0.0
      && r.game.daoMarks == g.daoMarks + 1.0 + g.stats.refineBonus
      && r.game.daoMarks - g.daoMarks == r.game.totalMarksProduced - g.totalMarksProduced
      && r.game == g.(qi := r.game.qi, daoMarks := r.game.daoMarks,
                      totalMarksProduced := r.game.totalMarksProduced)
  {
    var cost := RefineCost(g.stats);
    if g.qi >= cost then
      var marksGained := 1.0 + g.stats.refineBonus;
      Outcome(true, g.(qi := g.qi - cost, daoMarks := g.daoMarks + marksGained,
                       totalMarksProduced := g.totalMarksProduced + marksGained))
    else Outcome(false, g)
  }

  /** With 10 Qi and no refine upgrades, refining spends all 10 Qi for one
      Dao Mark. */
  lemma RefineFromScratch(now: int)
    ensures var r := RefineQi(NewGame(now).(qi := 10.0));
      r.ok && r.game.qi == 0.0 && r.game.daoMarks == 1.0
  {
  }

  /** `ACTIONS.cultivateFace.execute`: succeeds exactly when Qi is at least
      100 and 5000 ms have passed since the last success; then pays 100 Qi,
      grants 10 Prestige and stamps the time. A failure changes nothing. */
  function CultivateFace(g: Game, now: int): (r: Outcome)
    ensures r.ok <==> g.qi >= FaceQiCost && now - g.faceLastUsed >= FaceCooldownMs
    ensures !r.ok ==> r.game == g
    ensures r.ok ==>
      && r.game.qi == g.qi - FaceQiCost
      && r.game.qi >= 0.0
      && r.game.prestige == g.prestige + FacePrestige
      && r.game.faceLastUsed == now
      && r.game == g.(qi := r.game.qi, prestige := r.game.prestige, faceLastUsed := now)
  {
    if g.qi >= FaceQiCost && now - g.faceLastUsed >= FaceCooldownMs then
      Outcome(true, g.(qi := g.qi - FaceQiCost, prestige := g.prestige + FacePrestige,
                       faceLastUsed := now))
    else Outcome(false, g)
  }

  /** Two successful uses of Cultivate Face are at least the cooldown apart. */
  lemma FaceCooldownHolds(g: Game, t1: int, t2: int)
    requires CultivateFace(g, t1).ok
    requires CultivateFace(CultivateFace(g, t1).game, t2).ok
    ensures t2 - t1 >= FaceCooldownMs
  {
  }
}
