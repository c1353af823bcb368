/** The game as a sequence of player and timer events, and the invariant
    every event keeps: levels within their caps and prerequisites, non-negative
    balances, Qi under its cap, the cap, the Insight rate and the two
    refine fields matching the levels that write them, sane rates, and a
    phase-2 milestone that fires at most once. */
module Progress {
  import opened Numbers
  import opened Catalog
  import opened Levels
  import opened Effects
  import opened GameState
  import opened Costs
  import opened Recalc
  import opened Purchase
  import opened Simulation

  /** Everything that can happen to a game: a click on Cultivate, a timer
      tick at time `now`, a click on an upgrade (by its key), on a technique,
      or on one of the two actions. */
  datatype Event =
    | Click
    | Tick(now: int)
    | Buy(key: string)
    | Learn(technique: TechniqueId)
    | Refine
    | Face(now: int)

  /** Cultivate Face is rendered, and so clickable, only once its
      prerequisite level is reached; Refine Qi has none. */
  predicate FaceVisible(g: Game) {
    RequirementsMet(g.upgrades, FaceRequires)
  }

  /** One event. Only a tick can fire the milestone or move the clock,
      only a purchase changes the upgrade levels, only research changes the
      techniques, and a click on a hidden Cultivate Face does nothing. */
  function Step(g: Game, e: Event): (r: Ticked)
    ensures r.milestone ==> e.Tick?
    ensures e.Tick? ==> r.game.lastTick == e.now
    ensures !e.Tick? ==> r.game.lastTick == g.lastTick
    ensures !e.Buy? ==> r.game.upgrades == g.upgrades
    ensures !e.Learn? ==> r.game.techniques == g.techniques
    ensures e.Face? && !FaceVisible(g) ==> r.game == g
  {
    match e
    case Click => Ticked(false, Cultivate(g))
    case Tick(now) => GameTick(g, now)
    case Buy(key) => Ticked(false, BuyUpgrade(g, key).game)
    case Learn(t) => Ticked(false, Research(g, t).game)
    case Refine => Ticked(false, RefineQi(g).game)
    case Face(now) =>
      if FaceVisible(g) then Ticked(false, CultivateFace(g, now).game) else Ticked(false, g)
  }

  /** The outcome of a run of events: how many times the milestone fired,
      and the final game. */
  datatype Played = Played(milestones: nat, game: Game)

  function Run(g: Game, es: seq<Event>): Played
    decreases |es|
  {
    if |es| == 0 then Played(0, g)
    else
      var t := Step(g, es[0]);
      var rest := Run(t.game, es[1..]);
      Played(rest.milestones + (if t.milestone then 1 else 0), rest.game)
  }

  /** The timer never runs backwards: each tick is no earlier than the
      previous one (or than `last` for the first). */
  predicate TicksForward(last: int, es: seq<Event>)
    decreases |es|
  {
    if |es| == 0 then true
    else if es[0].Tick? then es[0].now >= last && TicksForward(es[0].now, es[1..])
    else TicksForward(last, es[1..])
  }

  predicate DistinctTechniques(ts: seq<TechniqueId>) {
    forall i, j :: 0 <= i < j < |ts| ==> ts[i] != ts[j]
  }

  /** The invariant of a game reached by playing. */
  predicate Valid(g: Game) {
    && Distinct(g.upgrades)
    && (forall u :: LevelOf(g.upgrades, u) <= MaxLevel(u))
    && (forall u :: LevelOf(g.upgrades, u) > 0 ==> RequirementsMet(g.upgrades, Requires(u)))
    && DistinctTechniques(g.techniques)
    && (forall t :: t in g.techniques ==> RequirementsMet(g.upgrades, TechniqueRequires(t)))
    && NonNegativeBalances(g)
    && g.qi <= g.stats.maxQi
    && g.daoMarks <= g.totalMarksProduced
    && g.stats.maxQi == 100.0 + LevelOf(g.upgrades, DantianExpansion) as real * 50.0
    && g.stats.insightPerSecond == (if LevelOf(g.upgrades, DivineSenseAwakening) >= 1 then 0.1 else 0.0)
    && g.stats.refineBonus == LevelOf(g.upgrades, ManualRefinement) as real
    && g.stats.refineCostReduction == LevelOf(g.upgrades, MentalClarity) as real
    && Sane(g.stats)
  }

  /** A new game is valid. */
  lemma NewGameValid(now: int)
    ensures Valid(NewGame(now))
  {
  }

  lemma ClickKeepsValid(g: Game)
    requires Valid(g)
    ensures Valid(Cultivate(g))
  {
  }

  lemma TickKeepsValid(g: Game, now: int)
    requires Valid(g) && now >= g.lastTick
    ensures Valid(GameTick(g, now).game)
  {
  }

  lemma RefineKeepsValid(g: Game)
    requires Valid(g)
    ensures Valid(RefineQi(g).game)
  {
  }

  lemma FaceKeepsValid(g: Game, now: int)
    requires Valid(g)
    ensures Valid(CultivateFace(g, now).game)
  {
  }

  lemma BuyKeepsValid(g: Game, key: string)
    requires Valid(g)
    ensures Valid(BuyUpgrade(g, key).game)
  {
    var r := BuyUpgrade(g, key);
    if r.ok {
      var u := UpgradeOfKey(key).value;
      var cost := UpgradeCost(u, LevelOf(g.upgrades, u));
      var h := r.game;
      assert CostAmount(cost, Qi) >= 0 && CostAmount(cost, DaoMarks) >= 0;
      assert Balance(h, Qi) == Balance(g, Qi) - CostAmount(cost, Qi) as real;
      assert Balance(h, DaoMarks) == Balance(g, DaoMarks) - CostAmount(cost, DaoMarks) as real;
      assert forall v :: LevelOf(g.upgrades, v) <= LevelOf(h.upgrades, v);
      forall v | LevelOf(h.upgrades, v) > 0
        ensures RequirementsMet(h.upgrades, Requires(v))
      {
        RequirementsMonotone(g.upgrades, h.upgrades, Requires(v));
      }
      forall t | t in h.techniques
        ensures RequirementsMet(h.upgrades, TechniqueRequires(t))
      {
        RequirementsMonotone(g.upgrades, h.upgrades, TechniqueRequires(t));
      }
      var before := g.(upgrades := h.upgrades);
      assert h.stats == Recompute(before).stats;
      RecomputeRefineLevels(before);
      assert Sane(h.stats);
    }
  }

  lemma LearnKeepsValid(g: Game, t: TechniqueId)
    requires Valid(g)
    ensures Valid(Research(g, t).game)
  {
    var r := Research(g, t);
    if r.ok {
      var h := r.game;
      assert CostAmount(TechniqueCost(t), Qi) >= 0 && CostAmount(TechniqueCost(t), DaoMarks) >= 0;
      assert Balance(h, Qi) == Balance(g, Qi) - CostAmount(TechniqueCost(t), Qi) as real;
      assert Balance(h, DaoMarks) == Balance(g, DaoMarks) - CostAmount(TechniqueCost(t), DaoMarks) as real;
      var before := g.(techniques := h.techniques);
      assert h.stats == Recompute(before).stats;
      RecomputeRefineLevels(before);
      assert Sane(h.stats);
    }
  }

  /** Every event keeps the invariant, provided a tick is not earlier than
      the last one. */
  lemma StepKeepsValid(g: Game, e: Event)
    requires Valid(g)
    requires e.Tick? ==> e.now >= g.lastTick
    ensures Valid(Step(g, e).game)
  {
    match e
    case Click => ClickKeepsValid(g);
    case Tick(now) => TickKeepsValid(g, now);
    case Buy(key) => BuyKeepsValid(g, key);
    case Learn(t) => LearnKeepsValid(g, t);
    case Refine => RefineKeepsValid(g);
    case Face(now) => if FaceVisible(g) { FaceKeepsValid(g, now); }
  }

  /** Playing any run of events from a valid game, with a clock that does
      not run backwards, ends in a valid game. */
  lemma {:induction false} RunKeepsValid(g: Game, es: seq<Event>)
    requires Valid(g)
    requires TicksForward(g.lastTick, es)
    ensures Valid(Run(g, es).game)
    decreases |es|
  {
    if |es| > 0 {
      var t := Step(g, es[0]);
      StepKeepsValid(g, es[0]);
      StepLastTick(g, es[0]);
      RunKeepsValid(t.game, es[1..]);
    }
  }

  /** Only a tick moves the clock, and it moves it to its own time. */
  lemma StepLastTick(g: Game, e: Event)
    ensures Step(g, e).game.lastTick == (if e.Tick? then e.now else g.lastTick)
  {
  }

  /** The milestone latch across one event: it fires only while unset and
      sets the flag, and once set the flag stays set and nothing fires. */
  lemma StepLatch(g: Game, e: Event)
    ensures Step(g, e).milestone ==> !g.phase2Warning && Step(g, e).game.phase2Warning
    ensures g.phase2Warning ==> Step(g, e).game.phase2Warning && !Step(g, e).milestone
  {
  }

  /** The phase-2 milestone fires at most once in any run, never once it
      has been reached, and when it fires the warning flag is set at the
      end. */
  lemma {:induction false} MilestoneAtMostOnce(g: Game, es: seq<Event>)
    ensures Run(g, es).milestones <= 1
    ensures g.phase2Warning ==> Run(g, es).milestones == 0 && Run(g, es).game.phase2Warning
    ensures Run(g, es).milestones == 1 ==> Run(g, es).game.phase2Warning
    decreases |es|
  {
    if |es| > 0 {
      var t := Step(g, es[0]);
      StepLatch(g, es[0]);
      MilestoneAtMostOnce(t.game, es[1..]);
    }
  }

  /** One event never lowers a level and never forgets a technique. */
  lemma StepKeepsProgress(g: Game, e: Event)
    ensures forall u :: LevelOf(g.upgrades, u) <= LevelOf(Step(g, e).game.upgrades, u)
    ensures Step(g, e).game.techniques[..|g.techniques|] == g.techniques
  {
    var h := Step(g, e).game;
    assert |g.techniques| <= |h.techniques|;
  }

  /** Upgrade levels never decrease and researched techniques stay
      researched, over any run. */
  lemma {:induction false} RunKeepsProgress(g: Game, es: seq<Event>)
    ensures forall u :: LevelOf(g.upgrades, u) <= LevelOf(Run(g, es).game.upgrades, u)
    ensures |g.techniques| <= |Run(g, es).game.techniques|
    ensures Run(g, es).game.techniques[..|g.techniques|] == g.techniques
    decreases |es|
  {
    if |es| > 0 {
      var t := Step(g, es[0]);
      StepKeepsProgress(g, es[0]);
      RunKeepsProgress(t.game, es[1..]);
      var h := Run(g, es).game;
      assert h == Run(t.game, es[1..]).game;
      assert h.techniques[..|t.game.techniques|] == t.game.techniques;
      assert h.techniques[..|g.techniques|] == t.game.techniques[..|g.techniques|];
    }
  }

  /** In a game reached by playing, Refine Qi costs 10 Qi less one per
      Mental Clarity level, but at least 1, and yields one Dao Mark plus
      one per Manual Refinement level. */
  lemma RefineFollowsLevels(g: Game)
    requires Valid(g)
    ensures RefineCost(g.stats) == Max(1.0, 10.0 - LevelOf(g.upgrades, MentalClarity) as real)
    ensures RefineQi(g).ok ==>
      RefineQi(g).game.daoMarks == g.daoMarks + 1.0 + LevelOf(g.upgrades, ManualRefinement) as real
  {
  }

  // ----- The progression ceiling -----

  /** Qi never exceeds 600: it is held under the cap, which is
      100 + 50 per Dantian Expansion level, and that upgrade stops at 10. */
  lemma QiCeiling(g: Game)
    requires Valid(g)
    ensures g.qi <= 600.0
  {
    assert LevelOf(g.upgrades, DantianExpansion) <= MaxLevel(DantianExpansion);
  }

  /** Iron Skin Chant asks for at least 1000 Qi at every level. */
  lemma IronSkinQiCost(level: nat)
    ensures CostAmount(UpgradeCost(IronSkinChant, level), Qi) >= 1000
  {
    PowAtLeastOne(2.5, level);
    UpgradeCostRoundsDown(IronSkinChant, level, Qi);
    assert 1000.0 <= 1000.0 * Pow(2.5, level);
  }

  /** In a game reached by playing, Iron Skin Chant can never be bought:
      it costs more Qi than the cap ever allows. */
  lemma IronSkinOutOfReach(g: Game)
    requires Valid(g)
    ensures !CanBuyUpgrade(g, IronSkinChant)
  {
    QiCeiling(g);
    IronSkinQiCost(LevelOf(g.upgrades, IronSkinChant));
  }

  /** No single event buys Iron Skin Chant from a valid game. */
  lemma StepNeverBuysIronSkin(g: Game, e: Event)
    requires Valid(g)
    requires LevelOf(g.upgrades, IronSkinChant) == 0
    ensures LevelOf(Step(g, e).game.upgrades, IronSkinChant) == 0
  {
    if e.Buy? {
      IronSkinOutOfReach(g);
    }
  }

  /** Playing any run from a valid game without Iron Skin Chant, with a
      clock that does not run backwards, never buys it, so nothing that
      requires it (Golden Marrow Injection and everything after) is bought
      either. */
  lemma {:induction false} RunNeverBuysIronSkin(g: Game, es: seq<Event>)
    requires Valid(g)
    requires TicksForward(g.lastTick, es)
    requires LevelOf(g.upgrades, IronSkinChant) == 0
    ensures LevelOf(Run(g, es).game.upgrades, IronSkinChant) == 0
    decreases |es|
  {
    if |es| > 0 {
      var t := Step(g, es[0]);
      StepNeverBuysIronSkin(g, es[0]);
      StepKeepsValid(g, es[0]);
      RunNeverBuysIronSkin(t.game, es[1..]);
    }
  }

  /** A new game never reaches Iron Skin Chant. */
  lemma NewGameNeverBuysIronSkin(now: int, es: seq<Event>)
    requires TicksForward(now, es)
    ensures LevelOf(Run(NewGame(now), es).game.upgrades, IronSkinChant) == 0
  {
    NewGameValid(now);
    RunNeverBuysIronSkin(NewGame(now), es);
  }
}
