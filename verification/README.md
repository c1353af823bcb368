# The Dao of Zero — progression engine in Dafny

This project models the progression engine of *The Dao of Zero*, an idle
cultivation game written as a single browser script, `game.js`. The engine
is plain bookkeeping over one `Game` record:

- balances: Qi, Dao Marks, Insight and Prestige;
- derived production stats: per-click and per-second rates, multipliers and the Qi cap;
- the purchased upgrade levels and the researched techniques;
- the lifetime counters, the phase-2 milestone flag and the clocks.

Every player or timer event is a pure function from a `Game` to a new
`Game`. Events that can fail return whether they succeeded.

## Modules

| module | file | contents |
|---|---|---|
| `Optional` | optional.dfy | `Option`, for lookups that may miss |
| `Numbers` | numbers.dfy | `Math.pow`, `Math.min` and `Math.max` over reals, with order lemmas |
| `Catalog` | catalog.dfy | the 13 upgrades (`UPGRADES`), the technique (`TECHNIQUES`) and the action constants; key lookup |
| `Levels` | levels.dfy | `Game.upgrades` as an ordered list of `(id, level)` entries in first-purchase order |
| `Effects` | effects.dfy | the derived `Stats` and every `apply` as a pure function `(Stats, level) -> Stats` |
| `GameState` | game.dfy | the `Game` record and a new game |
| `Costs` | costs.dfy | `calculateUpgradeCost`, `canAfford`, `spendResources` |
| `Recalc` | recalc.dfy | `recalculateStats` |
| `Purchase` | purchase.dfy | `canBuyUpgrade`, `buyUpgrade`, technique research |
| `Simulation` | simulation.dfy | `cultivate`, `gameTick`, `checkPhaseTransition`, the Refine Qi and Cultivate Face actions |
| `Format` | format.dfy | the suffix bucket `formatNumber` chooses |
| `Progress` | progress.dfy | events, runs of events, and the game invariant they keep |
| `ReplayOrder` | replay_order.dfy | the purchase-order dependence of `recalculateStats` (see Findings) |

### Modelling decisions

- **Amounts.** Amounts are mathematical reals.
  - `Math.floor` is `.Floor`.
  - `Math.pow(m, level)` is `Numbers.Pow` with a natural exponent.
  - Every cost in the catalog is a whole number, so costs are maps from resource to `int`.
- **Upgrade store.** `Game.upgrades` is a JavaScript object. `Object.entries` iterates its string keys in insertion order (section 10.1.11.1 of ECMA-262, OrdinaryOwnPropertyKeys).
  - `Levels.Store` is therefore a sequence in first-purchase order.
  - Raising an existing key keeps its place; a new key goes last (`Levels.SetLevelKeepsPlaces`, `Levels.SetLevelAppends`).
- **Replay order.** `recalculateStats` replays every stored entry, in store order, level 0 included.
  - Because some effects overwrite a field that others add to or multiply, the result depends on purchase order.
  - The effect texts promise bonuses that stack whatever the order: "+1 Qi per click" (game.js:57), "+2 Qi per click" (game.js:136) and "Qi generation x10" (game.js:210). The Findings section covers the two places where store order breaks that promise.
  - The corrected catalog-order replay is in `ReplayOrder` and is proved to depend on the levels alone.
- **Progression ceiling.** Qi is held under a cap of 100 + 50 per Dantian Expansion level, and that upgrade stops at level 10, so Qi never exceeds 600.
  - Iron Skin Chant asks for at least 1000 Qi at every level, so a game started fresh never buys it, nor anything that requires it.
  - `Progress.IronSkinOutOfReach` and `Progress.NewGameNeverBuysIronSkin` state this. Later upgrades, Breath Control and Cultivate Face therefore appear only in a state loaded from a save.
- **Fields recompute leaves alone.** `recalculateStats` never resets `maxQi`, `insightPerSecond` or `tributePerSecond`.
  - They keep the last value an effect wrote, or their previous value when nothing wrote them.
  - `Recalc.RebuildCarry` states exactly this, and idempotence rests on it.
- **Cooldown.** The Cultivate Face cooldown timestamp lives on the shared `ACTIONS` object. Here it is the field `Game.faceLastUsed`, initially 0, as the source's `lastUsed || 0` reads it.
- **Time.** `Date.now()` is the parameter `now`, in milliseconds.
- **Research guard.** The guard of research (visible, not yet researched, affordable) is applied when the technique list is rendered. The click handler itself does not check anything. `Purchase.Research` applies the same guard at the click.
- **Phase-2 flag.** `Game.phase2Warning` is absent from the initial record, which reads as false. A new game has it false.

## Model

| member | source | states |
|---|---|---|
| Catalog.UpgradeOfKey | game.js:397-399 | a key finds the upgrade whose key it is; an unknown key finds nothing, and then no upgrade has that key |
| Catalog.KeyRoundTrip | game.js:51-240 | every upgrade is found again under its own key |
| Catalog.CatalogWellFormed | game.js:51-240 | 13 distinct upgrades; positive base costs, multipliers at least 1, caps at least 1; each prerequisite is reachable under its own cap and is declared earlier |
| Costs.UpgradeCost | game.js:374-380 | the cost names exactly the base cost's resources with non-negative amounts, and at level 0 is the base cost |
| Costs.UpgradeCostRoundsDown | game.js:374-380 | each amount is the largest whole number not above base × multiplier^level |
| Costs.UpgradeCostMonotone | game.js:374-380 | no amount falls when the level rises |
| Costs.FocusedBreathingCosts | game.js:53-63 | Focused Breathing costs 5, 10, then 20 Dao Marks |
| Costs.ScaledCostAtZero | game.js:374-380 | scaling at level 0 returns the base amounts unchanged |
| Costs.CanAfford | game.js:361-366 | affordable exactly when every Qi, Dao Mark or Insight amount that is present and non-zero is covered; Prestige is never checked |
| Costs.Spend | game.js:368-372 | each of Qi, Dao Marks and Insight drops by exactly its amount; nothing else changes; an affordable spend keeps balances non-negative |
| Purchase.PayAndRaiseStore | game.js:403-407 | the store after a purchase is the old one with the current level plus one written under the key |
| Purchase.CanBuyUpgrade | game.js:382-395 | false at or above the cap, when a prerequisite is short or when the cost is unaffordable; true when all three hold |
| Purchase.BuyUpgrade | game.js:397-417 | an unknown key or an unbuyable upgrade changes nothing; a purchase pays exactly the current cost, writes one level more under that key (in place, or appended when it was not stored), so that level alone rises by one within its cap, keeps balances non-negative, touches nothing but balances, levels and stats, and leaves the stats recomputed |
| Purchase.MaxedNeverBought | game.js:382-384 | a capped upgrade can never be bought |
| Purchase.Research | game.js:694-741 | succeeds exactly when the technique is visible, new and affordable; then records it last, pays its cost, keeps levels and Prestige, and leaves stats recomputed; otherwise changes nothing |
| Purchase.ResearchApplyIsOverwritten | game.js:734-741 | the one-off `apply` in the handler has no lasting effect, because the recompute after it erases it |
| Purchase.ResearchAddsHalf | game.js:734-741 | a research leaves the stats the game would recompute to, except that the Qi rate before tribute is 1.5 times as large |
| Effects.ApplyUpgrade | game.js:51-240 | each upgrade's `apply` writes only its own field: Qi per click (Focused Breathing, Qi Compression), Qi per second (Breathing Rhythm, Autonomic Cycling, Five-Viscera Removal, Void-Pulse Heart), refine bonus, refine cost reduction, marks per click, the cap, the global and mark multipliers, Insight per second; passive marks, tribute and the Qi multiplier are untouched |
| Effects.EffectKinds | game.js:51-240 | Focused Breathing, Manual Refinement, Mental Clarity, Meridian Dredging, Dantian Expansion and Divine Sense Awakening overwrite their field; Qi Compression, Breathing Rhythm, Autonomic Cycling, Five-Viscera Removal and Iron Skin Chant add a fixed amount; Void-Pulse Heart and Golden Marrow Injection multiply by a fixed factor |
| Effects.ApplyTechnique | game.js:302-305 | Breath Control raises Qi per second by half and changes nothing else |
| Effects.ApplyUpgradeSane | game.js:51-240 | no upgrade effect makes a rate negative or a multiplier drop below 1 |
| Recalc.Recompute | game.js:419-457 | only stats change; passive mark income is 0; stats are sane; the Qi cap and Insight rate follow the Dantian Expansion and Divine Sense levels or keep their old values; tribute is floor(prestige/10) when Prestige is positive; the multiplier and tribute steps are stated by the rows below: each technique multiplies the Qi rate by 1.5 (Recalc.ReplayTechniquesScales, Recalc.RecomputeTechniqueAddsHalf), click marks are multiplied by the mark and global multipliers (Recalc.FinishClickMarks, Recalc.RecomputeClickMarks), tribute is added to the Qi rate unmultiplied (Recalc.TributeAddsToQiRate, Recalc.RebuildQiRate), and Golden Marrow Injection doubles the mark multiplier once per level (Recalc.ReplayMarkMultiplier) |
| Recalc.RebuildCarry | game.js:419-457 | the three fields not reset end with the last value an effect wrote, or their old value |
| Recalc.RecomputeRefineLevels | game.js:419-457 | for a store without duplicate keys, recomputing sets the refine bonus to the Manual Refinement level and the refine cost reduction to the Mental Clarity level, whatever the purchase order |
| Recalc.ReplayTechniquesScales | game.js:439-445 | replaying the researched techniques multiplies the Qi rate by 1.5 once per technique and changes no other stat |
| Recalc.TributeAddsToQiRate | game.js:452-456 | Prestige changes a rebuild only by adding floor(prestige/10) to the Qi rate, after the multipliers, and by setting the tribute rate, and only when Prestige is positive |
| Recalc.RebuildQiRate | game.js:439-456 | the final Qi rate is the rate the upgrades leave, times 1.5 per technique, times the global multiplier, plus tribute |
| Recalc.TechniqueAddsHalf | game.js:439-456 | one more technique multiplies the Qi rate before tribute by 1.5 and changes no other stat |
| Recalc.RecomputeTechniqueAddsHalf | game.js:439-456 | the same for `recalculateStats()` on a game with one more researched technique |
| Recalc.FinishClickMarks | game.js:447-456 | the multiplier step multiplies click marks by the mark multiplier times the global multiplier, and tribute leaves them alone |
| Recalc.ReplayClickBase | game.js:93-104 | in a store without duplicate keys the click marks the upgrades leave are the Meridian Dredging level, or their old value when it is not stored |
| Recalc.ReplayMarkMultiplier | game.js:184-186 | in a store without duplicate keys the mark multiplier is multiplied by 2 to the Golden Marrow Injection level, in any purchase order |
| Recalc.ReplayGlobalMultiplier | game.js:170-172 | in a store without duplicate keys the global multiplier grows by 0.05 per Iron Skin Chant level, in any purchase order |
| Recalc.RecomputeClickMarks | game.js:419-457 | in a store without duplicate keys, click marks after `recalculateStats()` are the Meridian Dredging level times 2 to the Golden Marrow Injection level times 1 + 0.05 per Iron Skin Chant level |
| Recalc.RecomputeIdempotent | game.js:419-457 | recomputing twice is the same as once |
| Recalc.RecomputeForgetsResetFields | game.js:421-429 | the result depends on old stats only through the fields the reset leaves alone |
| Recalc.RecomputeFromScratch | game.js:421-429 | with nothing bought or researched and no Prestige, the stats are the base values |
| Recalc.RecomputeMeridianOnly | game.js:93-104 | with Meridian Dredging at level L the only purchase, marks per click are L |
| Levels.LevelOf | game.js:383 | an absent key reads as level 0; in a duplicate-free store it is the stored level |
| Levels.SetLevel | game.js:407 | the key gets the new level, no other level changes, and the key set gains exactly that key |
| Levels.SetLevelAppends | game.js:407 | a new key is appended at the end, in insertion order |
| Levels.SetLevelKeepsDistinct | game.js:407 | writing a level never duplicates a key |
| Simulation.Cultivate | game.js:460-472 | one more click; Qi grows by the per-click amount but never past the cap or below its old value; marks and the lifetime total grow by the per-click marks only when that is positive; nothing else changes |
| Simulation.Generate | game.js:488-506 | Qi grows by Qi per second × elapsed seconds, clamped to the cap; Dao Marks and the lifetime total grow by marks per second × elapsed seconds when that is positive, and are unchanged otherwise; Insight grows by Insight per second × elapsed seconds when that is positive, and is unchanged otherwise; the clock moves to now; nothing else changes |
| Simulation.GameTick | game.js:488-512 | the game is the generated one with only the milestone flag possibly set, so Qi, Dao Marks and Insight grow exactly as in generation; the clock moves to now; Qi stays under the cap and does not fall when time moves forward; balances never fall; stats, levels, techniques and Prestige are unchanged; the milestone fires exactly when the flag was unset, the phase is 1 and the lifetime total after generation is at least 10000, and the flag ends set exactly when it was set or the milestone fired |
| Simulation.CheckPhaseTransition | game.js:514-523 | the milestone fires exactly when phase is 1, the lifetime total is at least 10000 and the flag is unset; the flag, once set, stays set |
| Simulation.RefineCost | game.js:248-250 | the refine cost is at least 1, and is 10 less the reduction unless that is below 1 |
| Recalc.RebuildRefineLevels | game.js:74-89 | after a rebuild from a store without duplicate keys, the refine bonus is the Manual Refinement level and the cost reduction the Mental Clarity level |
| Progress.RefineFollowsLevels | game.js:244-265 | in a game reached by playing, Refine Qi costs max(1, 10 − Mental Clarity level) Qi and yields 1 + Manual Refinement level Dao Marks |
| Simulation.RefineQi | game.js:255-265 | succeeds exactly when Qi covers the cost; then Qi drops by the cost and marks and the lifetime total grow by 1 + bonus; otherwise nothing changes |
| Simulation.RefineFromScratch | game.js:244-265 | with no refine upgrades, 10 Qi refine into 1 Dao Mark |
| Simulation.CultivateFace | game.js:277-289 | succeeds exactly when Qi is at least 100 and 5000 ms have passed; then pays 100 Qi, grants 10 Prestige and stamps the time; otherwise nothing changes |
| Simulation.FaceCooldownHolds | game.js:277-289 | two successful uses are at least 5000 ms apart |
| Format.MagnitudeOf | game.js:558-570 | values below 1000 are shown unscaled; any other value divided by its suffix's divisor is at least 1, and below 1000 except for T |
| Progress.Step | game.js:829-867 | one event (a click, a 100 ms tick, a purchase, a research, Refine Qi or Cultivate Face): only a tick fires the milestone or moves the clock, only a purchase changes levels, only research changes techniques, and Cultivate Face does nothing while it is not rendered |
| Progress.NewGameValid | game.js:2-48 | a new game satisfies the invariant |
| Progress.BuyKeepsValid | game.js:397-417 | a purchase keeps the invariant |
| Progress.LearnKeepsValid | game.js:734-741 | research keeps the invariant |
| Progress.TickKeepsValid | game.js:488-512 | a tick that does not go back in time keeps the invariant |
| Progress.ClickKeepsValid | game.js:460-472 | a click keeps the invariant |
| Progress.RefineKeepsValid | game.js:255-265 | refining keeps the invariant |
| Progress.FaceKeepsValid | game.js:277-289 | Cultivate Face keeps the invariant |
| Progress.StepKeepsValid | game.js:625-688 | every event keeps the invariant; Cultivate Face is clickable only once its prerequisite is met |
| Progress.RunKeepsValid | game.js:829-867 | any run of events with a forward-moving clock ends in a valid game |
| Progress.MilestoneAtMostOnce | game.js:514-523 | over any run the phase-2 milestone fires at most once, never once reached, and leaves the flag set |
| Progress.RunKeepsProgress | game.js:397-417 | over any run no upgrade level falls and no researched technique is lost |
| Progress.QiCeiling | game.js:119-130 | in any valid game Qi is at most 600 |
| Progress.IronSkinQiCost | game.js:161-169 | Iron Skin Chant costs at least 1000 Qi at every level |
| Progress.IronSkinOutOfReach | game.js:382-395 | in any valid game Iron Skin Chant cannot be bought |
| Progress.RunNeverBuysIronSkin | game.js:397-417 | a run from a valid game without Iron Skin Chant, with a clock that does not run backwards, never buys it |
| Progress.NewGameNeverBuysIronSkin | game.js:2-48 | no run from a new game, with a clock that does not run backwards, ever buys Iron Skin Chant |
| ReplayOrder.PurchaseOrderLosesCompression | game.js:432-437 | two stores with equal levels, bought in opposite orders, give Qi per click 2 and 4 |
| ReplayOrder.PlayedOrderLosesCompression | game.js:397-417 | two successful purchases from 100 Qi and 30 Dao Marks, Qi Compression first, end with Qi per click 2 |
| ReplayOrder.CatalogOrderIgnoresPurchaseOrder | game.js:432-437 | catalog-order replay depends on the levels alone |
| ReplayOrder.CatalogOrderStacksClickBonuses | game.js:132-144 | in catalog order Qi per click is 1 + Focused Breathing level + 2 × Qi Compression level, whatever the purchase order |
| ReplayOrder.LateRhythmPrerequisitesMet | game.js:160-220 | the prerequisites admit the order: in the store Autonomic Cycling, Iron Skin Chant, Golden Marrow Injection, Five-Viscera Removal, Void-Pulse Heart, Breathing Rhythm, each upgrade's prerequisites are met by the entries bought before it |
| ReplayOrder.PurchaseOrderSkipsVoidPulse | game.js:432-437 | with the same levels, buying Breathing Rhythm after Void-Pulse Heart rebuilds to 126.525 Qi per second; buying it first gives 131.25 |
| ReplayOrder.CatalogOrderMultipliesWholeRate | game.js:206-220 | in catalog order, Qi per second before the compound multipliers is (0.5 × Breathing Rhythm level, + 2 with Autonomic Cycling, + 10 with Five-Viscera Removal), times 10 with Void-Pulse Heart, whatever the purchase order |

The invariant `Progress.Valid` holds when all of the following are true:

- the store has no duplicate keys;
- every level is within its cap;
- every bought upgrade and every researched technique has its prerequisites met;
- techniques are not repeated;
- balances are non-negative;
- Qi is at most the cap;
- the Dao Mark balance never exceeds the lifetime total;
- the Qi cap is 100 + 50 × (Dantian Expansion level);
- the Insight rate is 0.1 exactly when Divine Sense Awakening is bought, and 0 otherwise;
- the refine bonus is the Manual Refinement level and the refine cost reduction the Mental Clarity level;
- the stats are sane: rates non-negative, multipliers at least 1.

## Left out

- The DOM and presentation: `updateUI`, `updateButtonText`, the HTML built by the render functions, logs (`addLog`, `addRandomLog`), and the `document` side effects inside `divineSenseAwakening.apply` and `cultivateFace.execute`.
- Persistence: `saveGame`, `loadGame`, `resetGame`, `exportSave` and `importSave`. They use browser storage and dialogs. A loaded save may hold any state, so the invariant is proved only for games started fresh.
- Scheduling: the `setInterval`/`setTimeout` wiring in `init` and `cultivate`. A run is an arbitrary sequence of events instead.
- The `toFixed` rendering inside `formatNumber`. It is floating-point string formatting; only the choice of suffix is modelled.
- IEEE-754 rounding. Amounts are exact reals, so `1.8^level` and friends are exact here.
- The realm title, the settings, `lastSave` and `gameStartTime`. They are presentation and persistence only.
- Catalog.UpgradeOfKey: keys inherited from `Object.prototype`, such as `"toString"`, are treated as unknown. In the source such a lookup finds a function and the purchase throws a `TypeError` before anything changes, so the state is the same.
- Purchase.Research: the guard is applied at the click rather than when the list is rendered. Between a render and a click the game can change, and the source's handler would then spend without checking.
- Progress.StepKeepsValid: ticks must not go back in time. A tick earlier than the last one would generate negative Qi in the source.
- Progress.Valid: does not relate `tributePerSecond` to Prestige. Cultivate Face raises Prestige without recomputing, so the tribute lags until the next purchase or research.

## Findings

| source | as written | input that shows it | evidently intended | confidence | as-written member | corrected member |
|---|---|---|---|---|---|---|
| game.js:432-437 | effects are replayed in first-purchase order. Focused Breathing sets Qi per click to 1 + level (game.js:62), erasing whatever Qi Compression added before it (game.js:141) | with 100 Qi and 30 Dao Marks, buy `qiCompression` then `focusedBreathing`: Qi per click is 2 | the two effect texts promise +1 and +2 per click, i.e. 4; replay in catalog order so the bonuses stack whatever the purchase order | not executed | ReplayOrder.PlayedOrderLosesCompression | ReplayOrder.CatalogOrderStacksClickBonuses |
| game.js:432-437 | Void-Pulse Heart multiplies only the Qi per second replayed before it (game.js:215-219), so Breathing Rhythm levels first bought after it add 0.5 each without the ×10 (game.js:114-116) | a state loaded from a save (game.js:765-774) whose store holds Autonomic Cycling, Iron Skin Chant, Golden Marrow Injection, Five-Viscera Removal and Void-Pulse Heart, then Breathing Rhythm, each at level 1: Qi per second is 126.525 | "Qi generation x10" multiplies all Qi generation, i.e. 131.25; replay in catalog order | not executed | ReplayOrder.PurchaseOrderSkipsVoidPulse | ReplayOrder.CatalogOrderMultipliesWholeRate |

`ReplayOrder.PurchaseOrderLosesCompression` shows the same loss on the stores alone. The second row cannot arise in a game started fresh: Iron Skin Chant is never affordable there (`Progress.IronSkinOutOfReach`). It arises from a loaded save, which `loadGame` copies in and recomputes from. `ReplayOrder.LateRhythmPrerequisitesMet` shows only that the purchase checks' prerequisites admit that order. `ReplayOrder.CatalogOrderIgnoresPurchaseOrder` proves the corrected replay depends only on the levels. The rest of the model keeps the code's replay order, because it models the code as written.
