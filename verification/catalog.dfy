/** The static catalog: the thirteen upgrades, the one technique and the
    constants of the two actions, exactly as declared in game.js. */
module Catalog {
  import opened Optional

  /** The balances a cost can name. `Prestige` can appear in a cost
      object, but the affordability check and the spend ignore it. */
  datatype Resource = Qi | DaoMarks | Insight | Prestige

  /** A cost object: resource name to amount. A missing key means "free".
      Every cost the game builds is a whole number (literal catalog amounts,
      or amounts rounded down), so amounts are integers. */
  type Cost = map<Resource, int>

  datatype UpgradeId =
    | FocusedBreathing | ManualRefinement | MentalClarity
    | MeridianDredging | BreathingRhythm | DantianExpansion | QiCompression | AutonomicCycling
    | IronSkinChant | GoldenMarrowInjection | FiveVisceraRemoval
    | VoidPulseHeart | DivineSenseAwakening

  /** The upgrades in declaration order. */
  const AllUpgrades: seq<UpgradeId> := [
    FocusedBreathing, ManualRefinement, MentalClarity,
    MeridianDredging, BreathingRhythm, DantianExpansion, QiCompression, AutonomicCycling,
    IronSkinChant, GoldenMarrowInjection, FiveVisceraRemoval,
    VoidPulseHeart, DivineSenseAwakening
  ]

  /** The string key under which an upgrade is stored and looked up. */
  function UpgradeKey(u: UpgradeId): string {
    match u
    case FocusedBreathing => "focusedBreathing"
    case ManualRefinement => "manualRefinement"
    case MentalClarity => "mentalClarity"
    case MeridianDredging => "meridianDredging"
    case BreathingRhythm => "breathingRhythm"
    case DantianExpansion => "dantianExpansion"
    case QiCompression => "qiCompression"
    case AutonomicCycling => "autonomicCycling"
    case IronSkinChant => "ironSkinChant"
    case GoldenMarrowInjection => "goldenMarrowInjection"
    case FiveVisceraRemoval => "fiveVisceraRemoval"
    case VoidPulseHeart => "voidPulseHeart"
    case DivineSenseAwakening => "divineSenseAwakening"
  }

  /** `UPGRADES[key]`: the upgrade a key names, if any. */
  function UpgradeOfKey(key: string): (r: Option<UpgradeId>)
    ensures r.Some? ==> UpgradeKey(r.value) == key
    ensures r.None? ==> forall u :: UpgradeKey(u) != key
  {
    if key == "focusedBreathing" then Some(FocusedBreathing)
    else if key == "manualRefinement" then Some(ManualRefinement)
    else if key == "mentalClarity" then Some(MentalClarity)
    else if key == "meridianDredging" then Some(MeridianDredging)
    else if key == "breathingRhythm" then Some(BreathingRhythm)
    else if key == "dantianExpansion" then Some(DantianExpansion)
    else if key == "qiCompression" then Some(QiCompression)
    else if key == "autonomicCycling" then Some(AutonomicCycling)
    else if key == "ironSkinChant" then Some(IronSkinChant)
    else if key == "goldenMarrowInjection" then Some(GoldenMarrowInjection)
    else if key == "fiveVisceraRemoval" then Some(FiveVisceraRemoval)
    else if key == "voidPulseHeart" then Some(VoidPulseHeart)
    else if key == "divineSenseAwakening" then Some(DivineSenseAwakening)
    else None
  }

  /** Every upgrade is found again under its own key. */
  lemma KeyRoundTrip(u: UpgradeId)
    ensures UpgradeOfKey(UpgradeKey(u)) == Some(u)
  {
    match u
    case FocusedBreathing =>
    case ManualRefinement =>
    case MentalClarity =>
    case MeridianDredging =>
    case BreathingRhythm =>
    case DantianExpansion =>
    case QiCompression =>
    case AutonomicCycling =>
    case IronSkinChant =>
    case GoldenMarrowInjection =>
    case FiveVisceraRemoval =>
    case VoidPulseHeart =>
    case DivineSenseAwakening =>
  }

  function BaseCost(u: UpgradeId): Cost {
    match u
    case FocusedBreathing => map[DaoMarks := 5]
    case ManualRefinement => map[DaoMarks := 10]
    case MentalClarity => map[DaoMarks := 15]
    case MeridianDredging => map[Qi := 50]
    case BreathingRhythm => map[Qi := 30, DaoMarks := 10]
    case DantianExpansion => map[Qi := 80]
    case QiCompression => map[Qi := 100, DaoMarks := 25]
    case AutonomicCycling => map[Qi := 200, DaoMarks := 50]
    case IronSkinChant => map[Qi := 1000]
    case GoldenMarrowInjection => map[Qi := 5000, DaoMarks := 100]
    case FiveVisceraRemoval => map[Qi := 10000, DaoMarks := 500]
    case VoidPulseHeart => map[Qi := 50000, DaoMarks := 2000]
    case DivineSenseAwakening => map[DaoMarks := 1000]
  }

  function CostMultiplier(u: UpgradeId): real {
    match u
    case FocusedBreathing => 2.0
    case ManualRefinement => 3.0
    case MentalClarity => 2.0
    case MeridianDredging => 2.0
    case BreathingRhythm => 1.8
    case DantianExpansion => 1.5
    case QiCompression => 2.0
    case AutonomicCycling => 1.0
    case IronSkinChant => 2.5
    case GoldenMarrowInjection => 5.0
    case FiveVisceraRemoval => 1.0
    case VoidPulseHeart => 1.0
    case DivineSenseAwakening => 1.0
  }

  function MaxLevel(u: UpgradeId): nat {
    match u
    case FocusedBreathing => 5
    case ManualRefinement => 3
    case MentalClarity => 3
    case MeridianDredging => 5
    case BreathingRhythm => 5
    case DantianExpansion => 10
    case QiCompression => 3
    case AutonomicCycling => 1
    case IronSkinChant => 5
    case GoldenMarrowInjection => 3
    case FiveVisceraRemoval => 1
    case VoidPulseHeart => 1
    case DivineSenseAwakening => 1
  }

  /** The `requires` map: upgrade to minimum level. Empty when absent. */
  function Requires(u: UpgradeId): map<UpgradeId, nat> {
    match u
    case IronSkinChant => map[AutonomicCycling := 1]
    case GoldenMarrowInjection => map[IronSkinChant := 1]
    case FiveVisceraRemoval => map[GoldenMarrowInjection := 1]
    case VoidPulseHeart => map[FiveVisceraRemoval := 1]
    case DivineSenseAwakening => map[VoidPulseHeart := 1]
    case _ => map[]
  }

  datatype TechniqueId = BreathControl

  function TechniqueCost(t: TechniqueId): Cost {
    match t
    case BreathControl => map[Insight := 10]
  }

  function TechniqueRequires(t: TechniqueId): map<UpgradeId, nat> {
    match t
    case BreathControl => map[DivineSenseAwakening := 1]
  }

  /** Refine Qi: the cost before reductions. */
  const RefineBaseCost: real := 10.0

  /** Cultivate Face: Qi price, Prestige gained, cooldown in milliseconds
      and the upgrade that makes the action visible. */
  const FaceQiCost: real := 100.0
  const FacePrestige: real := 10.0
  const FaceCooldownMs: int := 5000
  const FaceRequires: map<UpgradeId, nat> := map[DivineSenseAwakening := 1]

  /** Total Dao Marks produced at which the phase-2 milestone fires. */
  const PhaseTwoThreshold: real := 10000.0

  /** Base costs ask for positive amounts only. */
  lemma BaseCostPositive(u: UpgradeId, r: Resource)
    requires r in BaseCost(u)
    ensures BaseCost(u)[r] > 0
  {
  }

  /** Costs never shrink from one level to the next. */
  lemma MultiplierAtLeastOne(u: UpgradeId)
    ensures CostMultiplier(u) >= 1.0
  {
  }

  /** The catalog is well formed: declaration order lists every upgrade
      once, base costs are positive whole amounts, costs never shrink
      with level, and every prerequisite is declared earlier and reachable
      within its own level cap (so the tree has no cycles). */
  lemma CatalogWellFormed()
    ensures |AllUpgrades| == 13
    ensures forall u :: u in AllUpgrades
    ensures forall i, j :: 0 <= i < j < |AllUpgrades| ==> AllUpgrades[i] != AllUpgrades[j]
    ensures forall u, r :: r in BaseCost(u) ==> BaseCost(u)[r] > 0
    ensures forall u :: CostMultiplier(u) >= 1.0 && MaxLevel(u) >= 1
    ensures forall u, v :: v in Requires(u) ==>
      Requires(u)[v] <= MaxLevel(v) &&
      exists i, j :: 0 <= i < j < |AllUpgrades| && AllUpgrades[i] == v && AllUpgrades[j] == u
  {
    forall u ensures u in AllUpgrades {
      match u
      case FocusedBreathing => assert AllUpgrades[0] == u;
      case ManualRefinement => assert AllUpgrades[1] == u;
      case MentalClarity => assert AllUpgrades[2] == u;
      case MeridianDredging => assert AllUpgrades[3] == u;
      case BreathingRhythm => assert AllUpgrades[4] == u;
      case DantianExpansion => assert AllUpgrades[5] == u;
      case QiCompression => assert AllUpgrades[6] == u;
      case AutonomicCycling => assert AllUpgrades[7] == u;
      case IronSkinChant => assert AllUpgrades[8] == u;
      case GoldenMarrowInjection => assert AllUpgrades[9] == u;
      case FiveVisceraRemoval => assert AllUpgrades[10] == u;
      case VoidPulseHeart => assert AllUpgrades[11] == u;
      case DivineSenseAwakening => assert AllUpgrades[12] == u;
    }
    forall u, v | v in Requires(u)
      ensures exists i, j :: 0 <= i < j < |AllUpgrades| && AllUpgrades[i] == v && AllUpgrades[j] == u
    {
      match u
      case IronSkinChant => assert AllUpgrades[7] == v && AllUpgrades[8] == u;
      case GoldenMarrowInjection => assert AllUpgrades[8] == v && AllUpgrades[9] == u;
      case FiveVisceraRemoval => assert AllUpgrades[9] == v && AllUpgrades[10] == u;
      case VoidPulseHeart => assert AllUpgrades[10] == v && AllUpgrades[11] == u;
      case DivineSenseAwakening => assert AllUpgrades[11] == v && AllUpgrades[12] == u;
    }
  }
}
