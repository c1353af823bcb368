/** The single `Game` record: balances, derived stats, progression and
    clocks. Settings, the realm title and save timestamps are presentation
    and persistence only and are not part of it. */
module GameState {
  import opened Catalog
  import opened Levels
  import opened Effects

  datatype Game = Game(
    daoMarks: real,
    qi: real,
    insight: real,
    prestige: real,
    stats: Stats,
    phase: int,
    totalMarksProduced: real,
    totalClicks: nat,
    upgrades: Store,
    techniques: seq<TechniqueId>,
    /** `ACTIONS.cultivateFace.lastUsed`, in milliseconds; kept here as
        per-player state rather than on the catalog. */
    faceLastUsed: int,
    /** `Game.lastTick`, in milliseconds. */
    lastTick: int,
    phase2Warning: bool)

  /** The result of a command that may fail: whether it succeeded, and the
      game afterwards (unchanged on failure). */
  datatype Outcome = Outcome(ok: bool, game: Game)

  /** A new game, started at time `now` (milliseconds). */
  function NewGame(now: int): Game {
    Game(daoMarks := 0.0, qi := 0.0, insight := 0.0, prestige := 0.0,
         stats := InitialStats, phase := 1, totalMarksProduced := 0.0, totalClicks := 0,
         upgrades := [], techniques := [], faceLastUsed := 0, lastTick := now,
         phase2Warning := false)
  }

  /** The balance a cost key refers to. */
  function Balance(g: Game, r: Resource): real {
    match r
    case Qi => g.qi
    case DaoMarks => g.daoMarks
    case Insight => g.insight
    case Prestige => g.prestige
  }

  predicate NonNegativeBalances(g: Game) {
    g.qi >= 0.0 && g.daoMarks >= 0.0 && g.insight >= 0.0 && g.prestige >= 0.0
  }
}
