/** The shared simulation record (`game`) and the entities it holds: fish
    (hostile units), towers, bullets, and the catalog and wave-plan data the
    systems consume. Every system reads and writes one `Game` object. */
module GameState {
  import opened Common
  import opened MapRuntime

  // ---- timed status effects (list-appended, never merged) ----------------

  /** A timed status effect. `strength` is the speed multiplier of a slow,
      the damage per second of a burn, or the armour ratio an armour break
      adds back. */
  datatype Timed = Timed(strength: real, duration: real)

  type SlowEffect = Timed
  type BurnEffect = Timed
  type ArmorBreakEffect = Timed

  // ---- fish catalog ---------------------------------------------------------

  datatype SummonPack = SummonPack(kind: string, count: int)

  /** A skill descriptor of a fish template; `OtherSkill` stands for any type
      the engine does not look for. */
  datatype Skill =
    | AccelerateOnHp(triggerHpRatio: real, multiplier: real)
    | SplitOnDeath(count: int, into: string, hpScale: Option<real>)
    | ArmorStatic(armorRatio: Option<real>)
    | BossSummonThreshold(thresholds: Option<seq<real>>, packs: Option<seq<SummonPack>>,
                          speedMultiplier: Option<real>)
    | BossShieldThreshold(thresholds: Option<seq<real>>, shieldRatio: Option<real>)
    | OtherSkill(name: string)

  datatype FishTemplate = FishTemplate(
    title: string, hp: real, speed: real, damage: int, reward: int,
    armorRatio: Option<real>, skills: seq<Skill>, isBoss: bool)

  datatype AccelerationSkill = AccelerationSkill(triggerHpRatio: real, multiplier: real)
  datatype SplitSkill = SplitSkill(count: int, into: string, hpScale: Option<real>)

  /** A live fish. `armorRatio` may be absent (it then counts as 1). */
  datatype Fish = Fish(
    id: nat, kindKey: string, title: string, isBoss: bool,
    hp: real, maxHp: real, pos: Point, pathIndex: nat,
    reachedEnd: bool, splitSpawned: bool, isAccelerated: bool, spawnedFromSplit: bool,
    baseSpeed: real, speed: real, damage: int, reward: int,
    armorRatio: Option<real>,
    accelerationSkill: Option<AccelerationSkill>, splitSkill: Option<SplitSkill>,
    slowEffects: seq<SlowEffect>, burnEffects: seq<BurnEffect>, armorBreakEffects: seq<ArmorBreakEffect>,
    bossSummonThresholds: seq<real>, bossShieldThresholds: seq<real>,
    bossShieldHp: real, bossShieldRatio: real,
    bossSummonPacks: Option<seq<SummonPack>>, bossSummonSpeedMultiplier: real)

  /** The escorts a boss summons when it has no packs of its own. */
  const DefaultSummonPacks: seq<SummonPack> :=
    [SummonPack("swordfish", 2), SummonPack("oarfish", 2), SummonPack("puffer", 1)]

  function SummonPacksOf(f: Fish): seq<SummonPack> {
    f.bossSummonPacks.GetOr(DefaultSummonPacks)
  }

  // ---- towers ---------------------------------------------------------------

  /** Support aura data; an absent `critBonus`/`armorBreakBonus` is held as 0,
      the value every reader substitutes for it. */
  datatype SupportAura = SupportAura(
    radius: real, damageMult: real, fireRateMult: real, rangeBonus: real,
    critBonus: real, armorBreakBonus: real)

  datatype TowerSpec = TowerSpec(
    title: string, cost: int, range: real, fireRate: real, damage: real,
    projectileSpeed: real, upgradeCost: int, slow: Option<SlowEffect>,
    splashRadius: Option<real>, splashRatio: Option<real>,
    critChance: Option<real>, critMultiplier: Option<real>,
    supportAura: Option<SupportAura>)

  /** A placed tower. Fields that start undefined in the game and are only
      ever read through `??` (rapid double-shot chance, slow pulse radius,
      execute threshold, boss bonus, armour-pierce bonus) are held as the
      value the `??` supplies. */
  datatype Tower = Tower(
    id: nat, pos: Point, cellX: int, cellY: int, typeKey: string,
    level: int, range: real, fireRate: real, cooldown: real, damage: real,
    projectileSpeed: real, upgradeCost: int,
    slow: Option<SlowEffect>, splashRadius: real, splashRatio: real,
    critChance: real, critMultiplier: real, supportAura: Option<SupportAura>,
    branchPath: Option<string>, branchTier: int,
    rapidDoubleShotChance: real, slowPulseRadius: real,
    armorBreak: Option<ArmorBreakEffect>, burn: Option<BurnEffect>,
    executeThreshold: real, bossBonus: real, armorPierceBonus: real)

  // ---- bullets ----------------------------------------------------------------

  /** A shot in flight: a snapshot of the firing tower's stats, and the id of
      the fish it follows. */
  datatype Bullet = Bullet(
    pos: Point, targetId: nat, damage: real, speed: real, towerLevel: int,
    towerType: string, slow: Option<SlowEffect>, splashRadius: real, splashRatio: real,
    critChance: real, critMultiplier: real, rapidDoubleShotChance: real,
    slowPulseRadius: real, armorBreak: Option<ArmorBreakEffect>, burn: Option<BurnEffect>)

  // ---- kill counters ----------------------------------------------------------

  /** The three counters a kill moves: kills, gold and boss kills. */
  datatype Tally = Tally(kills: int, gold: int, bossKills: int)

  /** What paying for the fish in `dead` is worth: one kill each, their
      rewards in gold, one boss kill per boss. */
  function Cost(dead: seq<Fish>): (r: Tally)
    ensures r.kills == |dead| && 0 <= r.bossKills <= |dead|
  {
    if dead == [] then Tally(0, 0, 0)
    else
      var c := Cost(dead[..|dead| - 1]);
      var f := dead[|dead| - 1];
      Tally(c.kills + 1, c.gold + f.reward, c.bossKills + if f.isBoss then 1 else 0)
  }

  function Plus(t: Tally, u: Tally): Tally {
    Tally(t.kills + u.kills, t.gold + u.gold, t.bossKills + u.bossKills)
  }

  /** The counters `t` after paying for the fish in `dead`. */
  function Paid(t: Tally, dead: seq<Fish>): Tally {
    Plus(t, Cost(dead))
  }

  /** Paying for no fish changes nothing. */
  lemma PaidNone(t: Tally)
    ensures Paid(t, []) == t
  {
    assert Plus(t, Tally(0, 0, 0)) == t;
  }

  /** Paying for no fish changes nothing; paying for one fish adds a kill,
      its reward and, for a boss, a boss kill. */
  lemma PaidOne(t: Tally, f: Fish)
    ensures Paid(t, []) == t
    ensures Paid(t, [f]) == Tally(t.kills + 1, t.gold + f.reward, t.bossKills + if f.isBoss then 1 else 0)
  {
    assert [f][..0] == [];
  }

  /** The worth of two lists together is the sum of their worths. */
  lemma {:induction false} CostAppend(a: seq<Fish>, b: seq<Fish>)
    ensures Cost(a + b) == Plus(Cost(a), Cost(b))
  {
    if b == [] {
      assert a + b == a;
    } else {
      var n := |b| - 1;
      var ab := a + b;
      assert ab[..|ab| - 1] == a + b[..n] && ab[|ab| - 1] == b[n];
      CostAppend(a, b[..n]);
      var f := b[n];
      var one := Tally(1, f.reward, if f.isBoss then 1 else 0);
      assert Cost(ab) == Plus(Cost(a + b[..n]), one);
      assert Cost(b) == Plus(Cost(b[..n]), one);
    }
  }

  /** Paying for two lists in turn is paying for them together. */
  lemma PaidAppend(t: Tally, a: seq<Fish>, b: seq<Fish>)
    ensures Paid(Paid(t, a), b) == Paid(t, a + b)
  {
    CostAppend(a, b);
  }

  // ---- wave plans and stages ------------------------------------------------

  /** A term of a count formula; `UnknownTerm` is any term the evaluator skips. */
  datatype Term =
    | MulWave(factor: Option<real>)
    | FloorDivWave(divisor: Option<real>)
    | FloorDivWaveMinus(divisor: Option<real>, minus: Option<real>)
    | UnknownTerm

  datatype CountExpr = CountExpr(base: Option<real>, terms: seq<Term>)

  datatype SpawnRule = SpawnRule(kind: string, unlockWave: Option<int>, count: Option<CountExpr>)

  datatype BossWave = BossWave(interval: Option<int>, bossKind: Option<string>,
                               extraRules: seq<SpawnRule>, spawnLast: Option<bool>)

  datatype SpawnTiming = SpawnTiming(normalBase: Option<real>, normalJitter: Option<real>, bossFixed: Option<real>)

  datatype ClearCondition = ClearCondition(kind: string, value: int)

  datatype WavePlan = WavePlan(
    maxWaves: Option<int>, rules: seq<SpawnRule>, bossWave: Option<BossWave>,
    spawnTiming: SpawnTiming, clearConditions: seq<ClearCondition>,
    autoWaveDelaySeconds: Option<real>)

  datatype Stage = Stage(id: string, title: string, wavePlan: WavePlan)

  /** Why a stage's clear conditions failed (the game shows these as text). */
  datatype ClearFailure =
    | NotEnoughLives(need: int)
    | NotEnoughKills(need: int)
    | TooManyLeaks(limit: int, leaks: int)
    | TooManyTowers(limit: int, placed: int)

  function BossKind(plan: WavePlan): string {
    if plan.bossWave.Some? && plan.bossWave.value.bossKind.Some? then plan.bossWave.value.bossKind.value
    else "bossWhaleKing"
  }

  function BossInterval(plan: WavePlan): int {
    if plan.bossWave.Some? && plan.bossWave.value.interval.Some? then plan.bossWave.value.interval.value else 5
  }

  function ExtraRules(plan: WavePlan): seq<SpawnRule> {
    if plan.bossWave.Some? then plan.bossWave.value.extraRules else []
  }

  /** `maxWaves && …`: a missing or zero maximum means the plan never ends. */
  predicate HasMaxWaves(plan: WavePlan) {
    plan.maxWaves.Some? && plan.maxWaves.value != 0
  }

  function AutoWaveDelay(plan: WavePlan): real {
    plan.autoWaveDelaySeconds.GetOr(1.4)
  }

  /** Every fish kind a wave plan can put in a spawn queue. */
  ghost predicate PlanKindsKnown(plan: WavePlan, catalog: map<string, FishTemplate>) {
    (forall r :: r in plan.rules ==> r.kind in catalog) &&
    (forall r :: r in ExtraRules(plan) ==> r.kind in catalog) &&
    BossKind(plan) in catalog
  }

  /** The summons of every boss template are themselves catalog kinds. */
  ghost predicate SummonsKnown(catalog: map<string, FishTemplate>) {
    (forall p :: p in DefaultSummonPacks ==> p.kind in catalog) &&
    forall k, s, p ::
      (k in catalog && s in catalog[k].skills && s.BossSummonThreshold? && s.packs.Some? && p in s.packs.value)
      ==> p.kind in catalog
  }

  /** Fish ids grow along the list, so an id names at most one fish. */
  ghost predicate IdsIncreasing(fishes: seq<Fish>, bound: nat) {
    (forall i, j :: 0 <= i < j < |fishes| ==> fishes[i].id < fishes[j].id) &&
    (forall i :: 0 <= i < |fishes| ==> fishes[i].id < bound)
  }

  ghost predicate FishSummonsKnown(f: Fish, catalog: map<string, FishTemplate>) {
    forall p :: p in SummonPacksOf(f) ==> p.kind in catalog
  }

  /** The fish-list half of the game invariant. */
  ghost predicate FishesOk(fishes: seq<Fish>, bound: nat, catalog: map<string, FishTemplate>) {
    IdsIncreasing(fishes, bound) && forall f :: f in fishes ==> FishSummonsKnown(f, catalog)
  }

  /** Replacing a fish by a copy with the same id and summon packs keeps the
      fish-list invariant. */
  lemma FishesOkUpdate(fishes: seq<Fish>, bound: nat, catalog: map<string, FishTemplate>, i: nat, f: Fish)
    requires FishesOk(fishes, bound, catalog) && i < |fishes|
    requires f.id == fishes[i].id && f.bossSummonPacks == fishes[i].bossSummonPacks
    ensures FishesOk(fishes[i := f], bound, catalog)
  {
    forall g | g in fishes[i := f]
      ensures FishSummonsKnown(g, catalog)
    {
      var k :| 0 <= k < |fishes[i := f]| && fishes[i := f][k] == g;
      if k != i {
        assert fishes[k] in fishes;
      } else {
        assert fishes[i] in fishes;
      }
    }
  }

  /** The shared simulation record. Catalogs, map and stage are fixed for a
      session; `hypot` stands for `Math.hypot`. */
  class Game {
    const grid: Grid
    const pathCellSet: set<string>
    const pathPoints: seq<Point>
    const towerCatalog: map<string, TowerSpec>
    const fishCatalog: map<string, FishTemplate>
    const stageId: string
    const stageCatalog: seq<Stage>
    const stage: Stage
    const hypot: (real, real) -> real

    var gold: int
    var lives: int
    var maxLives: int
    var kills: int
    var wave: int
    var timeScale: real
    var paused: bool
    var inMainMenu: bool
    var towers: seq<Tower>
    var bullets: seq<Bullet>
    var fishes: seq<Fish>
    var spawnQueue: seq<string>
    var spawnTimer: real
    var waveActive: bool
    var nextFishId: nat
    var nextTowerId: nat
    var stageCleared: bool
    var stageFailed: bool
    var stageFailReason: Option<ClearFailure>
    var selectedTowerType: string
    var stageRewarded: bool
    var lastAwardedStars: int
    var lastResultReward: int
    var resultShown: bool
    var towersPlaced: int
    var towerUpgrades: int
    var branchUpgrades: int
    var bossKills: int
    var maxWaveReached: int
    var autoStartWaves: Option<bool>
    var autoWaveTimer: real
    var autoWaveDelayTotal: real
    var autoWaveBonusPreview: int
    var earlyStartStreak: int
    var stageStarProgress: map<string, int>
    var unlockedStages: set<string>
    var bestScores: map<string, int>

    /** What the end of a frame reads and writes besides the board: the best
        wave, whether the stage reward was paid, whether the result screen is
        up, and the pause. */
    function Record(): (int, bool, bool, bool)
      reads this`maxWaveReached, this`stageRewarded, this`resultShown, this`paused
    {
      (maxWaveReached, stageRewarded, resultShown, paused)
    }

    /** The kill counters of the game. */
    function Counters(): Tally reads this {
      Tally(kills, gold, bossKills)
    }

    function WavePlanOf(): WavePlan reads this {
      stage.wavePlan
    }

    ghost predicate Valid()
      reads this`fishes, this`nextFishId, this`spawnQueue
    {
      |pathPoints| >= 1 &&
      "basic" in towerCatalog &&
      FishesOk(fishes, nextFishId, fishCatalog) &&
      (forall k :: k in spawnQueue ==> k in fishCatalog) &&
      PlanKindsKnown(stage.wavePlan, fishCatalog) &&
      SummonsKnown(fishCatalog)
    }

    /** The record as the game builds it at start-up (paused, in the menu,
        120 gold, 20 lives, wave 0, nothing placed or spawned). */
    constructor (map_: MapRuntime, towerCatalog: map<string, TowerSpec>, fishCatalog: map<string, FishTemplate>,
                 stageId: string, stageCatalog: seq<Stage>, stage: Stage, hypot: (real, real) -> real,
                 stars: map<string, int>, unlocked: set<string>, best: map<string, int>)
      requires |map_.pathPoints| >= 1 && "basic" in towerCatalog
      requires PlanKindsKnown(stage.wavePlan, fishCatalog) && SummonsKnown(fishCatalog)
      ensures Valid()
      ensures gold == 120 && lives == 20 && maxLives == 20 && kills == 0 && wave == 0
      ensures towers == [] && bullets == [] && fishes == [] && spawnQueue == []
      ensures !waveActive && paused && inMainMenu && nextFishId == 1 && nextTowerId == 1
      ensures !stageCleared && !stageFailed && !stageRewarded && earlyStartStreak == 0
      ensures autoWaveTimer == AutoWaveDelay(stage.wavePlan)
      ensures this.stage == stage && this.hypot == hypot && this.pathPoints == map_.pathPoints
    {
      grid := map_.grid;
      pathCellSet := map_.pathCellSet;
      pathPoints := map_.pathPoints;
      this.towerCatalog := towerCatalog;
      this.fishCatalog := fishCatalog;
      this.stageId := stageId;
      this.stageCatalog := stageCatalog;
      this.stage := stage;
      this.hypot := hypot;
      gold := 120;
      lives := 20;
      maxLives := 20;
      kills := 0;
      wave := 0;
      timeScale := 1.0;
      paused := true;
      inMainMenu := true;
      towers := [];
      bullets := [];
      fishes := [];
      spawnQueue := [];
      spawnTimer := 0.0;
      waveActive := false;
      nextFishId := 1;
      nextTowerId := 1;
      stageCleared := false;
      stageFailed := false;
      stageFailReason := None;
      selectedTowerType := "basic";
      stageRewarded := false;
      lastAwardedStars := 0;
      lastResultReward := 0;
      resultShown := false;
      towersPlaced := 0;
      towerUpgrades := 0;
      branchUpgrades := 0;
      bossKills := 0;
      maxWaveReached := 0;
      autoStartWaves := None;
      autoWaveTimer := AutoWaveDelay(stage.wavePlan);
      autoWaveDelayTotal := AutoWaveDelay(stage.wavePlan);
      autoWaveBonusPreview := 0;
      earlyStartStreak := 0;
      stageStarProgress := stars;
      unlockedStages := unlocked;
      bestScores := best;
    }
  }
}
