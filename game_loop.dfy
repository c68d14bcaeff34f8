// The per-frame driver of the game: the stage-clear reward and the
// simulation half of the animation loop (spawning, towers, bullets, fish,
// reward, result flags). Rendering, sound and the DOM are not modelled.

module GameLoop {
  import opened Common
  import opened GameState
  import opened StageProgress
  import opened SpawnSystem
  import opened FishFactory
  import opened CombatSystem
  import opened FramePhases

  // ===== the stage-clear reward ==================================================

  /** A reward is due for a cleared, not yet rewarded stage that exists in
      the catalog and is not an endless stage. */
  predicate AwardDue(catalog: seq<Stage>, id: string, cleared: bool, rewarded: bool) {
    cleared && !rewarded && FindStage(catalog, id).Some? && !IsEndless(FindStage(catalog, id).value.id)
  }

  /** The stage a clear of `current` unlocks: the next one in catalog order,
      when there is one and its id is not empty. */
  function Unlocks(ids: seq<string>, current: string): (r: set<string>)
    ensures forall x :: x in r ==> x in ids && !IsEndless(x) && x != ""
    ensures IsEndless(current) ==> r == {}
    ensures |r| <= 1
    ensures var o := OrderedStageIds(ids); var k := IndexOf(o, current);
      k.Some? && k.value + 1 < |o| && o[k.value + 1] != "" ==> r == {o[k.value + 1]}
  {
    var next := NextPlayableStageId(ids, current);
    if next.Some? && next.value != "" then {next.value} else {}
  }

  /** Clearing the last stage of the catalog order unlocks nothing. */
  lemma LastStageUnlocksNothing(ids: seq<string>, current: string)
    requires var o := OrderedStageIds(ids); |o| > 0 && o[|o| - 1] == current
    requires forall i, j :: 0 <= i < j < |ids| ==> ids[i] != ids[j]
    ensures Unlocks(ids, current) == {}
  {
    var o := OrderedStageIds(ids);
    OrderedDistinct(ids);
    var k := IndexOf(o, current);
    assert k.Some? && k.value == |o| - 1;
  }

  /** In a catalog without repeated ids, clearing the campaign stage at
      position `i` of the stage order unlocks the stage at position `i + 1`
      (when its id is not empty). */
  lemma ClearUnlocksNext(ids: seq<string>, i: nat)
    requires forall a, b :: 0 <= a < b < |ids| ==> ids[a] != ids[b]
    requires i + 1 < |OrderedStageIds(ids)|
    ensures var o := OrderedStageIds(ids);
      NextPlayableStageId(ids, o[i]) == Some(o[i + 1]) &&
      Unlocks(ids, o[i]) == (if o[i + 1] != "" then {o[i + 1]} else {})
  {
    var o := OrderedStageIds(ids);
    OrderedDistinct(ids);
    var k := IndexOf(o, o[i]);
    assert k.Some? && k.value == i;
  }

  /** Catalog order keeps ids apart when the catalog does. */
  lemma {:induction false} OrderedDistinct(ids: seq<string>)
    requires forall i, j :: 0 <= i < j < |ids| ==> ids[i] != ids[j]
    ensures var o := OrderedStageIds(ids); forall i, j :: 0 <= i < j < |o| ==> o[i] != o[j]
  {
    if ids != [] {
      var front := ids[..|ids| - 1];
      OrderedDistinct(front);
      var last := ids[|ids| - 1];
      assert last !in front by {
        forall j | 0 <= j < |front| ensures front[j] != last {
          assert front[j] == ids[j];
        }
      }
      assert last !in OrderedStageIds(front);
    }
  }

  /** A saved number, 0 when missing (`?? 0`). */
  function Stored(m: map<string, int>, key: string): int {
    if key in m then m[key] else 0
  }

  /** The star record after `id` was cleared with `stars`: the best count
      is kept, every other stage keeps its record. */
  function Recorded(progress: map<string, int>, id: string, stars: int): (r: map<string, int>)
    ensures r.Keys == progress.Keys + {id}
    ensures r[id] >= stars && (id in progress ==> r[id] >= progress[id])
    ensures r[id] == stars || r[id] == Stored(progress, id)
    ensures forall k :: k in progress && k != id ==> r[k] == progress[k]
  {
    progress[id := MaxInt(Stored(progress, id), stars)]
  }

  /** The reward itself, for a due stage `id`. */
  method GrantReward(g: Game, id: string)
    modifies g`gold, g`stageStarProgress, g`stageRewarded, g`lastAwardedStars, g`lastResultReward, g`unlockedStages
    ensures g.stageRewarded && g.lastAwardedStars == Stars(g.lives)
    ensures g.lastResultReward == ClearReward(g.wave, g.kills, Stars(g.lives))
    ensures g.gold == old(g.gold) + ClearReward(g.wave, g.kills, Stars(g.lives))
    ensures g.stageStarProgress == Recorded(old(g.stageStarProgress), id, Stars(g.lives))
    ensures g.unlockedStages == old(g.unlockedStages) + Unlocks(StageIds(g.stageCatalog), id)
  {
    var stars := Stars(g.lives);
    var reward := ClearReward(g.wave, g.kills, stars);
    g.gold := g.gold + reward;
    g.stageStarProgress := Recorded(g.stageStarProgress, id, stars);
    g.stageRewarded := true;
    g.lastAwardedStars := stars;
    g.lastResultReward := reward;
    g.unlockedStages := g.unlockedStages + Unlocks(StageIds(g.stageCatalog), id);
  }

  /** The gold a frame's reward pays: the clear reward when one is due,
      nothing otherwise. */
  function RewardPaid(catalog: seq<Stage>, id: string, cleared: bool, rewarded: bool, wave: int, kills: int, lives: int): (r: int)
    ensures !AwardDue(catalog, id, cleared, rewarded) ==> r == 0
    ensures AwardDue(catalog, id, cleared, rewarded) && wave >= 0 && kills >= 0 ==> r >= 60
  {
    if AwardDue(catalog, id, cleared, rewarded) then ClearReward(wave, kills, Stars(lives)) else 0
  }

  /** `awardStageStarsIfNeeded`: once per cleared stage, stars from the
      lives kept, a gold reward, the best star count kept, and the next
      stage unlocked. */
  method AwardStageStarsIfNeeded(g: Game)
    modifies g`gold, g`stageStarProgress, g`stageRewarded, g`lastAwardedStars, g`lastResultReward, g`unlockedStages
    ensures !AwardDue(g.stageCatalog, g.stageId, g.stageCleared, g.stageRewarded)
    ensures g.gold == old(g.gold) + RewardPaid(g.stageCatalog, g.stageId, g.stageCleared, old(g.stageRewarded), g.wave, g.kills, g.lives)
    ensures !AwardDue(g.stageCatalog, g.stageId, g.stageCleared, old(g.stageRewarded)) ==>
      unchanged(g`gold, g`stageStarProgress, g`stageRewarded, g`lastAwardedStars, g`lastResultReward, g`unlockedStages)
    ensures AwardDue(g.stageCatalog, g.stageId, g.stageCleared, old(g.stageRewarded)) ==>
      var id := FindStage(g.stageCatalog, g.stageId).value.id;
      g.stageRewarded && g.lastAwardedStars == Stars(g.lives) &&
      g.gold == old(g.gold) + ClearReward(g.wave, g.kills, Stars(g.lives)) &&
      g.stageStarProgress == Recorded(old(g.stageStarProgress), id, Stars(g.lives)) &&
      g.unlockedStages == old(g.unlockedStages) + Unlocks(StageIds(g.stageCatalog), id)
    ensures old(g.stageStarProgress).Keys <= g.stageStarProgress.Keys
    ensures forall k :: k in old(g.stageStarProgress) ==> g.stageStarProgress[k] >= old(g.stageStarProgress)[k]
    ensures old(g.unlockedStages) <= g.unlockedStages
  {
    var stage := FindStage(g.stageCatalog, g.stageId);
    if !g.stageCleared || g.stageRewarded || stage.None? || IsEndless(stage.value.id) {
      return;
    }
    GrantReward(g, stage.value.id);
  }

  // ===== the frame ===============================================================

  /** The simulation only runs outside the menu, unpaused, with lives left. */
  predicate Running(inMainMenu: bool, paused: bool, lives: int) {
    !inMainMenu && !paused && lives > 0
  }

  /** The step a frame simulates: the wall-clock gap capped at 0.05 s, then
      scaled by the game speed. */
  function FrameDt(elapsed: real, timeScale: real): (r: real)
    ensures 0.0 <= elapsed && 0.0 <= timeScale ==> 0.0 <= r <= 0.05 * timeScale
    ensures elapsed >= 0.05 ==> r == 0.05 * timeScale
  {
    Min(0.05, elapsed) * timeScale
  }

  /** Towers, then bullets: the shooting half of the combat phase, which
      costs no lives. */
  method Shoot(g: Game, dt: real) returns (ghost shot: ShotLog)
    requires g.Valid()
    modifies g`towers, g`bullets, g`fishes, g`nextFishId, g`kills, g`gold, g`bossKills
    ensures g.Valid()
    ensures Shot(g.hypot, dt, old(g.fishes), old(g.towers), old(g.bullets), old(g.Counters()), shot,
                 g.towers, g.bullets, g.fishes, g.Counters())
    ensures g.Record() == old(g.Record())
  {
    ghost var volleys, aims, rolls := UpdateTowers(g, dt);
    ghost var lists, fates, crits, splashRolls, deads := UpdateBullets(g, dt);
    shot := ShotLog(volleys, aims, rolls, lists, fates, crits, splashRolls, deads);
    ShotOf(g.hypot, dt, old(g.fishes), old(g.towers), old(g.bullets), old(g.Counters()), shot,
           g.towers, g.bullets, g.fishes, g.Counters());
  }

  /** Towers, then bullets, then fish, as one combat phase. */
  method Combat(g: Game, dt: real) returns (ghost shot: ShotLog, ghost mid: seq<Fish>, ghost swim: SwimLog)
    requires g.Valid()
    modifies g`towers, g`bullets, g`fishes, g`nextFishId, g`kills, g`gold, g`bossKills, g`lives
    ensures g.Valid()
    ensures Fought(g.hypot, g.pathPoints, dt, old(BoardOf(g)), shot, mid, swim, BoardOf(g))
    ensures g.Record() == old(g.Record())
  {
    shot := Shoot(g, dt);
    mid := g.fishes;
    ghost var passed, idx, turns, fates := UpdateFishes(g, dt);
    LeakersLeak(g.pathPoints, turns, fates, dt);
    swim := SwimLog(passed, idx, turns, fates);
    SwumOf(g.hypot, g.pathPoints, dt, mid, swim, g.fishes);
  }

  /** The end of a frame: the reward, then the result screen opens once the
      stage is cleared or failed, which pauses the game when the result
      overlay is on the page (`overlay`). */
  method Settle(g: Game, overlay: bool)
    modifies g`gold, g`stageStarProgress, g`stageRewarded, g`lastAwardedStars, g`lastResultReward, g`unlockedStages,
             g`resultShown, g`paused
    ensures !AwardDue(g.stageCatalog, g.stageId, g.stageCleared, g.stageRewarded)
    ensures g.gold == old(g.gold) + RewardPaid(g.stageCatalog, g.stageId, g.stageCleared, old(g.stageRewarded), g.wave, g.kills, g.lives)
    ensures g.resultShown == (old(g.resultShown) || g.stageCleared || g.stageFailed)
    ensures g.paused == (old(g.paused) || (overlay && !old(g.resultShown) && (g.stageCleared || g.stageFailed)))
    ensures old(g.stageStarProgress).Keys <= g.stageStarProgress.Keys
    ensures forall k :: k in old(g.stageStarProgress) ==> g.stageStarProgress[k] >= old(g.stageStarProgress)[k]
    ensures old(g.unlockedStages) <= g.unlockedStages
  {
    AwardStageStarsIfNeeded(g);
    if g.stageCleared && !g.resultShown {
      g.resultShown := true;
      OpenResult(g, overlay);
    }
    if g.stageFailed && !g.resultShown {
      g.resultShown := true;
      OpenResult(g, overlay);
    }
  }

  /** `openResultOverlay`, as far as the simulation sees it: the game pauses
      when the overlay is on the page. */
  method OpenResult(g: Game, overlay: bool)
    modifies g`paused
    ensures g.paused == (old(g.paused) || overlay)
  {
    if overlay {
      g.paused := true;
    }
  }

  /** What one simulated frame of `dt` seconds does, from the state before
      it: the wave record is raised to the wave the frame started in; the
      spawning phase leaves the fish list `spawned`; combat runs from there
      with the towers, bullets, lives and counters as they were, and leaves
      the board `ended`, which the end of the frame keeps but for the
      reward, paid on top when due; and the result screen opens, pausing the
      game when the overlay is on the page, once the stage is cleared or
      failed. */
  twostate predicate Framed(g: Game, dt: real, overlay: bool, spawned: seq<Fish>, shot: ShotLog, mid: seq<Fish>,
                            swim: SwimLog, ended: Board)
    reads g
  {
    g.maxWaveReached == MaxInt(old(g.maxWaveReached), old(g.wave)) &&
    SpawnPhase(g.fishCatalog, g.pathPoints, old(g.waveActive), old(g.spawnQueue), old(g.spawnTimer),
            old(g.nextFishId), dt, old(g.fishes), spawned) &&
    Fought(g.hypot, g.pathPoints, dt, old(BoardOf(g)).(fishes := spawned), shot, mid, swim, ended) &&
    g.fishes == ended.fishes && g.towers == ended.towers && g.bullets == ended.bullets && g.lives == ended.lives &&
    g.kills == ended.counters.kills && g.bossKills == ended.counters.bossKills &&
    g.gold == ended.counters.gold + RewardPaid(g.stageCatalog, g.stageId, g.stageCleared, old(g.stageRewarded), g.wave, g.kills, g.lives) &&
    !AwardDue(g.stageCatalog, g.stageId, g.stageCleared, g.stageRewarded) &&
    g.resultShown == (old(g.resultShown) || g.stageCleared || g.stageFailed) &&
    g.paused == (old(g.paused) || (overlay && !old(g.resultShown) && (g.stageCleared || g.stageFailed)))
  }

  /** One simulated frame of `dt` seconds, in the loop's order: the wave
      record, spawning, combat from the fish list spawning left, then the
      reward and the result screen. */
  method Advance(g: Game, dt: real, overlay: bool)
    returns (ghost spawned: seq<Fish>, ghost shot: ShotLog, ghost mid: seq<Fish>, ghost swim: SwimLog, ghost ended: Board)
    requires g.Valid()
    modifies g`gold, g`earlyStartStreak, g`wave, g`spawnQueue, g`spawnTimer, g`waveActive,
             g`autoWaveTimer, g`autoWaveDelayTotal, g`autoWaveBonusPreview, g`fishes, g`nextFishId,
             g`stageCleared, g`stageFailed, g`stageFailReason, g`towers, g`bullets, g`kills, g`bossKills, g`lives,
             g`stageStarProgress, g`stageRewarded, g`lastAwardedStars, g`lastResultReward, g`unlockedStages,
             g`resultShown, g`maxWaveReached, g`paused
    ensures g.Valid()
    ensures Framed(g, dt, overlay, spawned, shot, mid, swim, ended)
    ensures old(g.unlockedStages) <= g.unlockedStages
  {
    var startWave := g.wave;
    spawned, shot, mid, swim := Simulate(g, dt);
    ended := BoardOf(g);
    Finish(g, overlay, startWave);
  }

  /** The end of a frame, from the board combat left: the wave record takes
      the wave the frame started in (spawning and combat never read it),
      then the reward and the result screen. */
  method Finish(g: Game, overlay: bool, startWave: int)
    requires g.Valid()
    modifies g`gold, g`stageStarProgress, g`stageRewarded, g`lastAwardedStars, g`lastResultReward, g`unlockedStages,
             g`resultShown, g`paused, g`maxWaveReached
    ensures g.Valid()
    ensures g.maxWaveReached == MaxInt(old(g.maxWaveReached), startWave)
    ensures g.fishes == old(g.fishes) && g.towers == old(g.towers) && g.bullets == old(g.bullets) && g.lives == old(g.lives)
    ensures g.kills == old(g.kills) && g.bossKills == old(g.bossKills)
    ensures g.gold == old(g.gold) + RewardPaid(g.stageCatalog, g.stageId, g.stageCleared, old(g.stageRewarded), g.wave, g.kills, g.lives)
    ensures !AwardDue(g.stageCatalog, g.stageId, g.stageCleared, g.stageRewarded)
    ensures g.resultShown == (old(g.resultShown) || g.stageCleared || g.stageFailed)
    ensures g.paused == (old(g.paused) || (overlay && !old(g.resultShown) && (g.stageCleared || g.stageFailed)))
    ensures old(g.unlockedStages) <= g.unlockedStages
  {
    g.maxWaveReached := MaxInt(g.maxWaveReached, startWave);
    Settle(g, overlay);
  }

  /** Spawning, then combat from the fish list spawning left. */
  method Simulate(g: Game, dt: real) returns (ghost spawned: seq<Fish>, ghost shot: ShotLog, ghost mid: seq<Fish>, ghost swim: SwimLog)
    requires g.Valid()
    modifies g`gold, g`earlyStartStreak, g`wave, g`spawnQueue, g`spawnTimer, g`waveActive,
             g`autoWaveTimer, g`autoWaveDelayTotal, g`autoWaveBonusPreview, g`fishes, g`nextFishId,
             g`stageCleared, g`stageFailed, g`stageFailReason,
             g`towers, g`bullets, g`kills, g`bossKills, g`lives
    ensures g.Valid()
    ensures SpawnPhase(g.fishCatalog, g.pathPoints, old(g.waveActive), old(g.spawnQueue), old(g.spawnTimer),
                    old(g.nextFishId), dt, old(g.fishes), spawned)
    ensures Fought(g.hypot, g.pathPoints, dt, old(BoardOf(g)).(fishes := spawned), shot, mid, swim, BoardOf(g))
    ensures g.Record() == old(g.Record())
  {
    ghost var active, queue, timer, id0 := g.waveActive, g.spawnQueue, g.spawnTimer, g.nextFishId;
    ghost var f0 := g.fishes;
    ghost var roll := UpdateSpawning(g, dt);
    spawned := g.fishes;
    assert SpawnPhase(g.fishCatalog, g.pathPoints, active, queue, timer, id0, dt, f0, spawned);
    assert BoardOf(g) == old(BoardOf(g)).(fishes := spawned);
    shot, mid, swim := Combat(g, dt);
  }

  /** The endless stage's records: when the wave or the kills beat the
      saved best, both bests are raised to at least the current values. */
  function EndlessBest(best: map<string, int>, stageId: string, wave: int, kills: int): (r: map<string, int>)
    ensures !IsEndless(stageId) ==> r == best
    ensures best.Keys <= r.Keys && r.Keys <= best.Keys + {"endlessWave", "endlessKills"}
    ensures forall k :: k in best ==> r[k] >= best[k]
    ensures forall k :: k in best && k != "endlessWave" && k != "endlessKills" ==> r[k] == best[k]
    ensures IsEndless(stageId) && (wave > Stored(best, "endlessWave") || kills > Stored(best, "endlessKills")) ==>
      Stored(r, "endlessWave") == MaxInt(Stored(best, "endlessWave"), wave) &&
      Stored(r, "endlessKills") == MaxInt(Stored(best, "endlessKills"), kills)
    ensures !(wave > Stored(best, "endlessWave") || kills > Stored(best, "endlessKills")) ==> r == best
  {
    var waveBest := Stored(best, "endlessWave");
    var killsBest := Stored(best, "endlessKills");
    if IsEndless(stageId) && (wave > waveBest || kills > killsBest) then
      best["endlessWave" := MaxInt(waveBest, wave)]["endlessKills" := MaxInt(killsBest, kills)]
    else best
  }

  /** The gated part of `loop`: one simulated frame when the game runs,
      nothing otherwise. */
  method RunFrame(g: Game, elapsed: real, overlay: bool)
    returns (ghost spawned: seq<Fish>, ghost shot: ShotLog, ghost mid: seq<Fish>, ghost swim: SwimLog, ghost ended: Board)
    requires g.Valid()
    modifies g`gold, g`earlyStartStreak, g`wave, g`spawnQueue, g`spawnTimer, g`waveActive,
             g`autoWaveTimer, g`autoWaveDelayTotal, g`autoWaveBonusPreview, g`fishes, g`nextFishId,
             g`stageCleared, g`stageFailed, g`stageFailReason, g`towers, g`bullets, g`kills, g`bossKills, g`lives,
             g`stageStarProgress, g`stageRewarded, g`lastAwardedStars, g`lastResultReward, g`unlockedStages,
             g`resultShown, g`maxWaveReached, g`paused
    ensures g.Valid()
    ensures !Running(old(g.inMainMenu), old(g.paused), old(g.lives)) ==> unchanged(g)
    ensures Running(old(g.inMainMenu), old(g.paused), old(g.lives)) ==>
      Framed(g, FrameDt(elapsed, old(g.timeScale)), overlay, spawned, shot, mid, swim, ended)
    ensures old(g.unlockedStages) <= g.unlockedStages
  {
    spawned, shot, mid, swim, ended := [], ShotLog([], [], [], [], [], [], [], []), [], SwimLog([], [], [], []), BoardOf(g);
    if !Running(g.inMainMenu, g.paused, g.lives) {
      return;
    }
    spawned, shot, mid, swim, ended := Advance(g, FrameDt(elapsed, g.timeScale), overlay);
  }

  /** The update half of `loop`: the gated frame, then, every frame, the
      endless records, and the result screen opened once no lives are left;
      the game pauses exactly when the result screen opens with the overlay
      on the page. */
  method Step(g: Game, elapsed: real, overlay: bool)
    requires g.Valid()
    modifies g`gold, g`earlyStartStreak, g`wave, g`spawnQueue, g`spawnTimer, g`waveActive,
             g`autoWaveTimer, g`autoWaveDelayTotal, g`autoWaveBonusPreview, g`fishes, g`nextFishId,
             g`stageCleared, g`stageFailed, g`stageFailReason, g`towers, g`bullets, g`kills, g`bossKills, g`lives,
             g`stageStarProgress, g`stageRewarded, g`lastAwardedStars, g`lastResultReward, g`unlockedStages,
             g`resultShown, g`maxWaveReached, g`bestScores, g`paused
    ensures g.Valid()
    ensures !Running(old(g.inMainMenu), old(g.paused), old(g.lives)) ==>
      g.wave == old(g.wave) && g.kills == old(g.kills) && g.lives == old(g.lives) && g.gold == old(g.gold) &&
      g.fishes == old(g.fishes) && g.towers == old(g.towers) && g.bullets == old(g.bullets) &&
      g.spawnQueue == old(g.spawnQueue) && g.stageCleared == old(g.stageCleared) &&
      g.stageFailed == old(g.stageFailed) && g.stageRewarded == old(g.stageRewarded) &&
      g.resultShown == (old(g.resultShown) || g.lives <= 0)
    ensures Running(old(g.inMainMenu), old(g.paused), old(g.lives)) ==>
      g.maxWaveReached == MaxInt(old(g.maxWaveReached), old(g.wave)) &&
      !AwardDue(g.stageCatalog, g.stageId, g.stageCleared, g.stageRewarded) &&
      g.resultShown == (old(g.resultShown) || g.stageCleared || g.stageFailed || g.lives <= 0)
    ensures g.paused == (old(g.paused) || (overlay && !old(g.resultShown) && g.resultShown))
    ensures g.bestScores == EndlessBest(old(g.bestScores), g.stageId, g.wave, g.kills)
    ensures old(g.unlockedStages) <= g.unlockedStages
  {
    ghost var spawned, shot, mid, swim, ended := RunFrame(g, elapsed, overlay);
    EndFrame(g, overlay);
  }

  /** What `loop` does every frame after the gated part: the endless records,
      then the result screen once no lives are left, which pauses the game
      when the overlay is on the page; the rest of the state is kept. */
  method EndFrame(g: Game, overlay: bool)
    requires g.Valid()
    modifies g`bestScores, g`resultShown, g`paused
    ensures g.Valid()
    ensures g.bestScores == EndlessBest(old(g.bestScores), g.stageId, g.wave, g.kills)
    ensures g.resultShown == (old(g.resultShown) || g.lives <= 0)
    ensures g.paused == (old(g.paused) || (overlay && !old(g.resultShown) && g.lives <= 0))
    ensures unchanged(g`wave, g`kills, g`lives, g`gold, g`fishes, g`towers, g`bullets, g`spawnQueue)
    ensures unchanged(g`stageCleared, g`stageFailed, g`stageRewarded, g`maxWaveReached, g`unlockedStages)
  {
    g.bestScores := EndlessBest(g.bestScores, g.stageId, g.wave, g.kills);
    if g.lives <= 0 && !g.resultShown {
      g.resultShown := true;
      OpenResult(g, overlay);
    }
  }
}
