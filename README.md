# Fish tower defence — simulation core in Dafny

This project models the simulation core of a browser tower-defence game in
which towers placed on a grid shoot at waves of fish swimming along a path.
It covers these parts of the game:

- **Map** (`map_runtime.dfy`, module `MapRuntime`): the grid's placement on
  the canvas, the path's cell centres and the `"x,y"` key set of path cells.
- **Fish factory** (`fish_factory.dfy`, `FishFactory`): a fish is built from
  its catalog template, its skills and the caller's overrides, and appended
  to the fish list with the next id.
- **Towers** (`tower_system.dfy`, `TowerSystem`): building a tower,
  placing it, levelling it up, the two branch options of each tower type,
  and branch upgrades with their tiered effects.
- **Combat** (`combat_system.dfy`, `CombatSystem`):
  - target selection and tower fire, including the occasional second shot;
  - bullet flight, damage through armour, level pierce and critical hits;
  - boss shields and slow, burn and armour-break payloads;
  - splash damage and slow pulses;
  - boss summon and shield thresholds, split-on-death children;
  - the fish tick: effects wearing off, burn damage, acceleration,
    movement and leaking.
- **Waves** (`spawn_system.dfy`, `SpawnSystem`):
  - the early-start bonus and the count expressions of spawn rules;
  - building a wave's queue (gated rules, boss-wave extras, a Fisher–Yates
    shuffle, the boss first or last);
  - starting waves, the auto-start countdown, the spawn clock and the end
    of a wave.
- **Stage and saved progress** (`stage_progress.dfy`, `StageProgress`):
  - the settings and progress sanitisers over a JSON value model;
  - stage clear conditions, stars, the clear reward and stage order.
- **Frame** (`game_loop.dfy`, `GameLoop`): the stage-clear reward and the
  update half of the animation loop.

The shared game record is the class `GameState.Game` (`game_state.dfy`). Its
fields are the mutable state of the game object, updated in place by
methods whose `modifies` clauses name exactly the fields they touch. The
invariant `Valid()` says:

- fish ids are below the id counter and strictly increasing;
- every queued or summoned kind is in the fish catalog;
- the path is not empty.

Math.random is the method `Common.Random` (a value in [0, 1)). Math.hypot is
the game's `hypot` function field, which the model leaves abstract. `Number()`
of a string is a parameter `strNum`.

Opening the result overlay pauses the game when the overlay element is on
the page. Whether it is there is the parameter `overlay` of
`GameLoop.OpenResult`, `GameLoop.Settle`, `GameLoop.Advance`,
`GameLoop.EndFrame` and `GameLoop.Step`; the overlay's contents are not
modelled.

## Model

| member | source | states |
|---|---|---|
| MapRuntime.GridLeft | src/core/map.js:12 | the grid's left edge is the floor of half the canvas width left over by the grid |
| MapRuntime.PlaceGrid | src/core/map.js:5-13 | columns, rows and cell size are copied; the grid is centred horizontally; the top offset defaults to 30 |
| MapRuntime.CellCentre | src/core/map.js:17-20 | a path point lies exactly halfway between the two edges of its cell, on both axes |
| MapRuntime.CellAtCentre | src/core/map.js:17-20 | the cell containing the centre of cell (cx, cy) is (cx, cy) again |
| MapRuntime.IntToStringInjective | src/core/map.js:22 | the decimal text of an integer determines the integer |
| MapRuntime.CellKeyInjective | src/core/map.js:22 | two cells with the same `"x,y"` key are the same cell |
| MapRuntime.PathCellSetMembership | src/core/map.js:22 | a cell's key is in the path key set iff the cell is on the path |
| MapRuntime.PathPoints | src/core/map.js:17-20 | one point per path cell, in order, each the centre of its cell |
| MapRuntime.CreateMapRuntime | src/core/map.js:4-25 | the runtime's grid, path cells, path points and key set are exactly those above |
| FishFactory.FirstOfType | src/entities/fishFactory.js:6-10 | the position of the first skill of a type; none iff no skill has that type |
| FishFactory.ProfileFindsFirst | src/entities/fishFactory.js:5-10 | the one-pass skill profile finds, for every type, the same skill as `find` |
| FishFactory.StartPoint | src/entities/fishFactory.js:4 | the start point is a path point, and the first one when no path index is given |
| FishFactory.NewFishBasics | src/entities/fishFactory.js:34-61 | a new fish copies the template's stats, starts with no effects, no shield and every flag cleared, and takes hp, position and speeds from the overrides when given |
| FishFactory.NewFishSkills | src/entities/fishFactory.js:27-32 | only bosses get thresholds; a boss without the skill gets the default summon (0.85, 0.6, 0.35) and shield (0.72, 0.42) thresholds |
| FishFactory.NewFishSummonLadder | src/entities/fishFactory.js:27-29 | a boss's summon ladder is that of its first summon-threshold skill, or the default when that skill has no thresholds |
| FishFactory.NewFishShieldLadder | src/entities/fishFactory.js:30-32 | a boss's shield ladder is that of its first shield-threshold skill, or the default when that skill has no thresholds |
| FishFactory.NewFishArmor | src/entities/fishFactory.js:38 | without an armour_static skill the template's ratio is kept; otherwise the first such skill's ratio, or the template's when it has none |
| FishFactory.NewFishShieldRatio | src/entities/fishFactory.js:58 | the shield ratio is the first boss_shield_threshold skill's, 0.16 when there is none or it has no ratio |
| FishFactory.NewFishSummonSpeed | src/entities/fishFactory.js:60 | the summon speed multiplier is the first boss_summon_threshold skill's, 1.08 when there is none or it has no multiplier |
| FishFactory.NewFishPacks | src/entities/fishFactory.js:59 | a new fish's summon packs, when present, are the packs of one of the template's summon skills |
| FishFactory.NewFishSummonsKnown | src/entities/fishFactory.js:59 | a new fish's summon packs name catalog kinds when the catalog's do |
| FishFactory.SpawnFish | src/entities/fishFactory.js:2-62 | the fish list grows by exactly the new fish with the old id counter, and the counter goes up by one |
| FishFactory.SpawnedAt | src/systems/combatSystem.js:110-122 | the j-th fish of a batch is the fish built from the j-th request with id `id0 + j` |
| FishFactory.SpawnedOk | src/systems/combatSystem.js:164-174 | appending a batch keeps ids increasing and below the counter |
| FishFactory.SpawnAll | src/systems/combatSystem.js:164-174 | a batch of spawns appends exactly the batch and advances the id counter by its size |
| CombatSystem.AcquireTarget | src/systems/combatSystem.js:6-19 | the result is the first in-range fish with the greatest score; none iff no fish is in range |
| CombatSystem.BestTargetUnique | src/systems/combatSystem.js:13-16 | the strict `>` comparison makes the chosen target unique |
| CombatSystem.TowerStep | src/systems/combatSystem.js:22-69 | one tower's turn: the cooldown runs down; at zero with a target it fires a primary shot, and on a roll below its chance a weaker second shot |
| CombatSystem.AllTurnsSnoc | src/systems/combatSystem.js:22 | the tower loop's record of turns extends by one tower at a time |
| CombatSystem.TowerPass | src/systems/combatSystem.js:21-71 | every tower takes its turn in order; the shots are the concatenation of the volleys |
| CombatSystem.UpdateTowers | src/systems/combatSystem.js:21-71 | the towers become their turns and the bullet list grows by exactly the volleys |
| CombatSystem.MaxAmount | src/systems/combatSystem.js:141 | the strongest armour break is at least every break and is one of them |
| CombatSystem.EffectiveArmorRatio | src/systems/combatSystem.js:138-143 | without breaks the base ratio (default 1); with breaks the base plus the strongest break, capped at 1 |
| CombatSystem.WeakerBreakDoesNotStack | src/systems/combatSystem.js:141-142 | adding a break no stronger than an existing one leaves the ratio unchanged |
| CombatSystem.MaxAppend | src/systems/combatSystem.js:141 | the strongest of a longer list is the larger of the old strongest and the new one |
| CombatSystem.CritFactor | src/systems/combatSystem.js:219 | no crit chance means a factor of 1; otherwise the factor is 1 or the multiplier (1.8 when the multiplier is 0) |
| CombatSystem.WithPayloads | src/systems/combatSystem.js:198-202 | a dead fish receives nothing; a live one gets the bullet's slow, armour break and burn appended; every other field, hp and shield included, is kept |
| CombatSystem.Struck | src/systems/combatSystem.js:204-238 | a shield absorbs the whole hit and the payloads still land; otherwise hp drops by the armoured, pierced, critical damage |
| CombatSystem.ExampleHit | src/systems/combatSystem.js:217-222 | a 20-damage level-1 shot on a fish with armour ratio 0.8 leaves 84 of 100 hp |
| CombatSystem.SplashFactor | src/systems/combatSystem.js:254-255 | the splash factor is never below 0.2 |
| CombatSystem.SplashFactorFalls | src/systems/combatSystem.js:254-255 | a fish further from the centre never takes a larger splash factor |
| CombatSystem.HitPulse | src/systems/combatSystem.js:233-236 | the pulse slow is the larger of 0.25 and 0.88 of the bullet's strength, lasting 0.8 of its duration |
| CombatSystem.SplashPulse | src/systems/combatSystem.js:258-261 | the splash slow is the larger of 0.28 and 0.9 of the bullet's strength, lasting 0.8 of its duration |
| CombatSystem.Pulsed | src/systems/combatSystem.js:228-238 | exactly the other live fish within the pulse radius gain the pulse slow; the rest are unchanged |
| CombatSystem.PulseLoop | src/systems/combatSystem.js:229-237 | the pulse loop produces `Pulsed` |
| CombatSystem.PopCount | src/systems/combatSystem.js:184-195 | the number of leading thresholds the hp ratio has reached, stopping at the first it has not |
| CombatSystem.DefaultSummonSize | src/systems/combatSystem.js:158-162 | the default summon is five fish |
| CombatSystem.SummonKinds | src/systems/combatSystem.js:164-165 | one kind per summoned fish, as many as the packs' counts add up to |
| CombatSystem.BroodOf | src/systems/combatSystem.js:110-122 | the split requests: `count` children of the split kind at the parent's path index, with scaled hp |
| CombatSystem.SummonRound | src/systems/combatSystem.js:157-174 | one summon round: every pack's fish at the boss's path index, with the scaled catalog speed |
| CombatSystem.ReplaceFish | src/systems/combatSystem.js:204 | the fish at position i is replaced and nothing else changes |
| CombatSystem.SpawnSplitChildren | src/systems/combatSystem.js:103-124 | the first split of a fish with a known split kind spawns its brood and marks it split; otherwise only the mark changes |
| CombatSystem.LadderKeepsHp | src/systems/combatSystem.js:181-196 | threshold skills never change the boss's hp |
| CombatSystem.LadderOutcome | src/systems/combatSystem.js:181-196 | threshold skills change no other fish and only append new ones |
| CombatSystem.SplitOutcome | src/systems/combatSystem.js:103-124 | a split changes no other fish and keeps the parent's hp and shield |
| CombatSystem.SummonLoop | src/systems/combatSystem.js:184-187 | every reached summon threshold is removed and triggers one summon round |
| CombatSystem.StackedIsProduct | src/systems/combatSystem.js:190 | shields added round after round amount to the count times the gain |
| CombatSystem.ShieldLoop | src/systems/combatSystem.js:188-195 | the reached leading shield thresholds are removed, and the shield grows by `maxHp * shieldRatio` for each of them |
| CombatSystem.Ladders | src/systems/combatSystem.js:181-196 | both threshold loops together give the laddered boss and its summon rounds |
| CombatSystem.TriggerBossSkills | src/systems/combatSystem.js:181-196 | a live boss pops its thresholds and its summons are spawned; any other fish is untouched |
| CombatSystem.HandleFishDeath | src/systems/combatSystem.js:126-136 | kills +1, gold + the reward, boss kills +1 for a boss, then the split |
| KillLedger.CostFallen | src/systems/combatSystem.js:126-136 | a blow that takes a fish from alive to 0 hp or below is worth a kill, its reward and, for a boss, a boss kill; any other blow is worth nothing |
| KillLedger.FellMembers | src/systems/combatSystem.js:239-244 | the fish a stretch of combat paid for are exactly those alive before it and at 0 hp or below after it |
| KillLedger.FellNone | src/systems/combatSystem.js:239-244 | nothing is paid for where no hp changed |
| KillLedger.FellAlike | src/systems/combatSystem.js:126-136 | lists alike in hp, reward and boss flag, seen against the same hps, are worth the same |
| KillLedger.TwoBlows | src/systems/combatSystem.js:274-277 | the target's hit, then a splash that does not touch the target again, pays for the fish that fell over both together, and for fish spawned in between that fell |
| KillLedger.TwoBlowsToll | src/systems/combatSystem.js:274-277 | the fish the two blows paid for are the fish that fell, in list order, then fish that joined alive and are dead at the end |
| CombatSystem.KinTrans | src/systems/combatSystem.js:204 | fish identity is kept across successive updates |
| CombatSystem.AfterHit | src/systems/combatSystem.js:217-238 | the struck fish becomes `Struck`; other fish at most gain a slow |
| CombatSystem.StrikeCopy | src/systems/combatSystem.js:217-238 | an unshielded hit, with its crit roll, produces `AfterHit` |
| CombatSystem.ReplaceFishes | src/systems/combatSystem.js:204 | the fish list becomes the given list of the same fish |
| CombatSystem.DeathCheck | src/systems/combatSystem.js:240-244 | the fish is killed iff its hp is at most 0, with the death's rewards |
| CombatSystem.Aftermath | src/systems/combatSystem.js:239-244 | the boss ladders run, then a fish at 0 hp or below dies: kills +1, gold + its reward, boss kills +1 for a boss, and its split; a fish above 0 hp pays nothing; the id counter advances by exactly the fish the ladders and the split spawned |
| CombatSystem.StrikeLive | src/systems/combatSystem.js:217-244 | an unshielded hit on a live fish: the target's hp becomes `Struck`'s with a crit roll in [0, 1), other fish at most gain a slow, and the counters pay for the target exactly when the hit took it from alive to 0 hp or below |
| CombatSystem.StrikeOutcome | src/systems/combatSystem.js:217-244 | a hit leaves other fish unharmed and the target at `Struck`'s hp |
| CombatSystem.ApplyDamageToFish | src/systems/combatSystem.js:204-245 | dead targets are ignored; shields absorb; otherwise damage, pulse, boss skills and death, with the kill reported |
| CombatSystem.LandHit | src/systems/combatSystem.js:256 | one splash hit changes the hit fish's shield (when up) or its hp by the factored, critical, armoured damage, as `HitOn` says; the counters pay for the fish exactly when the hit felled it |
| CombatSystem.SplashSlow | src/systems/combatSystem.js:257-262 | the splash slow is appended to one fish, nothing else changes |
| CombatSystem.SplashOne | src/systems/combatSystem.js:250-263 | a fish outside the splash is unchanged; one inside takes the hit scaled by its distance factor, as `HitOn` says, and maybe the splash slow; the counters pay for the fish exactly when the hit felled it |
| CombatSystem.SplashCaught | src/systems/combatSystem.js:256-262 | a live fish inside the splash takes `HitOn` with the distance factor and its own crit roll; other fish at most gain a slow; the counters pay for it exactly when it fell |
| CombatSystem.SplashVisit | src/systems/combatSystem.js:250-262 | one turn of the splash loop extends the splash outcome and the kill ledger to the next fish |
| CombatSystem.SplashLoop | src/systems/combatSystem.js:247-263 | over the fish present when the splash begins, the splash outcome holds and the counters have paid for exactly the fish that fell, in list order |
| CombatSystem.FallCarry | src/systems/combatSystem.js:250-262 | the fish that fell among the first k+1 are those among the first k plus fish k when its hit felled it |
| CombatSystem.ApplySplashDamage | src/systems/combatSystem.js:247-264 | no radius means no change; every other fish within the radius takes the hit scaled by its distance factor with its own crit roll, the others and the centre keep hp and shield; the counters pay for exactly the fish that fell |
| CombatSystem.HitOnSlowOnly | src/systems/combatSystem.js:217-222 | what a hit does to hp and shield does not depend on the fish's slows |
| CombatSystem.SplashCarry | src/systems/combatSystem.js:250-263 | one more splashed or skipped fish extends the splash outcome to the next index |
| CombatSystem.FindFish | src/systems/combatSystem.js:269 | the first fish with the bullet's target id, or none |
| CombatSystem.LiveTarget | src/systems/combatSystem.js:269 | the first fish carrying the bullet's target id, exactly when that fish has positive hp and has not leaked; none otherwise |
| CombatSystem.Survivors | src/systems/combatSystem.js:268-284 | the bullets kept after a frame are exactly those whose fate kept them, in order |
| CombatSystem.BulletFate | src/systems/combatSystem.js:269-283 | a bullet survives iff its target lives and it does not land; a survivor changes only its position |
| CombatSystem.BulletStep | src/systems/combatSystem.js:268-283 | a bullet's turn ends in `BulletFate`; without a landing no fish changes; on a landing the target takes the full hit with the crit roll and the others the splash outcome; the counters pay for exactly the fish the turn killed |
| CombatSystem.SplashFrom | src/systems/combatSystem.js:276-277 | the target's hit changes no other fish but for slows, so the splash outcome seen from before the hit is the same |
| CombatSystem.AllFatesSnoc | src/systems/combatSystem.js:268 | the bullet loop's record of fates and fish lists extends by one bullet at a time, each list the outcome of the previous one |
| CombatSystem.PassStep | src/systems/combatSystem.js:267-283 | one bullet's turn extends the bullet loop's record by its fate, the fish list it left, its rolls and its kills, keeps it iff it survives, and the counters pay for its kills |
| CombatSystem.BulletPass | src/systems/combatSystem.js:266-285 | every bullet meets its fate in order, against the fish list the previous bullet left, and list j+1 is bullet j's outcome on list j; the counters pay for every bullet's kills in turn |
| CombatSystem.UpdateBullets | src/systems/combatSystem.js:266-285 | the bullet list becomes exactly the survivors, and the fish list is the last of the chain of bullet outcomes; the counters pay for every fish the bullets killed |
| CombatSystem.Decay | src/systems/combatSystem.js:305-322 | effects lose `dt` of duration and only positive durations remain |
| CombatSystem.DecayMembers | src/systems/combatSystem.js:305-322 | an effect survives iff its shortened duration is positive |
| CombatSystem.BurnTotalNonNegative | src/systems/combatSystem.js:316-322 | burns with non-negative damage rates never heal |
| CombatSystem.SlowFactor | src/systems/combatSystem.js:333-335 | the strongest slow is the least multiplier; 1 without slows |
| CombatSystem.Burnt | src/systems/combatSystem.js:305-331 | effects decay, and hp drops by the burn total only when it is positive and the shield is down |
| CombatSystem.Accelerated | src/systems/combatSystem.js:337-343 | a fish accelerates at most once, changing only its flag and speed |
| CombatSystem.AccelerationOnce | src/systems/combatSystem.js:337 | accelerating twice is the same as once |
| CombatSystem.Advanced | src/systems/combatSystem.js:345-367 | a fish at the last path point leaks; otherwise it moves toward the next point and snaps onto it when it arrives |
| CombatSystem.BurnOutcome | src/systems/combatSystem.js:315-331 | the burn phase changes only this fish, appends only for a burning fish, and a survivor has positive hp |
| CombatSystem.BurnStep | src/systems/combatSystem.js:315-331 | burn damage, boss skills, and death with its rewards |
| CombatSystem.MoveStep | src/systems/combatSystem.js:345-367 | the fish becomes `Advanced`; a leak costs its damage in lives |
| CombatSystem.FishTick | src/systems/combatSystem.js:301-367 | dead fish are dropped; otherwise burn, acceleration and movement in that order |
| CombatSystem.Ticked | src/systems/combatSystem.js:305-343 | the first half of a tick: the hp is the burnt hp, the path index and damage are unchanged |
| CombatSystem.FateOf | src/systems/combatSystem.js:301-352 | a fish is dropped iff it was dead or its burn kills it, and leaks iff it lives on and stands on the last path point |
| CombatSystem.TickOutcome | src/systems/combatSystem.js:315-331 | the burn phase kills the fish iff its burnt hp is at most 0, and a spared fish is `Ticked` |
| CombatSystem.FishTurn | src/systems/combatSystem.js:300-368 | the turn ends as `FateOf`; a fish that is not dropped is its `Ticked` self advanced, one that stays has positive hp, and a leak costs exactly its damage; the counters pay for the fish exactly when its burn killed it |
| CombatSystem.BurningAppend | src/systems/combatSystem.js:300 | the burning count of two lists adds up |
| CombatSystem.PassMeasureDrops | src/systems/combatSystem.js:300 | each fish turn shrinks the live loop's remaining work |
| CombatSystem.PicksSnoc | src/systems/combatSystem.js:368 | the survivors extend in order by the current fish |
| CombatSystem.PicksOk | src/systems/combatSystem.js:370 | survivors picked in order keep the fish-list invariant |
| CombatSystem.FishPass | src/systems/combatSystem.js:298-371 | fish j meets its turn as turns[j] (the original fish untouched until then), ends as `FateOf` says, is kept iff it stayed, and lives drop by the damage of exactly the fish that leaked; the counters pay for exactly the fish the burns killed |
| CombatSystem.PassCarry | src/systems/combatSystem.js:300-368 | one fish turn extends the pass's record of turns, fates and kept fish by one |
| CombatSystem.LeakersLeak | src/systems/combatSystem.js:345-348 | every fish charged for a leak was alive after its burn and stood on the last path point |
| CombatSystem.LivesSnoc | src/systems/combatSystem.js:348 | one more turn adds the fish's damage to the lives lost exactly when it leaked |
| CombatSystem.CasualtiesBurnt | src/systems/combatSystem.js:315-331 | every fish the fish loop pays for was alive and its burn brought it to 0 hp or below |
| CombatSystem.TollCarry | src/systems/combatSystem.js:300-368 | one more fish turn keeps lives equal to the start minus the leakers' damage and the counters equal to the start plus the burn casualties |
| CombatSystem.UpdateFishes | src/systems/combatSystem.js:298-371 | the fish list becomes, in order, the fish whose turn ended in `Stayed`, all with positive hp; lives pay the leaked fish's damage; the counters pay for exactly the fish the burns killed |
| TowerSystem.SpecFor | src/systems/towerSystem.js:3 | the catalog entry of the type, else the basic tower's |
| TowerSystem.NewTower | src/systems/towerSystem.js:2-31 | a new tower stands at its cell's centre, level 1, no cooldown, no branch |
| TowerSystem.NewTowerStats | src/systems/towerSystem.js:14-25 | its stats are the spec's, with crit multiplier 1.8 and splash 0 by default |
| TowerSystem.MakeTower | src/systems/towerSystem.js:2-31 | the tower takes the next tower id, and the counter goes up by one |
| TowerSystem.Occupied | src/systems/towerSystem.js:70 | true iff some tower stands on the cell |
| TowerSystem.PlaceTower | src/systems/towerSystem.js:64-86 | succeeds iff the cell is on the grid, off the path, free, and affordable; pays the cost and appends the tower; keeps towers on distinct cells |
| TowerSystem.AuraUp | src/systems/towerSystem.js:100-106 | aura radius +12 and range bonus +3; damage capped at 1.55, fire rate floored at 0.62, crit capped at 0.3 |
| TowerSystem.Upgraded | src/systems/towerSystem.js:97-127 | level +1, cost times 1.6 rounded, identity and branch kept; the per-type caps and floors hold |
| TowerSystem.UpgradeCostGrows | src/systems/towerSystem.js:127 | an upgrade cost of at least 2 strictly grows |
| TowerSystem.UpgradeTower | src/systems/towerSystem.js:88-135 | succeeds iff below level 4 and affordable; pays and upgrades only that tower |
| TowerSystem.BranchOptions | src/systems/towerSystem.js:33-62 | two distinct branch keys per type, each with tier-2 cost above tier-1; other types get megablast and ember |
| TowerSystem.SelectOption | src/systems/towerSystem.js:210-211 | an option exists iff the slot is A or B |
| TowerSystem.BranchEffects | src/systems/towerSystem.js:137-203 | a branch changes only the stats its key names, within the caps; a key of another type changes nothing |
| TowerSystem.ForeignTypeGainsNothing | src/systems/towerSystem.js:58-61 | a type without its own branches gains nothing from megablast or ember |
| TowerSystem.UpgradeTowerBranch | src/systems/towerSystem.js:205-257 | refused below level 2, for a bad slot, a foreign path, tier 2 or too little gold; otherwise pays the tier's cost and applies its effects |
| SpawnSystem.EarlyStartBonus | src/systems/spawnSystem.js:17-26 | 0 iff auto-start is off, a wave runs or the timer is at most 0.02; otherwise at least 1 |
| SpawnSystem.StreakMult | src/systems/spawnSystem.js:24 | the streak multiplier lies between 1 and 1.75 |
| SpawnSystem.BonusMonotoneInStreak | src/systems/spawnSystem.js:24-25 | a longer streak never lowers the bonus |
| SpawnSystem.BonusSaturates | src/systems/spawnSystem.js:24 | beyond a streak of 8 the bonus no longer grows |
| SpawnSystem.Divisor | src/systems/spawnSystem.js:35 | a missing or zero divisor counts as 1 |
| SpawnSystem.EvalCountExpr | src/systems/spawnSystem.js:28-42 | a count is never negative, and 0 without an expression |
| SpawnSystem.CountExample | src/systems/spawnSystem.js:28-42 | base 2 plus wave times 1 gives 7 fish at wave 5 |
| SpawnSystem.CountMonotone | src/systems/spawnSystem.js:31-41 | with non-negative factors and divisors, later waves never get fewer fish |
| SpawnSystem.TermsMonotone | src/systems/spawnSystem.js:31-40 | the sum of growing terms never falls as the wave rises |
| SpawnSystem.RulesKindsFrom | src/systems/spawnSystem.js:52-63 | every queued kind comes from some rule |
| SpawnSystem.RulesKindsLength | src/systems/spawnSystem.js:52-63 | a rule list queues as many fish as its counts add up to |
| SpawnSystem.WaveQueueLength | src/systems/spawnSystem.js:44-75 | a wave's size: the unlocked rules' counts, plus the extras and one boss on a boss wave |
| SpawnSystem.WaveQueueKinds | src/systems/spawnSystem.js:44-75 | every queued kind is a catalog kind |
| SpawnSystem.PushMany | src/systems/spawnSystem.js:46-50 | `count` copies of the kind are appended |
| SpawnSystem.PickIndex | src/systems/spawnSystem.js:66 | the random index lies in 0..i |
| SpawnSystem.Swap | src/systems/spawnSystem.js:67 | two entries trade places; the multiset is kept |
| SpawnSystem.Shuffle | src/systems/spawnSystem.js:65-68 | the shuffle is a permutation |
| SpawnSystem.PushRules | src/systems/spawnSystem.js:52-55 | the rule loop appends each unlocked rule's fish in order |
| SpawnSystem.QueueRules | src/systems/spawnSystem.js:52-63 | the queue before shuffling: the unlocked rules' fish, then the boss extras on a boss wave |
| SpawnSystem.BuildWave | src/systems/spawnSystem.js:44-75 | a permutation of that queue, with the boss appended last or put first on a boss wave |
| SpawnSystem.BonusIffCountdown | src/systems/spawnSystem.js:90-91 | between waves, a bonus is paid iff a countdown was running |
| SpawnSystem.StartNextWave | src/systems/spawnSystem.js:77-119 | refused after the last wave or during a wave; otherwise pays the bonus, updates the streak and opens the next wave |
| SpawnSystem.PayEarlyStart | src/systems/spawnSystem.js:90-99 | a manual early start earns the bonus and extends the streak; a manual start without a countdown resets it |
| SpawnSystem.OpenWave | src/systems/spawnSystem.js:100-106 | wave +1, a fresh wave queue, spawn timer 0, the countdown reset to the plan's delay |
| SpawnSystem.Countdown | src/systems/spawnSystem.js:122-138 | frozen after the stage ends; with auto-start off the preview and streak clear; else the timer runs down and at 0 the wave starts |
| SpawnSystem.RunDown | src/systems/spawnSystem.js:132-137 | the timer drops by dt, the preview shows the bonus, and at 0 the next wave opens without a bonus |
| SpawnSystem.SpawnNext | src/systems/spawnSystem.js:140-150 | when the spawn clock runs out, the head of the queue is spawned and the clock is reset from the timing |
| SpawnSystem.FinishWave | src/systems/spawnSystem.js:152-174 | after the last wave the verdict decides cleared or failed with its reason; otherwise the countdown restarts |
| SpawnSystem.UpdateSpawning | src/systems/spawnSystem.js:121-175 | between waves, `Countdown`'s outcome; during a wave, `SpawnNext`'s, and the wave ends iff queue and fish list are empty, then as `FinishWave` says |
| SpawnSystem.WaveTick | src/systems/spawnSystem.js:140-174 | the spawn clock ticks as `SpawnNext` says and the wave ends iff queue and field are empty, then as `FinishWave` says |
| StageProgress.Field | src/game.js:92 | a field is read only from an object that has it |
| StageProgress.Clamp01 | src/game.js:87-89 | finite numbers are clamped into [0, 1] and kept when inside; anything else yields the fallback |
| StageProgress.SanitizeSettings | src/game.js:91-101 | volumes in [0, 1] or the defaults; the density one of 低/中/高; toggles off only for an explicit false |
| StageProgress.SettingsRoundTrip | src/game.js:91-101 | sanitising saved clean settings gives them back |
| StageProgress.SanitizeSettingsIdempotent | src/game.js:91-101 | sanitising twice is the same as once |
| StageProgress.Strings | src/game.js:122 | exactly the string items, in order |
| StageProgress.KnownStages | src/game.js:111-113 | exactly the string items naming a known stage |
| StageProgress.Dedup | src/game.js:122 | no repeats, and the same members |
| StageProgress.DedupUnique | src/game.js:122 | a list without repeats is unchanged |
| StageProgress.StarMap | src/game.js:105-110 | keys with a finite number are kept, each floored into 0..3 |
| StageProgress.ScoreMap | src/game.js:116-120 | keys with a finite number are kept, each floored and at least 0 |
| StageProgress.WithDefaultStages | src/game.js:114-115 | the endless and the first stage are always unlocked; a list with both is unchanged |
| StageProgress.SeenFishFrom | src/game.js:122-127 | the old tuna id never survives; every other seen string does; and every entry is a seen string other than the old id, or `oarfish` standing in for a seen old id |
| StageProgress.SanitizeProgress | src/game.js:103-130 | each field is cleaned as above |
| StageProgress.StarMapRoundTrip | src/game.js:105-110 | saved star counts in 0..3 read back unchanged |
| StageProgress.ScoreMapRoundTrip | src/game.js:116-120 | saved non-negative scores read back unchanged |
| StageProgress.StringsOfArray | src/game.js:122 | an array of strings reads back as the same list |
| StageProgress.KnownStagesOfArray | src/game.js:111-113 | known stage ids read back unchanged |
| StageProgress.SeenFishRoundTrip | src/game.js:122-127 | a seen list without repeats or the old id reads back unchanged |
| StageProgress.ProgressJsonFields | src/game.js:103-130 | the saved object holds each progress field under its own key |
| StageProgress.ProgressRoundTrip | src/game.js:103-130 | sanitising saved clean progress gives it back |
| StageProgress.RenameAfterDedup | src/game.js:126 | a save listing both the old and the new fish id reads back with the new id twice |
| StageProgress.Failures | src/game.js:433-443 | one failure at most per condition; none iff every condition holds |
| StageProgress.FirstFailure | src/game.js:433-443 | the first failure reported is the failure of the earliest failing condition |
| StageProgress.EvaluateStageClearConditions | src/game.js:428-452 | no stage or an endless one always passes; otherwise it passes iff every clear condition holds |
| StageProgress.VerdictReason | src/game.js:444-450 | a failing verdict's reason is the failure of a failing condition |
| StageProgress.Stars | src/game.js:906-908 | 3 stars iff at least 18 lives, 1 iff fewer than 10, else 2 |
| StageProgress.StarsMonotone | src/game.js:906-908 | more lives never earn fewer stars |
| StageProgress.ClearReward | src/game.js:909 | a clear pays at least 60 gold |
| StageProgress.OrderedStageIds | src/game.js:798-800 | exactly the catalog ids that are not endless |
| StageProgress.IndexOf | src/game.js:1130 | the first position of the id; none iff absent |
| StageProgress.NextPlayableStageId | src/game.js:1128-1133 | the id after the current one in stage order, exactly when the current one has a successor; never an endless stage |
| StageProgress.FindStage | src/game.js:904 | the catalog entry with that id, or none when no entry has it |
| StageProgress.StageIds | src/game.js:798 | the catalog's ids in order |
| GameState.Game.constructor | src/game.js:177-215 | the record starts paused in the menu with 120 gold, 20 lives, wave 0 and nothing placed or spawned |
| GameLoop.Unlocks | src/game.js:915-917 | a clear unlocks at most one stage, a catalog stage that is not endless with a non-empty id, and it does unlock the next stage in order when that exists with a non-empty id |
| GameLoop.ClearUnlocksNext | src/game.js:915-917 | in a catalog without repeated ids, clearing the stage at position i of the campaign order gives stage i+1 as the next playable stage and unlocks it when its id is not empty |
| GameLoop.LastStageUnlocksNothing | src/game.js:915-917 | clearing the last stage in order unlocks nothing |
| GameLoop.OrderedDistinct | src/game.js:798-800 | stage order repeats no id when the catalog does not |
| GameLoop.Recorded | src/game.js:911 | the star record keeps the best count for the stage and leaves the others alone |
| GameLoop.GrantReward | src/game.js:906-917 | stars from lives, the clear reward in gold, the best star count recorded, the next stage unlocked |
| GameLoop.AwardStageStarsIfNeeded | src/game.js:903-923 | pays only for a cleared, unrewarded, non-endless catalog stage; never pays twice; star records and unlocks only grow |
| GameLoop.FrameDt | src/game.js:1665-1672 | the simulated step is the gap capped at 0.05 s, times the game speed |
| GameLoop.Shoot | src/game.js:1675-1676 | `Shot`: every tower takes its turn against the fish as they were; every bullet then in flight, the old ones first and then the volleys in tower order, meets the fish list the bullet before it left; the bullets left are exactly the survivors; the counters pay for each fish a bullet killed |
| GameLoop.Combat | src/game.js:1675-1677 | `Fought`: the shooting half as `Shot`, then every fish takes its turn from the list the bullets left, ends it as `FateOf` says and is kept in order iff its turn kept it; lives pay the damage of exactly the leaked fish; the counters pay for every fish a bullet or a burn killed |
| FramePhases.ShotOf | src/systems/combatSystem.js:21-71 | what the tower loop and the bullet loop promise, tower by tower and bullet by bullet, makes up `Shot` |
| FramePhases.SwumOf | src/systems/combatSystem.js:298-371 | what the fish loop promises, fish by fish, makes up `Swum` |
| GameLoop.Simulate | src/game.js:1674-1677 | spawning appends the queue's next fish exactly when a wave runs, its queue is not empty and the spawn clock runs out (`SpawnPhase`), and combat runs as `Fought` from exactly the board spawning left |
| GameLoop.Settle | src/game.js:1679-1687 | the reward is paid when due and is never left due; the result screen is flagged once the stage is cleared or failed, and the game pauses exactly when the screen opens now with the overlay on the page |
| GameLoop.OpenResult | src/game.js:1135-1137 | the game pauses when the overlay is on the page; without it nothing changes |
| GameLoop.RewardPaid | src/game.js:903-917 | no gold when no reward is due; at least 60 gold when one is |
| GameLoop.Advance | src/game.js:1672-1687 | `Framed`: the wave record rises to the wave the frame started in; spawning is `SpawnPhase`; combat is `Fought` from the board spawning left; the board combat left is kept, with the reward paid on top when due; no reward stays due; the result screen opens on a cleared or failed stage, pausing the game when the overlay is on the page |
| GameLoop.Finish | src/game.js:1673-1687 | the wave record takes the frame's starting wave; the board and kill counters are kept, gold gains `RewardPaid`, and the result screen and pause follow `Settle` |
| GameLoop.RunFrame | src/game.js:1671-1690 | in the menu, paused or out of lives nothing changes; otherwise one frame as `Framed` says, with the step `FrameDt` |
| GameLoop.EndlessBest | src/game.js:1694-1702 | only on an endless stage, and only when the wave or the kills beat the saved best, each best becomes the larger of the saved value and the current one; no record ever falls and other keys are untouched |
| GameLoop.EndFrame | src/game.js:1694-1711 | the endless records become `EndlessBest`; the result screen opens once no lives are left, pausing the game when the overlay is on the page; nothing else changes |
| GameLoop.Step | src/game.js:1663-1711 | a frame that does not run keeps the board, wave, gold and stage flags; one that runs records the wave and leaves no reward due; the result screen opens on a cleared or failed stage or with no lives left, and the game pauses exactly when it opens with the overlay on the page; then the endless records |

## Left out

- Messages, sound effects, particle bursts, floating damage text, boss
  alerts, HUD updates, the contents of the result overlay and the codex are
  presentation only. They are not modelled, and neither is the randomness
  drawn only for them: burst angles and the jitter of spawn and summon
  positions.
- `updateParticles`, the background music scheduler, the boss alert timer,
  the game-over sound flag and the DOM syncing of the frame loop are not
  modelled, for the same reason.
- Saving the endless records to storage is left out; `GameLoop.EndlessBest`
  only updates them in memory.
- Persistence is not modelled. Reading from and writing to storage (I/O)
  is left out; only the sanitisers and their round trips are modelled.
- `Number()` of a string is the oracle parameter `strNum`.
- `StageProgress.ToNumber` reads every array and object as NaN. In
  JavaScript `Number([])` is 0 and `Number([7])` is 7. So a corrupted save
  that stores a star count or a best score as an empty or one-element array
  keeps that entry in the game and drops it in the model.
- `StageProgress.Entries` of anything but an object is empty. In JavaScript
  `Object.entries` of an array or a string lists its indices. So a corrupted
  save whose `stars` or `bestScores` is an array or a string gets index keys
  in the game and an empty map in the model.
- Floating point is modelled as exact reals. Math.hypot is an abstract
  function. `CombatSystem.Advanced` leaves a fish in place when the
  distance is 0 but the fish has not arrived (JS would produce NaN there).
- Splash damage iterates over the fish present when the splash begins.
  Fish appended during the splash, such as split children or summons, are
  not splashed. The JS loop runs over the live list.
- A fish, its tower target and a bullet's target are identified by id
  rather than by reference.
- `FishFactory.SpawnFish` requires the kind to be in the catalog. The JS
  code fails on a missing kind (it reads `skills` of `undefined`).
- `setSelectedTowerType`, labels and colours are UI state and are not
  modelled.
- The support aura, the execute threshold and the boss damage bonus are
  carried as tower data. No part of this core reads them, so they have no
  effect in the model either.
- Clamping the shield at 0 in `updateFishes` (combatSystem.js:302-304) is
  not modelled: for a positive shield it changes nothing.
- `StageProgress.KnownStages` (and so `StageProgress.SanitizeProgress`)
  keeps a stored stage id only when the catalog has that stage. The JS test
  `stageCatalog[id]` also accepts inherited object keys such as
  `constructor`.
- `CombatSystem.ApplySplashDamage` and `CombatSystem.BulletStep` state the
  hp and shield of every fish, but not which slows a hit or a splash adds;
  those are stated per fish by `CombatSystem.SplashOne` and
  `CombatSystem.ApplyDamageToFish`.
- `CombatSystem.BulletStep` states the outcome for the fish present when
  the bullet lands. Fish appended during its turn (split children,
  summons) are covered only by the fish-list invariant.
- `CombatSystem.FishPass` states what a fish appended during the pass meets
  on its turn only through `FateOf`. Its starting state is not tied to
  the death or summon that appended it.
- `TowerSystem.SelectOption` reads only the keys A and B. A slot named after
  a prototype property (e.g. `constructor`) is treated as missing.
- `GameState.Game` stores the stage catalog as a list. The object's keys are
  assumed to equal each stage's id.
- The `towersPlaced`, `towerUpgrades` and `branchUpgrades` counters are
  updated by callers outside this core. The model takes them as given.
