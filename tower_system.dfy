/** Tower progression: building a tower from its catalog entry, placing it
    on a free cell, levelling it up along a 1.6x cost curve with clamped
    stat growth, and the exclusive two-branch, two-tier specialisation. */
module TowerSystem {
  import opened Common
  import opened MapRuntime
  import opened GameState

  // ===== building ================================================================

  /** The catalog entry a tower type builds from: its own, or the basic
      tower's for a type the catalog does not know. */
  function SpecFor(catalog: map<string, TowerSpec>, typeKey: string): (s: TowerSpec)
    requires "basic" in catalog
    ensures typeKey in catalog ==> s == catalog[typeKey]
    ensures typeKey !in catalog ==> s == catalog["basic"]
  {
    if typeKey in catalog then catalog[typeKey] else catalog["basic"]
  }

  /** The tower `makeTower` builds with id `id` on cell (cx, cy). The type key
      is kept as given even when the stats fall back to the basic tower's. */
  function NewTower(grid: Grid, catalog: map<string, TowerSpec>, cx: int, cy: int, typeKey: string, id: nat): (t: Tower)
    requires "basic" in catalog
    ensures t.id == id && t.typeKey == typeKey && t.cellX == cx && t.cellY == cy
    ensures t.pos == CellCentre(grid, cx, cy)
    ensures t.level == 1 && t.cooldown == 0.0 && t.branchPath == None && t.branchTier == 0
  {
    var s := SpecFor(catalog, typeKey);
    Tower(id, CellCentre(grid, cx, cy), cx, cy, typeKey,
          1, s.range, s.fireRate, 0.0, s.damage,
          s.projectileSpeed, s.upgradeCost,
          s.slow, s.splashRadius.GetOr(0.0), s.splashRatio.GetOr(0.0),
          s.critChance.GetOr(0.0), s.critMultiplier.GetOr(1.8), s.supportAura,
          None, 0,
          0.0, 0.0,
          None, None,
          0.0, 1.0, 0.0)
  }

  /** A new tower carries its catalog entry's stats, with 0 for an absent
      splash radius, splash ratio or crit chance and 1.8 for an absent crit
      multiplier; an unknown type gets the basic tower's. */
  lemma NewTowerStats(grid: Grid, catalog: map<string, TowerSpec>, cx: int, cy: int, typeKey: string, id: nat)
    requires "basic" in catalog
    ensures var t := NewTower(grid, catalog, cx, cy, typeKey, id);
      var s := if typeKey in catalog then catalog[typeKey] else catalog["basic"];
      t.range == s.range && t.fireRate == s.fireRate && t.damage == s.damage &&
      t.projectileSpeed == s.projectileSpeed && t.upgradeCost == s.upgradeCost &&
      t.slow == s.slow && t.supportAura == s.supportAura &&
      t.splashRadius == (if s.splashRadius.Some? then s.splashRadius.value else 0.0) &&
      t.critMultiplier == (if s.critMultiplier.Some? then s.critMultiplier.value else 1.8) &&
      t.armorBreak.None? && t.burn.None? && t.rapidDoubleShotChance == 0.0 && t.slowPulseRadius == 0.0
  {
  }

  /** `makeTower`: the new tower takes the next tower id. */
  method MakeTower(g: Game, cx: int, cy: int, typeKey: string) returns (t: Tower)
    requires "basic" in g.towerCatalog
    modifies g`nextTowerId
    ensures t == NewTower(g.grid, g.towerCatalog, cx, cy, typeKey, old(g.nextTowerId))
    ensures g.nextTowerId == old(g.nextTowerId) + 1
  {
    t := NewTower(g.grid, g.towerCatalog, cx, cy, typeKey, g.nextTowerId);
    g.nextTowerId := g.nextTowerId + 1;
  }

  // ===== placing ================================================================

  /** Some tower already stands on cell (cx, cy). */
  function Occupied(towers: seq<Tower>, cx: int, cy: int): (r: bool)
    ensures r <==> exists k :: 0 <= k < |towers| && towers[k].cellX == cx && towers[k].cellY == cy
  {
    if towers == [] then false
    else
      var last := towers[|towers| - 1];
      assert forall k :: 0 <= k < |towers| - 1 ==> towers[..|towers| - 1][k] == towers[k];
      Occupied(towers[..|towers| - 1], cx, cy) || (last.cellX == cx && last.cellY == cy)
  }

  /** No two towers share a cell. */
  ghost predicate CellsDistinct(towers: seq<Tower>) {
    forall a, b :: 0 <= a < b < |towers| ==>
      towers[a].cellX != towers[b].cellX || towers[a].cellY != towers[b].cellY
  }

  /** Cell (cx, cy) can take a tower: inside the grid, off the path, free. */
  predicate CanBuild(grid: Grid, pathCellSet: set<string>, towers: seq<Tower>, cx: int, cy: int) {
    0 <= cx < grid.cols && 0 <= cy < grid.rows && CellKey(cx, cy) !in pathCellSet && !Occupied(towers, cx, cy)
  }

  /** `placeTower`: a tower of the selected type (the basic one for an unknown
      type) goes on a buildable cell the player can pay for. A refusal changes
      nothing; a success pays the cost and appends exactly one tower. No two
      towers ever share a cell. */
  method PlaceTower(g: Game, cx: int, cy: int) returns (ok: bool)
    requires "basic" in g.towerCatalog
    modifies g`gold, g`towers, g`nextTowerId
    ensures var cost := SpecFor(g.towerCatalog, g.selectedTowerType).cost;
      ok <==> CanBuild(g.grid, g.pathCellSet, old(g.towers), cx, cy) && old(g.gold) >= cost
    ensures !ok ==> g.gold == old(g.gold) && g.towers == old(g.towers) && g.nextTowerId == old(g.nextTowerId)
    ensures ok ==> (g.gold == old(g.gold) - SpecFor(g.towerCatalog, g.selectedTowerType).cost &&
                    g.towers == old(g.towers) + [NewTower(g.grid, g.towerCatalog, cx, cy, g.selectedTowerType, old(g.nextTowerId))] &&
                    g.nextTowerId == old(g.nextTowerId) + 1)
    ensures CellsDistinct(old(g.towers)) ==> CellsDistinct(g.towers)
  {
    if cx < 0 || cx >= g.grid.cols || cy < 0 || cy >= g.grid.rows {
      return false;
    }
    if CellKey(cx, cy) in g.pathCellSet {
      return false;
    }
    if Occupied(g.towers, cx, cy) {
      return false;
    }
    var cost := SpecFor(g.towerCatalog, g.selectedTowerType).cost;
    if g.gold < cost {
      return false;
    }
    g.gold := g.gold - cost;
    var t := MakeTower(g, cx, cy, g.selectedTowerType);
    g.towers := g.towers + [t];
    ok := true;
  }

  // ===== levelling up ==========================================================

  /** The per-level damage step by tower type (non-support towers). */
  function DamageStep(typeKey: string): real {
    if typeKey == "slow" then 4.0 else if typeKey == "splash" then 7.0 else if typeKey == "sniper" then 14.0 else 8.0
  }

  /** The per-level range step by tower type (non-support towers). */
  function RangeStep(typeKey: string): real {
    if typeKey == "slow" then 14.0 else if typeKey == "sniper" then 20.0 else 18.0
  }

  /** A support tower's aura one level up. */
  function AuraUp(a: SupportAura): (r: SupportAura)
    ensures r.damageMult <= 1.55 && r.fireRateMult >= 0.62 && r.critBonus <= 0.3
    ensures r.radius == a.radius + 12.0 && r.rangeBonus == a.rangeBonus + 3.0
  {
    a.(radius := a.radius + 12.0, damageMult := Min(1.55, a.damageMult + 0.03),
       fireRateMult := Max(0.62, a.fireRateMult - 0.03), rangeBonus := a.rangeBonus + 3.0,
       critBonus := Min(0.3, a.critBonus + 0.02))
  }

  /** The type-specific half of a level-up. */
  function TypeUp(t: Tower): Tower {
    if t.typeKey == "support" then
      t.(range := t.range + 12.0, supportAura := if t.supportAura.Some? then Some(AuraUp(t.supportAura.value)) else None)
    else
      var u := t.(damage := t.damage + DamageStep(t.typeKey), range := t.range + RangeStep(t.typeKey));
      if t.typeKey == "sniper" then
        u.(fireRate := Max(0.75, t.fireRate * 0.93), projectileSpeed := t.projectileSpeed + 48.0,
           critChance := Min(0.6, t.critChance + 0.03), critMultiplier := Min(3.4, t.critMultiplier + 0.08))
      else
        u.(fireRate := Max(if t.typeKey == "splash" then 0.45 else 0.2, t.fireRate * 0.9),
           projectileSpeed := t.projectileSpeed + 35.0)
  }

  /** A tower one level up (its cost already paid): type-specific growth,
      then slow and splash growth, and a 1.6x dearer next upgrade. */
  function Upgraded(t: Tower): (r: Tower)
    ensures r.level == t.level + 1 && r.upgradeCost == Round(t.upgradeCost as real * 1.6)
    ensures r.id == t.id && r.cellX == t.cellX && r.cellY == t.cellY && r.typeKey == t.typeKey
    ensures r.branchPath == t.branchPath && r.branchTier == t.branchTier
    ensures t.typeKey == "sniper" ==> r.fireRate >= 0.75 && r.critChance <= 0.6 && r.critMultiplier <= 3.4
    ensures t.typeKey == "splash" ==> r.fireRate >= 0.45
    ensures t.typeKey != "support" && t.typeKey != "sniper" ==> r.fireRate >= 0.2
    ensures r.slow.Some? <==> t.slow.Some?
    ensures t.slow.Some? ==> r.slow.value.strength >= 0.34 && r.slow.value.duration == t.slow.value.duration + 0.12
    ensures t.splashRadius != 0.0 ==> r.splashRatio <= 0.9 && r.splashRadius == t.splashRadius + 8.0
    ensures t.typeKey == "support" && t.supportAura.Some? ==>
      r.supportAura.Some? && r.supportAura.value.damageMult <= 1.55 &&
      r.supportAura.value.fireRateMult >= 0.62 && r.supportAura.value.critBonus <= 0.3
  {
    var u := TypeUp(t);
    var v := if u.slow.Some? then u.(slow := Some(Timed(Max(0.34, u.slow.value.strength - 0.05), u.slow.value.duration + 0.12)))
             else u;
    var w := if v.splashRadius != 0.0 then v.(splashRadius := v.splashRadius + 8.0, splashRatio := Min(0.9, v.splashRatio + 0.04))
             else v;
    w.(level := t.level + 1, upgradeCost := Round(t.upgradeCost as real * 1.6))
  }

  /** Each upgrade costs more than the last (from a cost of 2 up). */
  lemma UpgradeCostGrows(t: Tower)
    requires t.upgradeCost >= 2
    ensures Upgraded(t).upgradeCost > t.upgradeCost
  {
  }

  /** `upgradeTower` on tower `i`: refused at level 4 or when the player
      cannot pay `upgradeCost`, with nothing changed; otherwise the cost is
      paid and the tower goes one level up. */
  method UpgradeTower(g: Game, i: nat) returns (ok: bool)
    requires i < |g.towers|
    modifies g`gold, g`towers
    ensures ok <==> old(g.towers[i]).level < 4 && old(g.gold) >= old(g.towers[i]).upgradeCost
    ensures !ok ==> g.gold == old(g.gold) && g.towers == old(g.towers)
    ensures ok ==> g.gold == old(g.gold) - old(g.towers[i]).upgradeCost &&
                   g.towers == old(g.towers)[i := Upgraded(old(g.towers[i]))]
  {
    var t := g.towers[i];
    if t.level >= 4 {
      return false;
    }
    if g.gold < t.upgradeCost {
      return false;
    }
    g.gold := g.gold - t.upgradeCost;
    g.towers := g.towers[i := Upgraded(t)];
    ok := true;
  }

  // ===== branches ================================================================

  /** One of the two branches a tower type offers, with its two tier costs. */
  datatype BranchOption = BranchOption(key: string, cost1: int, cost2: int)

  /** `getTowerBranchOptions`: slots A and B for each tower type; any type
      without its own pair gets megablast and ember. */
  function BranchOptions(typeKey: string): (r: (BranchOption, BranchOption))
    ensures r.0.key != r.1.key && r.0.cost1 < r.0.cost2 && r.1.cost1 < r.1.cost2
    ensures typeKey !in {"basic", "slow", "sniper", "support"} ==> r.0.key == "megablast" && r.1.key == "ember"
  {
    if typeKey == "basic" then (BranchOption("sniper", 90, 145), BranchOption("rapid", 90, 145))
    else if typeKey == "slow" then (BranchOption("glacier", 95, 150), BranchOption("breaker", 95, 150))
    else if typeKey == "sniper" then (BranchOption("execution", 115, 175), BranchOption("pierce", 115, 175))
    else if typeKey == "support" then (BranchOption("overclock", 105, 165), BranchOption("fortify", 105, 165))
    else (BranchOption("megablast", 105, 165), BranchOption("ember", 105, 165))
  }

  /** `options[slot]`: slot "A" or "B", nothing for any other slot name. */
  function SelectOption(typeKey: string, slot: string): (r: Option<BranchOption>)
    ensures r.Some? <==> slot == "A" || slot == "B"
  {
    var (a, b) := BranchOptions(typeKey);
    if slot == "A" then Some(a) else if slot == "B" then Some(b) else None
  }

  /** The two keys of a type's options are its only branch keys. */
  predicate IsBranchOf(typeKey: string, key: string) {
    key == BranchOptions(typeKey).0.key || key == BranchOptions(typeKey).1.key
  }

  function Tiered(tier: int, first: real, second: real): real {
    if tier == 1 then first else second
  }

  /** The basic tower's branch effects. */
  function BasicBranch(t: Tower, key: string, tier: int): Tower {
    if key == "sniper" then
      t.(range := t.range + Tiered(tier, 40.0, 28.0), damage := t.damage + Tiered(tier, 18.0, 16.0),
         fireRate := Min(1.2, t.fireRate * Tiered(tier, 1.14, 1.1)),
         critChance := t.critChance + Tiered(tier, 0.2, 0.18),
         critMultiplier := Max(t.critMultiplier, Tiered(tier, 1.85, 2.05)))
    else if key == "rapid" then
      t.(fireRate := Max(0.14, t.fireRate * Tiered(tier, 0.72, 0.78)),
         projectileSpeed := t.projectileSpeed + Tiered(tier, 40.0, 30.0), damage := t.damage + Tiered(tier, 4.0, 6.0),
         rapidDoubleShotChance := t.rapidDoubleShotChance + Tiered(tier, 0.28, 0.22))
    else t
  }

  /** The slow tower's branch effects. */
  function SlowBranch(t: Tower, key: string, tier: int): Tower {
    if key == "glacier" then
      var u := if t.slow.Some? then
                 t.(slow := Some(Timed(Max(0.22, t.slow.value.strength - Tiered(tier, 0.09, 0.07)),
                                       t.slow.value.duration + Tiered(tier, 0.45, 0.35))))
               else t;
      u.(slowPulseRadius := u.slowPulseRadius + Tiered(tier, 55.0, 45.0), range := u.range + Tiered(tier, 15.0, 12.0))
    else if key == "breaker" then
      var prev := t.armorBreak.GetOr(Timed(0.0, 0.0));
      t.(armorBreak := Some(Timed(Min(0.35, prev.strength + Tiered(tier, 0.18, 0.12)),
                                  Min(4.5, prev.duration + Tiered(tier, 1.8, 1.2)))),
         damage := t.damage + Tiered(tier, 5.0, 7.0))
    else t
  }

  /** The splash tower's branch effects. */
  function SplashBranch(t: Tower, key: string, tier: int): Tower {
    if key == "megablast" then
      t.(splashRadius := t.splashRadius + Tiered(tier, 36.0, 28.0),
         splashRatio := Min(1.05, t.splashRatio + Tiered(tier, 0.12, 0.1)), damage := t.damage + Tiered(tier, 8.0, 10.0))
    else if key == "ember" then
      var prev := t.burn.GetOr(Timed(0.0, 0.0));
      t.(burn := Some(Timed(prev.strength + Tiered(tier, 12.0, 16.0), Min(5.0, prev.duration + Tiered(tier, 2.2, 1.8)))),
         damage := t.damage + Tiered(tier, 4.0, 6.0), splashRadius := t.splashRadius + Tiered(tier, 8.0, 10.0))
    else t
  }

  /** The sniper tower's branch effects. */
  function SniperBranch(t: Tower, key: string, tier: int): Tower {
    if key == "execution" then
      t.(critChance := Min(0.8, t.critChance + Tiered(tier, 0.18, 0.12)),
         critMultiplier := Min(4.2, t.critMultiplier + Tiered(tier, 0.45, 0.35)),
         executeThreshold := Min(0.28, t.executeThreshold + Tiered(tier, 0.12, 0.08)),
         damage := t.damage + Tiered(tier, 12.0, 14.0))
    else if key == "pierce" then
      t.(bossBonus := Min(1.9, t.bossBonus + Tiered(tier, 0.28, 0.22)),
         armorPierceBonus := Min(0.45, t.armorPierceBonus + Tiered(tier, 0.18, 0.12)),
         range := t.range + Tiered(tier, 22.0, 16.0), damage := t.damage + Tiered(tier, 8.0, 10.0))
    else t
  }

  /** The support tower's branch effects: none without an aura. */
  function SupportBranch(t: Tower, key: string, tier: int): Tower {
    if t.supportAura.None? then t
    else
      var a := t.supportAura.value;
      if key == "overclock" then
        t.(supportAura := Some(a.(fireRateMult := Max(0.5, a.fireRateMult - Tiered(tier, 0.07, 0.05)),
                                  damageMult := Min(1.7, a.damageMult + Tiered(tier, 0.04, 0.03)),
                                  critBonus := Min(0.45, a.critBonus + Tiered(tier, 0.06, 0.04)))))
      else if key == "fortify" then
        t.(supportAura := Some(a.(radius := a.radius + Tiered(tier, 22.0, 18.0),
                                  rangeBonus := a.rangeBonus + Tiered(tier, 10.0, 8.0),
                                  armorBreakBonus := Min(0.18, a.armorBreakBonus + Tiered(tier, 0.08, 0.05)))))
      else t
  }

  /** `applyTowerBranchEffects`: the stat changes of branch `key` at `tier`
      for the tower's type; a key foreign to the type changes nothing. The
      capped stats stay under their caps, and the tower's identity, level
      and branch state are untouched. */
  function BranchEffects(t: Tower, key: string, tier: int): (r: Tower)
    ensures r.id == t.id && r.typeKey == t.typeKey && r.level == t.level && r.cellX == t.cellX && r.cellY == t.cellY
    ensures r.branchPath == t.branchPath && r.branchTier == t.branchTier && r.upgradeCost == t.upgradeCost
    ensures t.typeKey == "slow" && key == "breaker" ==>
      r.armorBreak.Some? && r.armorBreak.value.strength <= 0.35 && r.armorBreak.value.duration <= 4.5
    ensures t.typeKey == "splash" && key == "ember" ==> r.burn.Some? && r.burn.value.duration <= 5.0
    ensures t.typeKey == "sniper" && key == "execution" ==> r.executeThreshold <= 0.28 && r.critChance <= 0.8
    ensures t.typeKey == "sniper" && key == "pierce" ==> r.bossBonus <= 1.9 && r.armorPierceBonus <= 0.45
    ensures t.typeKey == "support" && key == "overclock" && t.supportAura.Some? ==>
      r.supportAura.Some? && r.supportAura.value.fireRateMult >= 0.5
    ensures !IsBranchOf(t.typeKey, key) && t.typeKey in {"basic", "slow", "sniper", "support", "splash"} ==> r == t
  {
    if t.typeKey == "basic" then BasicBranch(t, key, tier)
    else if t.typeKey == "slow" then SlowBranch(t, key, tier)
    else if t.typeKey == "splash" then SplashBranch(t, key, tier)
    else if t.typeKey == "sniper" then SniperBranch(t, key, tier)
    else if t.typeKey == "support" then SupportBranch(t, key, tier)
    else t
  }

  /** A type with no branch effects of its own (any type outside the five
      the effects know) is offered megablast and ember but gains nothing
      from them. */
  lemma ForeignTypeGainsNothing(t: Tower, slot: string)
    requires t.typeKey !in {"basic", "slow", "sniper", "support", "splash"}
    requires SelectOption(t.typeKey, slot).Some?
    ensures BranchEffects(t, SelectOption(t.typeKey, slot).value.key, 1) == t
  {
  }

  /** `upgradeTowerBranch` on tower `i` with slot `slot`. The result is
      `Some(true)` on success, `Some(false)` on a refusal and `None` where the
      game returns `undefined` (a second tier it cannot pay for); every
      refusal leaves gold and towers as they were. Below level 2, or with a
      slot other than A or B, it refuses. An unbranched tower pays the
      slot's first cost and takes tier 1 of that branch. A branched tower
      only moves from tier 1 to tier 2 of its own branch, at level 4 or
      above, paying the second cost; its branch never changes. */
  method UpgradeTowerBranch(g: Game, i: nat, slot: string) returns (r: Option<bool>)
    requires i < |g.towers|
    modifies g`gold, g`towers
    ensures r != Some(true) ==> g.gold == old(g.gold) && g.towers == old(g.towers)
    ensures var t := old(g.towers[i]);
      t.level < 2 || SelectOption(t.typeKey, slot).None? ==> r == Some(false)
    ensures var t := old(g.towers[i]); var o := SelectOption(t.typeKey, slot);
      t.level >= 2 && o.Some? && t.branchPath.None? ==>
        (r == Some(true) <==> old(g.gold) >= o.value.cost1) &&
        (r == Some(true) ==> (g.gold == old(g.gold) - o.value.cost1 &&
                              g.towers == old(g.towers)[i := BranchEffects(t.(branchPath := Some(o.value.key), branchTier := 1), o.value.key, 1)]))
    ensures var t := old(g.towers[i]); var o := SelectOption(t.typeKey, slot);
      t.level >= 2 && o.Some? && t.branchPath.Some? ==>
        (r == Some(true) <==> t.branchPath.value == o.value.key && t.branchTier < 2 && t.level >= 4 &&
                              old(g.gold) >= o.value.cost2) &&
        (r == None <==> t.branchPath.value == o.value.key && t.branchTier < 2 && t.level >= 4 &&
                        old(g.gold) < o.value.cost2) &&
        (r == Some(true) ==> (g.gold == old(g.gold) - o.value.cost2 &&
                              g.towers == old(g.towers)[i := BranchEffects(t.(branchTier := 2), o.value.key, 2)]))
    ensures old(g.towers[i]).branchPath.Some? ==> g.towers[i].branchPath == old(g.towers[i]).branchPath
  {
    var t := g.towers[i];
    if t.level < 2 {
      return Some(false);
    }
    var selected := SelectOption(t.typeKey, slot);
    if selected.None? {
      return Some(false);
    }
    var o := selected.value;
    if t.branchPath.None? {
      if g.gold < o.cost1 {
        return Some(false);
      }
      g.gold := g.gold - o.cost1;
      g.towers := g.towers[i := BranchEffects(t.(branchPath := Some(o.key), branchTier := 1), o.key, 1)];
      return Some(true);
    }
    if t.branchPath.value != o.key {
      return Some(false);
    }
    if t.branchTier >= 2 {
      return Some(false);
    }
    if t.level < 4 {
      return Some(false);
    }
    if g.gold < o.cost2 {
      return None;
    }
    g.gold := g.gold - o.cost2;
    g.towers := g.towers[i := BranchEffects(t.(branchTier := 2), o.key, 2)];
    r := Some(true);
  }
}
