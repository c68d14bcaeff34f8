/** Combat resolution: towers pick targets and fire, bullets fly and hit, hits
    go through boss shields and armour, splash and slow pulses spread, bosses
    climb their hp-threshold ladders, and every tick fish burn, slow down,
    move along the path or leak. */
module CombatSystem {
  import opened Common
  import opened GameState
  import opened FishFactory
  import opened KillLedger

  /** `Math.hypot(a.x - b.x, a.y - b.y)`. */
  function Distance(hypot: (real, real) -> real, a: Point, b: Point): real {
    hypot(a.x - b.x, a.y - b.y)
  }

  // ===== targeting ==========================================================

  function Score(f: Fish, d: real): real {
    f.pathIndex as real * 1000.0 - d + f.hp * 0.02
  }

  predicate InRange(hypot: (real, real) -> real, t: Tower, f: Fish) {
    Distance(hypot, t.pos, f.pos) <= t.range
  }

  function TargetScore(hypot: (real, real) -> real, t: Tower, f: Fish): real {
    Score(f, Distance(hypot, t.pos, f.pos))
  }

  /** The fish a tower aims at: in range, scoring at least as high as every
      fish in range, and strictly higher than every fish in range before it. */
  ghost predicate IsBestTarget(hypot: (real, real) -> real, t: Tower, fishes: seq<Fish>, k: int) {
    0 <= k < |fishes| && InRange(hypot, t, fishes[k]) &&
    (forall j :: 0 <= j < |fishes| && InRange(hypot, t, fishes[j]) ==>
       TargetScore(hypot, t, fishes[j]) <= TargetScore(hypot, t, fishes[k])) &&
    (forall j :: 0 <= j < k && InRange(hypot, t, fishes[j]) ==>
       TargetScore(hypot, t, fishes[j]) < TargetScore(hypot, t, fishes[k]))
  }

  /** Ties go to the earliest fish, so the best target is unique. */
  lemma BestTargetUnique(hypot: (real, real) -> real, t: Tower, fishes: seq<Fish>, k1: int, k2: int)
    requires IsBestTarget(hypot, t, fishes, k1) && IsBestTarget(hypot, t, fishes, k2)
    ensures k1 == k2
  {
  }

  /** `acquireTarget`: the index of the best-scoring fish in range, if any. */
  method AcquireTarget(g: Game, t: Tower) returns (r: Option<nat>)
    ensures r.Some? ==> IsBestTarget(g.hypot, t, g.fishes, r.value)
    ensures r.None? <==> forall j :: 0 <= j < |g.fishes| ==> !InRange(g.hypot, t, g.fishes[j])
  {
    r := None;
    var bestScore := 0.0;
    for i := 0 to |g.fishes|
      invariant r.None? <==> forall j :: 0 <= j < i ==> !InRange(g.hypot, t, g.fishes[j])
      invariant r.Some? ==> r.value < i && InRange(g.hypot, t, g.fishes[r.value]) &&
                            bestScore == TargetScore(g.hypot, t, g.fishes[r.value])
      invariant r.Some? ==> forall j :: 0 <= j < i && InRange(g.hypot, t, g.fishes[j]) ==>
                              TargetScore(g.hypot, t, g.fishes[j]) <= bestScore
      invariant r.Some? ==> forall j :: 0 <= j < r.value && InRange(g.hypot, t, g.fishes[j]) ==>
                              TargetScore(g.hypot, t, g.fishes[j]) < bestScore
    {
      var d := Distance(g.hypot, t.pos, g.fishes[i].pos);
      if d > t.range {
        continue;
      }
      var score := Score(g.fishes[i], d);
      if r.None? || score > bestScore {
        bestScore := score;
        r := Some(i);
      }
    }
  }

  // ===== firing ===============================================================

  /** The bullet a firing tower always launches: a snapshot of its stats. */
  function PrimaryShot(t: Tower, targetId: nat): Bullet {
    Bullet(pos := t.pos, targetId := targetId, damage := t.damage, speed := t.projectileSpeed,
           towerLevel := t.level, towerType := t.typeKey, slow := t.slow,
           splashRadius := t.splashRadius, splashRatio := t.splashRatio,
           critChance := t.critChance, critMultiplier := t.critMultiplier,
           rapidDoubleShotChance := t.rapidDoubleShotChance, slowPulseRadius := t.slowPulseRadius,
           armorBreak := t.armorBreak, burn := t.burn)
  }

  /** The weaker extra bullet of a rapid double shot, launched from `pos`. */
  function DoubleShot(t: Tower, targetId: nat, pos: Point): Bullet {
    Bullet(pos := pos, targetId := targetId, damage := t.damage * 0.65, speed := t.projectileSpeed + 20.0,
           towerLevel := t.level, towerType := t.typeKey, slow := t.slow,
           splashRadius := t.splashRadius * 0.75, splashRatio := t.splashRatio * 0.8,
           critChance := 0.0, critMultiplier := 1.0,
           rapidDoubleShotChance := 0.0, slowPulseRadius := t.slowPulseRadius,
           armorBreak := t.armorBreak, burn := t.burn)
  }

  /** What one tower does in a tick: `t2` is the tower afterwards, `shots`
      the bullets it adds and `aim` the fish it aims at. It fires only when
      its decremented cooldown has run out and some fish is in range; firing
      resets the cooldown to the fire rate and aims at the best target, with
      an optional second, weaker shot from within 3 units of the tower. */
  ghost predicate TowerTurn(hypot: (real, real) -> real, fishes: seq<Fish>, t: Tower, dt: real,
                            t2: Tower, shots: seq<Bullet>, aim: Option<nat>, roll: real)
  {
    var cd := t.cooldown - dt;
    (aim.None? ==> t2 == t.(cooldown := cd) && shots == [] &&
                   (cd <= 0.0 ==> forall j :: 0 <= j < |fishes| ==> !InRange(hypot, t, fishes[j]))) &&
    (aim.Some? ==> cd <= 0.0 && t2 == t.(cooldown := t.fireRate) && |shots| <= 2 &&
                   AimedAt(hypot, fishes, t, aim.value, shots) &&
                   (|shots| == 2 <==> t.rapidDoubleShotChance != 0.0 && roll < t.rapidDoubleShotChance))
  }

  /** The volley of a firing tower aimed at fish `k`. */
  ghost predicate AimedAt(hypot: (real, real) -> real, fishes: seq<Fish>, t: Tower, k: int, shots: seq<Bullet>) {
    IsBestTarget(hypot, t, fishes, k) && 1 <= |shots| && shots[0] == PrimaryShot(t, fishes[k].id) &&
    (|shots| == 2 ==>
       (t.rapidDoubleShotChance != 0.0 &&
        -3.0 <= shots[1].pos.x - t.pos.x < 3.0 && -3.0 <= shots[1].pos.y - t.pos.y < 3.0 &&
        shots[1] == DoubleShot(t, fishes[k].id, shots[1].pos)))
  }

  /** One tower's turn of `updateTowers`; `roll` is the draw that decides
      the second shot. */
  method TowerStep(g: Game, t: Tower, dt: real)
    returns (t2: Tower, shots: seq<Bullet>, ghost aim: Option<nat>, ghost roll: real)
    ensures 0.0 <= roll < 1.0 && TowerTurn(g.hypot, g.fishes, t, dt, t2, shots, aim, roll)
  {
    shots := [];
    aim := None;
    roll := 0.0;
    t2 := t.(cooldown := t.cooldown - dt);
    if t2.cooldown > 0.0 {
      return;
    }
    var target := AcquireTarget(g, t);
    if target.None? {
      return;
    }
    var k := target.value;
    aim := target;
    var id := g.fishes[k].id;
    t2 := t.(cooldown := t.fireRate);
    shots := [PrimaryShot(t, id)];
    if t.rapidDoubleShotChance != 0.0 {
      var r := Random();
      roll := r;
      if r < t.rapidDoubleShotChance {
        var ox := Random();
        var oy := Random();
        shots := shots + [DoubleShot(t, id, Point(t.pos.x + (ox * 6.0 - 3.0), t.pos.y + (oy * 6.0 - 3.0)))];
      }
    }
  }

  /** Every tower of `before` took its turn into the matching entries. */
  ghost predicate AllTurns(hypot: (real, real) -> real, fishes: seq<Fish>, dt: real, before: seq<Tower>,
                           after: seq<Tower>, volleys: seq<seq<Bullet>>, aims: seq<Option<nat>>, rolls: seq<real>)
  {
    |before| == |after| == |volleys| == |aims| == |rolls| &&
    forall k :: 0 <= k < |before| ==> TowerTurn(hypot, fishes, before[k], dt, after[k], volleys[k], aims[k], rolls[k])
  }

  lemma AllTurnsSnoc(hypot: (real, real) -> real, fishes: seq<Fish>, dt: real, before: seq<Tower>,
                     after: seq<Tower>, volleys: seq<seq<Bullet>>, aims: seq<Option<nat>>, rolls: seq<real>,
                     t: Tower, t2: Tower, shots: seq<Bullet>, aim: Option<nat>, roll: real)
    requires AllTurns(hypot, fishes, dt, before, after, volleys, aims, rolls)
    requires TowerTurn(hypot, fishes, t, dt, t2, shots, aim, roll)
    ensures AllTurns(hypot, fishes, dt, before + [t], after + [t2], volleys + [shots], aims + [aim], rolls + [roll])
  {
  }

  /** The turns of all towers, in list order, against the same fish list:
      the towers afterwards and the bullets they add, volley after volley. */
  method TowerPass(g: Game, dt: real)
    returns (after: seq<Tower>, added: seq<Bullet>, ghost volleys: seq<seq<Bullet>>, ghost aims: seq<Option<nat>>,
             ghost rolls: seq<real>)
    ensures AllTurns(g.hypot, g.fishes, dt, g.towers, after, volleys, aims, rolls)
    ensures added == Flatten(volleys)
  {
    after, added, volleys, aims, rolls := [], [], [], [], [];
    for i := 0 to |g.towers|
      invariant AllTurns(g.hypot, g.fishes, dt, g.towers[..i], after, volleys, aims, rolls)
      invariant added == Flatten(volleys)
    {
      var t2, shots, aim, roll := TowerStep(g, g.towers[i], dt);
      AllTurnsSnoc(g.hypot, g.fishes, dt, g.towers[..i], after, volleys, aims, rolls, g.towers[i], t2, shots, aim, roll);
      assert g.towers[..i] + [g.towers[i]] == g.towers[..i + 1];
      FlattenSnoc(volleys, shots);
      after, added := after + [t2], added + shots;
      volleys, aims, rolls := volleys + [shots], aims + [aim], rolls + [roll];
    }
    assert g.towers[..|g.towers|] == g.towers;
  }

  /** `updateTowers`: every tower takes its turn in list order; the new
      bullets are appended after the old ones, tower by tower. A tower's turn
      reads only the fish list, so computing the turns first and storing
      them afterwards is the same as updating each tower in place. */
  method UpdateTowers(g: Game, dt: real)
    returns (ghost volleys: seq<seq<Bullet>>, ghost aims: seq<Option<nat>>, ghost rolls: seq<real>)
    modifies g`towers, g`bullets
    ensures AllTurns(g.hypot, g.fishes, dt, old(g.towers), g.towers, volleys, aims, rolls)
    ensures g.bullets == old(g.bullets) + Flatten(volleys)
    ensures g.Record() == old(g.Record())
  {
    var after, added;
    after, added, volleys, aims, rolls := TowerPass(g, dt);
    g.towers := after;
    g.bullets := g.bullets + added;
  }

  // ===== armour, damage and payloads ==========================================

  /** The strongest of a non-empty list of armour breaks. */
  function MaxAmount(es: seq<ArmorBreakEffect>): (m: real)
    requires |es| >= 1
    ensures forall e :: e in es ==> e.strength <= m
    ensures exists e :: e in es && e.strength == m
  {
    if |es| == 1 then es[0].strength
    else
      var rest := MaxAmount(es[1..]);
      assert forall e :: e in es[1..] ==> e in es;
      Max(es[0].strength, rest)
  }

  /** `getEffectiveArmorRatio`: the damage multiplier armour leaves. An absent
      ratio counts as 1; with armour breaks active only the strongest one is
      added (they never sum) and the result is capped at 1. */
  function EffectiveArmorRatio(f: Fish): (r: real)
    ensures f.armorBreakEffects == [] ==> r == f.armorRatio.GetOr(1.0)
    ensures f.armorBreakEffects != [] ==> r <= 1.0
    ensures f.armorBreakEffects != [] ==>
      exists e :: e in f.armorBreakEffects && r == Min(1.0, f.armorRatio.GetOr(1.0) + e.strength) &&
        forall e2 :: e2 in f.armorBreakEffects ==> e2.strength <= e.strength
  {
    var base := f.armorRatio.GetOr(1.0);
    if f.armorBreakEffects == [] then base else Min(1.0, base + MaxAmount(f.armorBreakEffects))
  }

  /** A further armour break no stronger than one already active changes
      nothing: breaks do not stack. */
  lemma {:induction false} WeakerBreakDoesNotStack(f: Fish, e: ArmorBreakEffect)
    requires f.armorBreakEffects != []
    requires exists e0 :: e0 in f.armorBreakEffects && e.strength <= e0.strength
    ensures EffectiveArmorRatio(f.(armorBreakEffects := f.armorBreakEffects + [e])) == EffectiveArmorRatio(f)
  {
    var es := f.armorBreakEffects;
    MaxAppend(es, e);
  }

  lemma {:induction false} MaxAppend(es: seq<ArmorBreakEffect>, e: ArmorBreakEffect)
    requires |es| >= 1
    ensures MaxAmount(es + [e]) == Max(MaxAmount(es), e.strength)
  {
    if |es| == 1 {
      assert (es + [e])[1..] == [e];
    } else {
      assert (es + [e])[1..] == es[1..] + [e];
      MaxAppend(es[1..], e);
    }
  }

  function LevelPierce(towerLevel: int): real {
    if towerLevel >= 3 then 1.08 else 1.0
  }

  /** The crit factor for a roll in [0, 1): only a bullet with a crit chance
      rolls, and a zero multiplier means 1.8. */
  function CritFactor(b: Bullet, roll: real): (c: real)
    ensures b.critChance == 0.0 ==> c == 1.0
    ensures c == 1.0 || c == b.critMultiplier || (b.critMultiplier == 0.0 && c == 1.8)
  {
    if b.critChance != 0.0 && roll < b.critChance then (if b.critMultiplier != 0.0 then b.critMultiplier else 1.8)
    else 1.0
  }

  function HitDamage(f: Fish, b: Bullet, factor: real, crit: real): real {
    b.damage * factor * EffectiveArmorRatio(f) * LevelPierce(b.towerLevel) * crit
  }

  function Listed(e: Option<Timed>): seq<Timed> {
    if e.Some? then [e.value] else []
  }

  /** `after` is the effect list `before` with `e` appended when `live`
      holds and there is an `e`, and `before` itself otherwise. */
  predicate AppendedIf(before: seq<Timed>, after: seq<Timed>, e: Option<Timed>, live: bool) {
    |after| == |before| + (if live && e.Some? then 1 else 0) && after[..|before|] == before &&
    (|after| > |before| ==> after[|before|] == e.value)
  }

  /** `applySlowToFish`, `applyArmorBreakToFish` and `applyBurnToFish` for one
      bullet: each payload it carries is appended, unless the fish is dead. */
  function WithPayloads(f: Fish, b: Bullet): (r: Fish)
    ensures r == f.(slowEffects := r.slowEffects, armorBreakEffects := r.armorBreakEffects, burnEffects := r.burnEffects)
    ensures AppendedIf(f.slowEffects, r.slowEffects, b.slow, f.hp > 0.0)
    ensures AppendedIf(f.armorBreakEffects, r.armorBreakEffects, b.armorBreak, f.hp > 0.0)
    ensures AppendedIf(f.burnEffects, r.burnEffects, b.burn, f.hp > 0.0)
  {
    if f.hp <= 0.0 then f
    else f.(slowEffects := f.slowEffects + Listed(b.slow),
            armorBreakEffects := f.armorBreakEffects + Listed(b.armorBreak),
            burnEffects := f.burnEffects + Listed(b.burn))
  }

  /** The fish after one hit on a live target. An active boss shield takes
      the whole raw damage (no armour, level or crit factor) and the hp stays;
      otherwise hp drops by the full damage formula. Payloads still land
      through a shield, and land after an unshielded hit only if the fish
      survives it. Nothing but hp, shield and effect lists changes. */
  function Struck(f: Fish, b: Bullet, factor: real, crit: real): (r: Fish)
    requires f.hp > 0.0
    ensures f.bossShieldHp > 0.0 ==>
      r.hp == f.hp && r.bossShieldHp == f.bossShieldHp - b.damage * factor &&
      r.slowEffects == f.slowEffects + Listed(b.slow) && r.burnEffects == f.burnEffects + Listed(b.burn) &&
      r.armorBreakEffects == f.armorBreakEffects + Listed(b.armorBreak)
    ensures f.bossShieldHp <= 0.0 ==>
      r.bossShieldHp == f.bossShieldHp && r.hp == f.hp - HitDamage(f, b, factor, crit)
    ensures f.bossShieldHp <= 0.0 && r.hp > 0.0 ==>
      r.slowEffects == f.slowEffects + Listed(b.slow) && r.burnEffects == f.burnEffects + Listed(b.burn) &&
      r.armorBreakEffects == f.armorBreakEffects + Listed(b.armorBreak)
    ensures f.bossShieldHp <= 0.0 && r.hp <= 0.0 ==>
      r.slowEffects == f.slowEffects && r.burnEffects == f.burnEffects &&
      r.armorBreakEffects == f.armorBreakEffects
    ensures r == f.(hp := r.hp, bossShieldHp := r.bossShieldHp, slowEffects := r.slowEffects,
                    burnEffects := r.burnEffects, armorBreakEffects := r.armorBreakEffects)
  {
    if f.bossShieldHp > 0.0 then WithPayloads(f.(bossShieldHp := f.bossShieldHp - b.damage * factor), b)
    else WithPayloads(f.(hp := f.hp - HitDamage(f, b, factor, crit)), b)
  }

  /** Fish `f` took a hit at `factor` with crit factor `crit` and is `after`
      now: an active boss shield absorbs the raw damage and the hp stays;
      otherwise the hp drops by the damage formula. */
  predicate HitOn(f: Fish, after: Fish, b: Bullet, factor: real, crit: real) {
    if f.bossShieldHp > 0.0 then after.hp == f.hp && after.bossShieldHp == f.bossShieldHp - b.damage * factor
    else after.hp == f.hp - HitDamage(f, b, factor, crit)
  }

  /** Slows do not change what a hit does. */
  lemma HitOnSlowOnly(f: Fish, f2: Fish, after: Fish, b: Bullet, factor: real, crit: real)
    requires f2 == f.(slowEffects := f2.slowEffects)
    ensures HitOn(f2, after, b, factor, crit) <==> HitOn(f, after, b, factor, crit)
  {
    assert EffectiveArmorRatio(f2) == EffectiveArmorRatio(f);
  }

  /** A level-1, 20-damage, non-critical shot on an unshielded 100-hp fish
      with armour ratio 0.8 leaves 84 hp. */
  lemma ExampleHit(f: Fish, b: Bullet)
    requires f.hp == 100.0 && f.bossShieldHp == 0.0 && f.armorRatio == Some(0.8) && f.armorBreakEffects == []
    requires b.damage == 20.0 && b.towerLevel == 1 && b.critChance == 0.0
    ensures Struck(f, b, 1.0, CritFactor(b, 0.5)).hp == 84.0
  {
  }

  // ===== splash and slow pulses ===============================================

  /** Splash falloff: 0.65 to 1 times the splash ratio (0.6 when zero) from
      the rim to the centre, never below 0.2. */
  function SplashFactor(ratio: real, d: real, radius: real): (r: real)
    requires radius > 0.0
    ensures r >= 0.2
  {
    Max(0.2, (if ratio != 0.0 then ratio else 0.6) * (0.65 + (1.0 - d / radius) * 0.35))
  }

  /** Closer fish are splashed at least as hard (for a non-negative ratio). */
  lemma SplashFactorFalls(ratio: real, d1: real, d2: real, radius: real)
    requires radius > 0.0 && ratio >= 0.0 && d1 <= d2
    ensures SplashFactor(ratio, d2, radius) <= SplashFactor(ratio, d1, radius)
  {
    var q := if ratio != 0.0 then ratio else 0.6;
    assert d1 / radius <= d2 / radius by {
      assert d2 / radius - d1 / radius == (d2 - d1) / radius;
    }
    assert q * (0.65 + (1.0 - d2 / radius) * 0.35) <= q * (0.65 + (1.0 - d1 / radius) * 0.35);
  }

  /** The slow a slow-pulse bullet spreads around its target: 88% of the
      multiplier but never below 0.25, for 80% of the time. */
  function HitPulse(s: SlowEffect): (p: SlowEffect)
    ensures p.strength >= 0.25 && p.strength >= s.strength * 0.88
    ensures p.strength == 0.25 || p.strength == s.strength * 0.88
    ensures p.duration == s.duration * 0.8
  {
    Timed(Max(0.25, s.strength * 0.88), s.duration * 0.8)
  }

  /** The slow a splash adds to a splashed fish inside the pulse radius: 90%
      of the multiplier but never below 0.28, for 80% of the time. */
  function SplashPulse(s: SlowEffect): (p: SlowEffect)
    ensures p.strength >= 0.28 && p.strength >= s.strength * 0.9
    ensures p.strength == 0.28 || p.strength == s.strength * 0.9
    ensures p.duration == s.duration * 0.8
  {
    Timed(Max(0.28, s.strength * 0.9), s.duration * 0.8)
  }

  function AddSlow(f: Fish, s: SlowEffect): Fish {
    if f.hp <= 0.0 then f else f.(slowEffects := f.slowEffects + [s])
  }

  /** The fish list after a slow pulse around fish `c`: every other live fish
      within `radius` of it gains the pulse slow. */
  function Pulsed(hypot: (real, real) -> real, fishes: seq<Fish>, c: nat, radius: real, s: SlowEffect): (r: seq<Fish>)
    requires c < |fishes|
    ensures |r| == |fishes| && r[c] == fishes[c]
    ensures forall k :: 0 <= k < |fishes| ==>
      r[k] == (if k != c && fishes[k].hp > 0.0 && Distance(hypot, fishes[k].pos, fishes[c].pos) <= radius
               then fishes[k].(slowEffects := fishes[k].slowEffects + [s]) else fishes[k])
  {
    seq(|fishes|, k requires 0 <= k < |fishes| =>
      if k != c && fishes[k].hp > 0.0 && Distance(hypot, fishes[k].pos, fishes[c].pos) <= radius
      then AddSlow(fishes[k], s) else fishes[k])
  }

  // ===== boss hp ladders ======================================================

  /** `hp / maxHp <= t`; a zero maximum gives an infinite ratio. */
  predicate RatioAtMost(hp: real, maxHp: real, t: real) {
    maxHp != 0.0 && hp / maxHp <= t
  }

  /** How many leading thresholds the current hp ratio has reached. */
  function PopCount(hp: real, maxHp: real, ts: seq<real>): (n: nat)
    ensures n <= |ts|
    ensures forall i :: 0 <= i < n ==> RatioAtMost(hp, maxHp, ts[i])
    ensures n < |ts| ==> !RatioAtMost(hp, maxHp, ts[n])
  {
    if ts != [] && RatioAtMost(hp, maxHp, ts[0]) then 1 + PopCount(hp, maxHp, ts[1..]) else 0
  }

  /** The number of fish one summon brings: the sum of the pack sizes. */
  function PackTotal(packs: seq<SummonPack>): (n: nat)
    ensures packs == [] ==> n == 0
  {
    if packs == [] then 0 else PackTotal(packs[..|packs| - 1]) + MaxInt(0, packs[|packs| - 1].count)
  }

  lemma DefaultSummonSize()
    ensures PackTotal(DefaultSummonPacks) == 5
  {
    assert DefaultSummonPacks[..2] == [SummonPack("swordfish", 2), SummonPack("oarfish", 2)];
    assert DefaultSummonPacks[..2][..1] == [SummonPack("swordfish", 2)];
  }

  // ===== split children and boss summons ======================================

  /** The overrides of split child `k` of `count`: spread 10 units apart
      around the parent's x, at row `y`, on the parent's path index, with
      `hpScale` (1 when absent) times the child template's hp as both current
      and maximum hp, and 5% extra speed over the template's. */
  function SplitOverrides(parent: Fish, child: FishTemplate, s: SplitSkill, k: int, y: real): Overrides {
    var hp := child.hp * s.hpScale.GetOr(1.0);
    Overrides(x := Some(parent.pos.x + (k as real - (s.count as real - 1.0) / 2.0) * 10.0), y := Some(y),
              pathIndex := Some(parent.pathIndex), hp := Some(hp), maxHp := Some(hp),
              speed := Some(child.speed * 1.05), baseSpeed := Some(child.speed), spawnedFromSplit := true)
  }

  /** `reqs` are the split children of `parent`: one per count, in order,
      each within 5 units of the parent's row. */
  ghost predicate IsBrood(parent: Fish, catalog: map<string, FishTemplate>, reqs: seq<Request>) {
    parent.splitSkill.Some? && parent.splitSkill.value.into in catalog &&
    var s := parent.splitSkill.value;
    |reqs| == MaxInt(0, s.count) &&
    forall k :: 0 <= k < |reqs| ==>
      reqs[k].kind == s.into && reqs[k].o.y.Some? &&
      parent.pos.y - 5.0 <= reqs[k].o.y.value < parent.pos.y + 5.0 &&
      reqs[k].o == SplitOverrides(parent, catalog[s.into], s, k, reqs[k].o.y.value)
  }

  /** The spawn requests of `spawnSplitChildren` (its loop, with the random
      row offsets drawn). */
  method BroodOf(g: Game, parent: Fish) returns (reqs: seq<Request>)
    requires parent.splitSkill.Some? && parent.splitSkill.value.into in g.fishCatalog
    ensures IsBrood(parent, g.fishCatalog, reqs)
    ensures KindsKnown(reqs, g.fishCatalog)
  {
    var s := parent.splitSkill.value;
    var child := g.fishCatalog[s.into];
    reqs := [];
    var k := 0;
    while k < s.count
      invariant 0 <= k == |reqs| <= MaxInt(0, s.count)
      invariant forall j :: 0 <= j < |reqs| ==>
        reqs[j].kind == s.into && reqs[j].o.y.Some? &&
        parent.pos.y - 5.0 <= reqs[j].o.y.value < parent.pos.y + 5.0 &&
        reqs[j].o == SplitOverrides(parent, child, s, j, reqs[j].o.y.value)
    {
      var r := Random();
      var y := parent.pos.y + (r * 10.0 - 5.0);
      reqs := reqs + [Request(s.into, SplitOverrides(parent, child, s, k, y))];
      k := k + 1;
    }
  }

  /** The speed of a summoned `kind`: its template speed (60 when zero)
      times the boss's summon multiplier. */
  function SummonSpeed(catalog: map<string, FishTemplate>, kind: string, mult: real): real
    requires kind in catalog
  {
    (if catalog[kind].speed != 0.0 then catalog[kind].speed else 60.0) * mult
  }

  /** A summon request of `boss`: a catalog kind on the boss's path index,
      within 14 units of it across and 12 units along the y axis, at the
      summon speed, marked as split-spawned. */
  ghost predicate IsSummon(boss: Fish, catalog: map<string, FishTemplate>, r: Request) {
    r.kind in catalog && r.o.x.Some? && r.o.y.Some? &&
    boss.pos.x - 14.0 <= r.o.x.value < boss.pos.x + 14.0 &&
    boss.pos.y - 12.0 <= r.o.y.value < boss.pos.y + 12.0 &&
    r.o == Overrides(x := r.o.x, y := r.o.y, pathIndex := Some(boss.pathIndex), hp := None, maxHp := None,
                     speed := Some(SummonSpeed(catalog, r.kind, boss.bossSummonSpeedMultiplier)),
                     baseSpeed := None, spawnedFromSplit := true)
  }

  /** The kinds one summon brings, pack after pack. */
  function SummonKinds(packs: seq<SummonPack>): (r: seq<string>)
    ensures |r| == PackTotal(packs)
  {
    if packs == [] then []
    else SummonKinds(packs[..|packs| - 1]) + Repeat(packs[|packs| - 1].kind, packs[|packs| - 1].count)
  }

  /** One summon of `boss`: a request per escort, kinds in pack order. */
  ghost predicate IsSummonRound(boss: Fish, catalog: map<string, FishTemplate>, reqs: seq<Request>) {
    var kinds := SummonKinds(SummonPacksOf(boss));
    |reqs| == |kinds| &&
    forall j :: 0 <= j < |reqs| ==> reqs[j].kind == kinds[j] && IsSummon(boss, catalog, reqs[j])
  }

  /** The spawn requests of one `spawnBossSummons` (its two loops, with the
      random offsets drawn). */
  method SummonRound(g: Game, boss: Fish) returns (reqs: seq<Request>)
    requires SummonsKnown(g.fishCatalog) && FishSummonsKnown(boss, g.fishCatalog)
    ensures IsSummonRound(boss, g.fishCatalog, reqs)
    ensures KindsKnown(reqs, g.fishCatalog)
  {
    var packs := SummonPacksOf(boss);
    reqs := [];
    for p := 0 to |packs|
      invariant |reqs| == |SummonKinds(packs[..p])|
      invariant forall j :: 0 <= j < |reqs| ==>
        reqs[j].kind == SummonKinds(packs[..p])[j] && IsSummon(boss, g.fishCatalog, reqs[j])
    {
      assert packs[..p + 1][..p] == packs[..p];
      ghost var before := reqs;
      var pack := packs[p];
      assert pack in packs;
      var i := 0;
      while i < pack.count
        invariant 0 <= i <= MaxInt(0, pack.count) && |reqs| == |before| + i
        invariant reqs[..|before|] == before
        invariant forall j :: |before| <= j < |reqs| ==> reqs[j].kind == pack.kind && IsSummon(boss, g.fishCatalog, reqs[j])
      {
        var rx := Random();
        var ry := Random();
        var o := Overrides(x := Some(boss.pos.x + rx * 28.0 - 14.0), y := Some(boss.pos.y + ry * 24.0 - 12.0),
                           pathIndex := Some(boss.pathIndex), hp := None, maxHp := None,
                           speed := Some(SummonSpeed(g.fishCatalog, pack.kind, boss.bossSummonSpeedMultiplier)),
                           baseSpeed := None, spawnedFromSplit := true);
        reqs := reqs + [Request(pack.kind, o)];
        i := i + 1;
      }
      assert SummonKinds(packs[..p + 1]) == SummonKinds(packs[..p]) + Repeat(pack.kind, pack.count);
    }
    assert packs[..|packs|] == packs;
  }

  /** Stores an updated copy of fish `i` (same id, same summon packs). */
  method ReplaceFish(g: Game, i: nat, f: Fish)
    requires g.Valid() && i < |g.fishes|
    requires f.id == g.fishes[i].id && f.bossSummonPacks == g.fishes[i].bossSummonPacks
    modifies g`fishes
    ensures g.Valid() && g.fishes == old(g.fishes)[i := f]
  {
    FishesOkUpdate(g.fishes, g.nextFishId, g.fishCatalog, i, f);
    g.fishes := g.fishes[i := f];
  }

  /** `fishes` became `after` through `spawnSplitChildren` on fish `i`: a
      fish with a split skill not yet used is marked split and, when its
      child kind is in the catalog, its brood is appended. */
  ghost predicate SplitDone(catalog: map<string, FishTemplate>, pathPoints: seq<Point>, fishes: seq<Fish>, i: int,
                            id0: nat, after: seq<Fish>, reqs: seq<Request>)
  {
    0 <= i < |fishes| && |pathPoints| >= 1 &&
    var f := fishes[i];
    if f.splitSkill.None? || f.splitSpawned then after == fishes && reqs == []
    else
      (if f.splitSkill.value.into in catalog then IsBrood(f, catalog, reqs) else reqs == []) &&
      KindsKnown(reqs, catalog) &&
      after == fishes[i := f.(splitSpawned := true)] + Spawned(catalog, reqs, pathPoints, id0)
  }

  /** `spawnSplitChildren`. */
  method SpawnSplitChildren(g: Game, i: nat) returns (ghost reqs: seq<Request>)
    requires g.Valid() && i < |g.fishes|
    modifies g`fishes, g`nextFishId
    ensures g.Valid()
    ensures SplitDone(g.fishCatalog, g.pathPoints, old(g.fishes), i, old(g.nextFishId), g.fishes, reqs)
    ensures g.nextFishId == old(g.nextFishId) + |reqs|
  {
    reqs := [];
    var f := g.fishes[i];
    if f.splitSkill.None? || f.splitSpawned {
      return;
    }
    ReplaceFish(g, i, f.(splitSpawned := true));
    if f.splitSkill.value.into !in g.fishCatalog {
      assert g.fishes == g.fishes + [];
      return;
    }
    var brood := BroodOf(g, f);
    SpawnAll(g, brood);
    reqs := brood;
  }

  lemma LadderKeepsHp(catalog: map<string, FishTemplate>, pathPoints: seq<Point>, fishes: seq<Fish>, i: int,
                      id0: nat, after: seq<Fish>, rounds: seq<seq<Request>>)
    requires LadderDone(catalog, pathPoints, fishes, i, id0, after, rounds)
    ensures |fishes| <= |after| && after[i].hp == fishes[i].hp
  {
  }

  /** The ladders change no hp, touch no other fish's hp or shield, and only
      append fish. */
  lemma LadderOutcome(catalog: map<string, FishTemplate>, pathPoints: seq<Point>, fishes: seq<Fish>, i: int,
                      id0: nat, after: seq<Fish>, rounds: seq<seq<Request>>)
    requires LadderDone(catalog, pathPoints, fishes, i, id0, after, rounds)
    ensures Bystanders(fishes, after, i) && after[i].hp == fishes[i].hp
  {
  }

  /** A split changes no hp or shield and only appends fish. */
  lemma SplitOutcome(catalog: map<string, FishTemplate>, pathPoints: seq<Point>, fishes: seq<Fish>, i: int,
                     id0: nat, after: seq<Fish>, reqs: seq<Request>)
    requires SplitDone(catalog, pathPoints, fishes, i, id0, after, reqs)
    ensures Bystanders(fishes, after, i) && after[i].hp == fishes[i].hp && after[i].bossShieldHp == fishes[i].bossShieldHp
  {
  }

  /** `fishes` became `after` through the hp-threshold ladders of fish `i`:
      a live boss drops every leading summon threshold its hp ratio has
      reached, summoning one round of escorts for each, then drops every
      reached shield threshold, gaining `maxHp * bossShieldRatio` of shield
      for each. Anything else is left alone. */
  ghost predicate LadderDone(catalog: map<string, FishTemplate>, pathPoints: seq<Point>, fishes: seq<Fish>, i: int,
                             id0: nat, after: seq<Fish>, rounds: seq<seq<Request>>)
  {
    0 <= i < |fishes| && |pathPoints| >= 1 &&
    var f := fishes[i];
    if !f.isBoss || f.hp <= 0.0 then after == fishes && rounds == []
    else
      |rounds| == PopCount(f.hp, f.maxHp, f.bossSummonThresholds) &&
      (forall r :: r in rounds ==> IsSummonRound(f, catalog, r)) &&
      KindsKnown(Flatten(rounds), catalog) &&
      after == fishes[i := Laddered(f)] + Spawned(catalog, Flatten(rounds), pathPoints, id0)
  }

  /** A boss after its ladders: the reached thresholds are gone and each
      reached shield threshold added `maxHp * bossShieldRatio` of shield. */
  function Laddered(f: Fish): Fish {
    var n := PopCount(f.hp, f.maxHp, f.bossSummonThresholds);
    var m := PopCount(f.hp, f.maxHp, f.bossShieldThresholds);
    f.(bossSummonThresholds := f.bossSummonThresholds[n..], bossShieldThresholds := f.bossShieldThresholds[m..],
       bossShieldHp := f.bossShieldHp + m as real * (f.maxHp * f.bossShieldRatio))
  }

  /** The summon loop of `triggerBossSkillsOnHpThresholds`: pops every
      leading threshold the hp ratio has reached, one summon round each. */
  method SummonLoop(g: Game, f: Fish) returns (ts: seq<real>, reqs: seq<Request>, ghost rounds: seq<seq<Request>>)
    requires SummonsKnown(g.fishCatalog) && FishSummonsKnown(f, g.fishCatalog)
    ensures ts == f.bossSummonThresholds[PopCount(f.hp, f.maxHp, f.bossSummonThresholds)..]
    ensures |rounds| == PopCount(f.hp, f.maxHp, f.bossSummonThresholds)
    ensures forall r :: r in rounds ==> IsSummonRound(f, g.fishCatalog, r)
    ensures reqs == Flatten(rounds) && KindsKnown(reqs, g.fishCatalog)
  {
    ts, reqs, rounds := f.bossSummonThresholds, [], [];
    ghost var n := 0;
    while ts != [] && RatioAtMost(f.hp, f.maxHp, ts[0])
      invariant n <= |f.bossSummonThresholds| && ts == f.bossSummonThresholds[n..]
      invariant PopCount(f.hp, f.maxHp, f.bossSummonThresholds) == n + PopCount(f.hp, f.maxHp, ts)
      invariant |rounds| == n && reqs == Flatten(rounds) && KindsKnown(reqs, g.fishCatalog)
      invariant forall r :: r in rounds ==> IsSummonRound(f, g.fishCatalog, r)
    {
      ts := ts[1..];
      n := n + 1;
      var more := SummonRound(g, f);
      FlattenSnoc(rounds, more);
      rounds := rounds + [more];
      reqs := reqs + more;
    }
  }

  /** `base` after `m` additions of `gain`. */
  function Stacked(base: real, gain: real, m: nat): real {
    if m == 0 then base else Stacked(base, gain, m - 1) + gain
  }

  lemma {:induction false} StackedIsProduct(base: real, gain: real, m: nat)
    ensures Stacked(base, gain, m) == base + m as real * gain
  {
    if m > 0 {
      StackedIsProduct(base, gain, m - 1);
      assert (m - 1) as real * gain + gain == m as real * gain;
    }
  }

  /** The shield loop of `triggerBossSkillsOnHpThresholds`: pops every
      leading threshold the hp ratio has reached, adding a shield of
      `maxHp * bossShieldRatio` for each. */
  method ShieldLoop(hp: real, maxHp: real, thresholds: seq<real>, shield0: real, ratio: real)
    returns (ss: seq<real>, shield: real)
    ensures ss == thresholds[PopCount(hp, maxHp, thresholds)..]
    ensures shield == shield0 + PopCount(hp, maxHp, thresholds) as real * (maxHp * ratio)
  {
    ss, shield := thresholds, shield0;
    ghost var m := 0;
    var gain := maxHp * ratio;
    while ss != [] && RatioAtMost(hp, maxHp, ss[0])
      invariant m <= |thresholds| && ss == thresholds[m..]
      invariant PopCount(hp, maxHp, thresholds) == m + PopCount(hp, maxHp, ss)
      invariant shield == Stacked(shield0, gain, m)
    {
      ss := ss[1..];
      m := m + 1;
      shield := shield + gain;
    }
    assert PopCount(hp, maxHp, ss) == 0;
    StackedIsProduct(shield0, gain, m);
  }

  /** Both loops of `triggerBossSkillsOnHpThresholds` on a copy of the boss:
      the boss afterwards and the summon requests, round after round. */
  method Ladders(g: Game, f: Fish) returns (f2: Fish, reqs: seq<Request>, ghost rounds: seq<seq<Request>>)
    requires SummonsKnown(g.fishCatalog) && FishSummonsKnown(f, g.fishCatalog)
    ensures f2 == Laddered(f)
    ensures |rounds| == PopCount(f.hp, f.maxHp, f.bossSummonThresholds)
    ensures forall r :: r in rounds ==> IsSummonRound(f, g.fishCatalog, r)
    ensures reqs == Flatten(rounds) && KindsKnown(reqs, g.fishCatalog)
  {
    var ts;
    ts, reqs, rounds := SummonLoop(g, f);
    var ss, shield := ShieldLoop(f.hp, f.maxHp, f.bossShieldThresholds, f.bossShieldHp, f.bossShieldRatio);
    f2 := f.(bossSummonThresholds := ts, bossShieldThresholds := ss, bossShieldHp := shield);
    ghost var laddered := Laddered(f);
    assert laddered.bossSummonThresholds == ts && laddered.bossShieldThresholds == ss && laddered.bossShieldHp == shield;
  }

  /** `triggerBossSkillsOnHpThresholds`. */
  method TriggerBossSkills(g: Game, i: nat) returns (ghost rounds: seq<seq<Request>>)
    requires g.Valid() && i < |g.fishes|
    modifies g`fishes, g`nextFishId
    ensures g.Valid()
    ensures LadderDone(g.fishCatalog, g.pathPoints, old(g.fishes), i, old(g.nextFishId), g.fishes, rounds)
    ensures g.nextFishId == old(g.nextFishId) + |Flatten(rounds)|
  {
    rounds := [];
    var f := g.fishes[i];
    if !f.isBoss || f.hp <= 0.0 {
      return;
    }
    assert f in g.fishes;
    var f2, reqs;
    f2, reqs, rounds := Ladders(g, f);
    ReplaceFish(g, i, f2);
    SpawnAll(g, reqs);
  }


  /** `handleFishDeath`: one more kill, the fish's reward in gold, one more
      boss kill for a boss, then the fish's split. */
  method HandleFishDeath(g: Game, i: nat) returns (ghost reqs: seq<Request>)
    requires g.Valid() && i < |g.fishes|
    modifies g`kills, g`gold, g`bossKills, g`fishes, g`nextFishId
    ensures g.Valid()
    ensures g.kills == old(g.kills) + 1 && g.gold == old(g.gold) + old(g.fishes[i]).reward
    ensures g.bossKills == old(g.bossKills) + (if old(g.fishes[i]).isBoss then 1 else 0)
    ensures SplitDone(g.fishCatalog, g.pathPoints, old(g.fishes), i, old(g.nextFishId), g.fishes, reqs)
    ensures g.nextFishId == old(g.nextFishId) + |reqs|
  {
    var f := g.fishes[i];
    g.kills := g.kills + 1;
    g.gold := g.gold + f.reward;
    if f.isBoss {
      g.bossKills := g.bossKills + 1;
    }
    reqs := SpawnSplitChildren(g, i);
  }

  // ===== applying a hit ========================================================

  /** The pulse loop of `applyDamageToFish`, on a copy of the fish list. */
  method PulseLoop(hypot: (real, real) -> real, fishes: seq<Fish>, c: nat, radius: real, s: SlowEffect)
    returns (r: seq<Fish>)
    requires c < |fishes|
    ensures r == Pulsed(hypot, fishes, c, radius, s)
  {
    r := fishes;
    for k := 0 to |fishes|
      invariant |r| == |fishes|
      invariant forall j :: 0 <= j < |fishes| ==> r[j] == (if j < k then Pulsed(hypot, fishes, c, radius, s)[j] else fishes[j])
    {
      if k == c || r[k].hp <= 0.0 {
        continue;
      }
      var d := Distance(hypot, r[k].pos, r[c].pos);
      if d > radius {
        continue;
      }
      r := r[k := r[k].(slowEffects := r[k].slowEffects + [s])];
    }
  }

  /** `after` keeps the fish of `before`, in place, with the same ids,
      summon packs, positions, path indices and leak flags (combat changes
      none of these), possibly followed by new fish. */
  ghost predicate Kin(before: seq<Fish>, after: seq<Fish>) {
    |before| <= |after| &&
    forall k :: 0 <= k < |before| ==>
      after[k].id == before[k].id && after[k].bossSummonPacks == before[k].bossSummonPacks &&
      after[k].pos == before[k].pos && after[k].pathIndex == before[k].pathIndex &&
      after[k].reachedEnd == before[k].reachedEnd
  }

  lemma KinTrans(a: seq<Fish>, b: seq<Fish>, c: seq<Fish>)
    requires Kin(a, b) && Kin(b, c)
    ensures Kin(a, c)
  {
  }

  /** `after` is `before` with more fish perhaps, where every fish but fish
      `i` is as it was, apart from slows it may have gained. */
  ghost predicate Bystanders(before: seq<Fish>, after: seq<Fish>, i: int) {
    Kin(before, after) &&
    forall k :: 0 <= k < |before| && k != i ==> after[k] == before[k].(slowEffects := after[k].slowEffects)
  }

  /** The fish list right after a hit on live fish `i`, before its ladders
      and death: the target struck and, for an unshielded target and a
      bullet with both a slow and a pulse radius, the pulse around it. Only
      the target's hp and shield can change; other fish at most gain a slow. */
  function AfterHit(hypot: (real, real) -> real, fishes: seq<Fish>, i: nat, b: Bullet, factor: real, crit: real): (r: seq<Fish>)
    requires i < |fishes| && fishes[i].hp > 0.0
    ensures |r| == |fishes| && r[i] == Struck(fishes[i], b, factor, crit) && Kin(fishes, r)
    ensures forall k :: 0 <= k < |fishes| && k != i ==>
      r[k] == fishes[k] || r[k] == fishes[k].(slowEffects := r[k].slowEffects)
  {
    var h := fishes[i := Struck(fishes[i], b, factor, crit)];
    if fishes[i].bossShieldHp <= 0.0 && b.slowPulseRadius != 0.0 && b.slow.Some? then
      Pulsed(hypot, h, i, b.slowPulseRadius, HitPulse(b.slow.value))
    else h
  }

  /** The crit roll, damage and slow pulse of `applyDamageToFish` on a copy
      of the fish list, for a live unshielded target. */
  method StrikeCopy(g: Game, i: nat, b: Bullet, factor: real) returns (h: seq<Fish>, ghost roll: real)
    requires i < |g.fishes| && g.fishes[i].hp > 0.0 && g.fishes[i].bossShieldHp <= 0.0
    ensures 0.0 <= roll < 1.0 && h == AfterHit(g.hypot, g.fishes, i, b, factor, CritFactor(b, roll))
  {
    roll := 0.0;
    var crit := 1.0;
    if b.critChance != 0.0 {
      var r := Random();
      roll := r;
      crit := CritFactor(b, r);
    }
    h := g.fishes[i := Struck(g.fishes[i], b, factor, crit)];
    if b.slowPulseRadius != 0.0 && b.slow.Some? {
      h := PulseLoop(g.hypot, h, i, b.slowPulseRadius, HitPulse(b.slow.value));
    }
  }

  /** Stores a fish list that differs from the current one fish by fish in
      nothing the invariant looks at. */
  method ReplaceFishes(g: Game, h: seq<Fish>)
    requires g.Valid() && |h| == |g.fishes| && Kin(g.fishes, h)
    modifies g`fishes
    ensures g.Valid() && g.fishes == h
  {
    forall f | f in h
      ensures FishSummonsKnown(f, g.fishCatalog)
    {
      var k :| 0 <= k < |h| && h[k] == f;
      assert g.fishes[k] in g.fishes;
    }
    g.fishes := h;
  }

  /** `fishes` became `after` through the death check that follows damage:
      fish `i` dies, with its split, exactly when its hp is at 0 or below. */
  ghost predicate DeathDone(catalog: map<string, FishTemplate>, pathPoints: seq<Point>, fishes: seq<Fish>, i: nat,
                            id0: nat, after: seq<Fish>, reqs: seq<Request>, killed: bool)
  {
    i < |fishes| &&
    (killed <==> fishes[i].hp <= 0.0) &&
    (killed ==> SplitDone(catalog, pathPoints, fishes, i, id0, after, reqs)) &&
    (!killed ==> after == fishes && reqs == [])
  }

  /** The `if (hp <= 0) handleFishDeath(...)` that follows every kind of damage. */
  method DeathCheck(g: Game, i: nat) returns (killed: bool, ghost reqs: seq<Request>)
    requires g.Valid() && i < |g.fishes|
    modifies g`fishes, g`nextFishId, g`kills, g`gold, g`bossKills
    ensures g.Valid()
    ensures DeathDone(g.fishCatalog, g.pathPoints, old(g.fishes), i, old(g.nextFishId), g.fishes, reqs, killed)
    ensures g.nextFishId == old(g.nextFishId) + |reqs|
    ensures killed ==> g.kills == old(g.kills) + 1 && g.gold == old(g.gold) + old(g.fishes[i]).reward &&
                       g.bossKills == old(g.bossKills) + (if old(g.fishes[i]).isBoss then 1 else 0)
    ensures !killed ==> g.kills == old(g.kills) && g.gold == old(g.gold) && g.bossKills == old(g.bossKills)
  {
    reqs := [];
    killed := false;
    if g.fishes[i].hp <= 0.0 {
      reqs := HandleFishDeath(g, i);
      killed := true;
    }
  }

  /** The fish list went from `before` to `after` through what follows
      damage to fish `i`: its boss ladders into `mid`, then, exactly when
      its hp is at 0 or below, its death and split. */
  ghost predicate AftermathDone(catalog: map<string, FishTemplate>, pathPoints: seq<Point>, before: seq<Fish>, i: nat,
                                id0: nat, mid: seq<Fish>, rounds: seq<seq<Request>>, reqs: seq<Request>,
                                after: seq<Fish>, killed: bool)
  {
    i < |before| &&
    (killed <==> before[i].hp <= 0.0) &&
    LadderDone(catalog, pathPoints, before, i, id0, mid, rounds) &&
    DeathDone(catalog, pathPoints, mid, i, id0 + |Flatten(rounds)|, after, reqs, killed)
  }

  /** The tail shared by a hit and a burn tick: run the boss ladders, then
      handle the death of a fish brought to 0 hp or below. */
  method Aftermath(g: Game, i: nat)
    returns (killed: bool, ghost mid: seq<Fish>, ghost rounds: seq<seq<Request>>, ghost reqs: seq<Request>)
    requires g.Valid() && i < |g.fishes|
    modifies g`fishes, g`nextFishId, g`kills, g`gold, g`bossKills
    ensures g.Valid()
    ensures AftermathDone(g.fishCatalog, g.pathPoints, old(g.fishes), i, old(g.nextFishId), mid, rounds, reqs, g.fishes, killed)
    ensures g.nextFishId == old(g.nextFishId) + |Flatten(rounds)| + |reqs|
    ensures killed ==> g.kills == old(g.kills) + 1 && g.gold == old(g.gold) + old(g.fishes[i]).reward &&
                       g.bossKills == old(g.bossKills) + (if old(g.fishes[i]).isBoss then 1 else 0)
    ensures !killed ==> g.kills == old(g.kills) && g.gold == old(g.gold) && g.bossKills == old(g.bossKills)
  {
    ghost var before, id0 := g.fishes, g.nextFishId;
    rounds := TriggerBossSkills(g, i);
    mid := g.fishes;
    LadderKeepsHp(g.fishCatalog, g.pathPoints, before, i, id0, mid, rounds);
    killed, reqs := DeathCheck(g, i);
  }

  /** The fish list went from `before` to `after` through an unshielded hit
      on live fish `i` with crit factor `crit`: the hit and pulse
      (`AfterHit`), then the aftermath; the target dies exactly when the hit
      brings it to 0 hp or below. */
  ghost predicate StrikeDone(g: Game, before: seq<Fish>, i: nat, b: Bullet, factor: real, crit: real, id0: nat,
                             mid: seq<Fish>, rounds: seq<seq<Request>>, reqs: seq<Request>, after: seq<Fish>, killed: bool)
  {
    i < |before| && before[i].hp > 0.0 &&
    (killed <==> Struck(before[i], b, factor, crit).hp <= 0.0) &&
    AftermathDone(g.fishCatalog, g.pathPoints, AfterHit(g.hypot, before, i, b, factor, crit), i, id0,
                  mid, rounds, reqs, after, killed)
  }

  /** An unshielded hit leaves the target with the hp the damage formula
      gives it and changes no other fish's hp or shield. */
  lemma StrikeOutcome(g: Game, before: seq<Fish>, i: nat, b: Bullet, factor: real, crit: real, id0: nat,
                      mid: seq<Fish>, rounds: seq<seq<Request>>, reqs: seq<Request>, after: seq<Fish>, killed: bool)
    requires StrikeDone(g, before, i, b, factor, crit, id0, mid, rounds, reqs, after, killed)
    ensures Bystanders(before, after, i) && after[i].hp == Struck(before[i], b, factor, crit).hp
  {
    var h := AfterHit(g.hypot, before, i, b, factor, crit);
    assert Bystanders(before, h, i);
    LadderOutcome(g.fishCatalog, g.pathPoints, h, i, id0, mid, rounds);
    if killed {
      SplitOutcome(g.fishCatalog, g.pathPoints, mid, i, id0 + |Flatten(rounds)|, after, reqs);
      BystandersTrans(h, mid, after, i);
    }
    BystandersTrans(before, h, after, i);
  }

  lemma BystandersTrans(a: seq<Fish>, b: seq<Fish>, c: seq<Fish>, i: int)
    requires Bystanders(a, b, i) && Bystanders(b, c, i)
    ensures Bystanders(a, c, i)
  {
    KinTrans(a, b, c);
  }

  /** `applyDamageToFish` past its shield check: a live, unshielded target. */
  method StrikeLive(g: Game, i: nat, b: Bullet, factor: real)
    returns (killed: bool, ghost roll: real, ghost mid: seq<Fish>, ghost rounds: seq<seq<Request>>, ghost reqs: seq<Request>)
    requires g.Valid() && i < |g.fishes| && g.fishes[i].hp > 0.0 && g.fishes[i].bossShieldHp <= 0.0
    modifies g`fishes, g`nextFishId, g`kills, g`gold, g`bossKills
    ensures g.Valid() && 0.0 <= roll < 1.0
    ensures StrikeDone(g, old(g.fishes), i, b, factor, CritFactor(b, roll), old(g.nextFishId), mid, rounds, reqs, g.fishes, killed)
    ensures g.nextFishId == old(g.nextFishId) + |Flatten(rounds)| + |reqs|
    ensures killed ==> g.kills == old(g.kills) + 1 && g.gold == old(g.gold) + old(g.fishes[i]).reward &&
                       g.bossKills == old(g.bossKills) + (if old(g.fishes[i]).isBoss then 1 else 0)
    ensures !killed ==> g.kills == old(g.kills) && g.gold == old(g.gold) && g.bossKills == old(g.bossKills)
    ensures Bystanders(old(g.fishes), g.fishes, i) && g.fishes[i].hp == Struck(old(g.fishes[i]), b, factor, CritFactor(b, roll)).hp
    ensures g.Counters() == Paid(old(g.Counters()), Fallen(old(g.fishes[i]), g.fishes[i]))
  {
    ghost var before, id0, c0 := g.fishes, g.nextFishId, g.Counters();
    PaidOne(c0, before[i]);
    var h;
    h, roll := StrikeCopy(g, i, b, factor);
    ReplaceFishes(g, h);
    killed, mid, rounds, reqs := Aftermath(g, i);
    StrikeOutcome(g, before, i, b, factor, CritFactor(b, roll), id0, mid, rounds, reqs, g.fishes, killed);
  }

  /** `applyDamageToFish` on fish `i`. A dead target is left alone. A shield
      takes the hit (payloads land, nothing else happens). Otherwise the
      target takes the full damage with a crit roll, the slow pulse spreads,
      the boss ladders run, and a target brought to 0 hp or below dies:
      `killed` says whether it did. */
  method ApplyDamageToFish(g: Game, i: nat, b: Bullet, factor: real)
    returns (killed: bool, ghost roll: real, ghost mid: seq<Fish>, ghost rounds: seq<seq<Request>>, ghost reqs: seq<Request>)
    requires g.Valid() && i < |g.fishes|
    modifies g`fishes, g`nextFishId, g`kills, g`gold, g`bossKills
    ensures g.Valid()
    ensures 0.0 <= roll < 1.0
    ensures old(g.fishes[i]).hp <= 0.0 ==>
      !killed && g.fishes == old(g.fishes) && g.nextFishId == old(g.nextFishId)
    ensures old(g.fishes[i]).hp > 0.0 && old(g.fishes[i]).bossShieldHp > 0.0 ==>
      !killed && g.fishes == old(g.fishes)[i := Struck(old(g.fishes[i]), b, factor, 1.0)] &&
      g.nextFishId == old(g.nextFishId)
    ensures old(g.fishes[i]).hp > 0.0 && old(g.fishes[i]).bossShieldHp <= 0.0 ==>
      StrikeDone(g, old(g.fishes), i, b, factor, CritFactor(b, roll), old(g.nextFishId), mid, rounds, reqs, g.fishes, killed) &&
      g.nextFishId == old(g.nextFishId) + |Flatten(rounds)| + |reqs|
    ensures Bystanders(old(g.fishes), g.fishes, i)
    ensures old(g.fishes[i]).hp > 0.0 && old(g.fishes[i]).bossShieldHp <= 0.0 ==>
      g.fishes[i].hp == Struck(old(g.fishes[i]), b, factor, CritFactor(b, roll)).hp
    ensures killed ==> g.kills == old(g.kills) + 1 && g.gold == old(g.gold) + old(g.fishes[i]).reward &&
                       g.bossKills == old(g.bossKills) + (if old(g.fishes[i]).isBoss then 1 else 0)
    ensures !killed ==> g.kills == old(g.kills) && g.gold == old(g.gold) && g.bossKills == old(g.bossKills)
    ensures g.Counters() == Paid(old(g.Counters()), Fallen(old(g.fishes[i]), g.fishes[i]))
  {
    killed, roll, mid, rounds, reqs := false, 0.0, g.fishes, [], [];
    var f := g.fishes[i];
    PaidOne(g.Counters(), f);
    if f.hp <= 0.0 {
      return;
    }
    if f.bossShieldHp > 0.0 {
      ReplaceFish(g, i, Struck(f, b, factor, 1.0));
      return;
    }
    killed, roll, mid, rounds, reqs := StrikeLive(g, i, b, factor);
  }


  // ===== splash ================================================================

  /** Fish `k` is caught by the splash of a hit on fish `c`: another live fish
      within the splash radius of it. */
  ghost predicate Splashed(hypot: (real, real) -> real, fishes: seq<Fish>, c: nat, b: Bullet, k: nat)
    requires c < |fishes| && k < |fishes|
  {
    b.splashRadius > 0.0 && k != c && fishes[k].hp > 0.0 &&
    Distance(hypot, fishes[k].pos, fishes[c].pos) <= b.splashRadius
  }

  /** `applyDamageToFish` on a live fish, as the bullet and splash passes
      see it: only fish `k` can lose hp or shield, and it loses what the hit
      deals it. */
  method LandHit(g: Game, k: nat, b: Bullet, factor: real) returns (ghost roll: real)
    requires g.Valid() && k < |g.fishes| && g.fishes[k].hp > 0.0
    modifies g`fishes, g`nextFishId, g`kills, g`gold, g`bossKills
    ensures g.Valid() && Bystanders(old(g.fishes), g.fishes, k)
    ensures HitOn(old(g.fishes[k]), g.fishes[k], b, factor, CritFactor(b, roll))
    ensures g.Counters() == Paid(old(g.Counters()), Fallen(old(g.fishes[k]), g.fishes[k]))
  {
    var killed;
    ghost var mid, rounds, reqs;
    killed, roll, mid, rounds, reqs := ApplyDamageToFish(g, k, b, factor);
  }

  /** The splash slow on fish `k`, if it is still alive. */
  method SplashSlow(g: Game, k: nat, s: SlowEffect)
    requires g.Valid() && k < |g.fishes|
    modifies g`fishes
    ensures g.Valid() && g.fishes == old(g.fishes)[k := AddSlow(old(g.fishes[k]), s)]
    ensures Bystanders(old(g.fishes), g.fishes, k)
    ensures g.fishes[k].hp == old(g.fishes[k]).hp && g.fishes[k].bossShieldHp == old(g.fishes[k]).bossShieldHp
  {
    if g.fishes[k].hp > 0.0 {
      ReplaceFish(g, k, AddSlow(g.fishes[k], s));
    } else {
      assert AddSlow(g.fishes[k], s) == g.fishes[k];
      assert g.fishes == g.fishes[k := g.fishes[k]];
    }
  }

  /** A caught fish takes the hit at `factor` and, when `pulse` holds, the
      splash slow if it survives. */
  method SplashCaught(g: Game, k: nat, b: Bullet, factor: real, pulse: bool) returns (ghost roll: real)
    requires g.Valid() && k < |g.fishes| && g.fishes[k].hp > 0.0
    requires pulse ==> b.slow.Some?
    modifies g`fishes, g`nextFishId, g`kills, g`gold, g`bossKills
    ensures g.Valid() && Bystanders(old(g.fishes), g.fishes, k)
    ensures HitOn(old(g.fishes[k]), g.fishes[k], b, factor, CritFactor(b, roll))
    ensures g.Counters() == Paid(old(g.Counters()), Fallen(old(g.fishes[k]), g.fishes[k]))
  {
    roll := LandHit(g, k, b, factor);
    if pulse {
      ghost var h := g.fishes;
      SplashSlow(g, k, SplashPulse(b.slow.value));
      assert Bystanders(h, g.fishes, k);
    }
  }

  /** One turn of the splash loop: a caught fish takes the hit at the falloff
      factor and, inside the pulse radius of a slowing bullet, the splash
      slow if it survives. A fish not caught is left alone. */
  method SplashOne(g: Game, c: nat, k: nat, b: Bullet) returns (ghost roll: real)
    requires g.Valid() && c < |g.fishes| && k < |g.fishes|
    modifies g`fishes, g`nextFishId, g`kills, g`gold, g`bossKills
    ensures g.Valid() && Bystanders(old(g.fishes), g.fishes, k)
    ensures !Splashed(g.hypot, old(g.fishes), c, b, k) ==> g.fishes == old(g.fishes)
    ensures Splashed(g.hypot, old(g.fishes), c, b, k) ==>
      var f := old(g.fishes[k]);
      var factor := SplashFactor(b.splashRatio, Distance(g.hypot, f.pos, old(g.fishes[c]).pos), b.splashRadius);
      HitOn(f, g.fishes[k], b, factor, CritFactor(b, roll))
    ensures g.Counters() == Paid(old(g.Counters()), Fallen(old(g.fishes[k]), g.fishes[k]))
  {
    roll := 0.0;
    if !(b.splashRadius > 0.0) || k == c || g.fishes[k].hp <= 0.0 {
      return;
    }
    var d := Distance(g.hypot, g.fishes[k].pos, g.fishes[c].pos);
    if d > b.splashRadius {
      return;
    }
    var pulse := b.slowPulseRadius != 0.0 && d <= b.slowPulseRadius && b.slow.Some?;
    roll := SplashCaught(g, k, b, SplashFactor(b.splashRatio, d, b.splashRadius), pulse);
  }

  /** What a splash around fish `c` did to the other fish of `before`, now
      `after`: each caught fish took the hit at the falloff factor of its
      distance from `c`, with its own crit roll; the others kept their hp
      and shield. */
  ghost predicate SplashOutcome(hypot: (real, real) -> real, before: seq<Fish>, c: nat, b: Bullet,
                                after: seq<Fish>, rolls: seq<real>)
    requires c < |before|
  {
    |before| <= |rolls| && |before| <= |after| &&
    forall k :: 0 <= k < |before| && k != c ==>
      if Splashed(hypot, before, c, b, k) then
        HitOn(before[k], after[k], b,
              SplashFactor(b.splashRatio, Distance(hypot, before[k].pos, before[c].pos), b.splashRadius),
              CritFactor(b, rolls[k]))
      else after[k].hp == before[k].hp && after[k].bossShieldHp == before[k].bossShieldHp
  }

  /** The splash loop has visited the first `k` fish of `f0` and the list is
      now `cur`: the visited fish are as `SplashOutcome` says, the others are
      as they were apart from slows. */
  ghost predicate SplashSoFar(hypot: (real, real) -> real, f0: seq<Fish>, c: nat, b: Bullet, k: nat,
                              cur: seq<Fish>, rolls: seq<real>)
    requires c < |f0| && k <= |f0|
  {
    Kin(f0, cur) && |rolls| == k &&
    (forall j :: k <= j < |f0| ==> cur[j] == f0[j].(slowEffects := cur[j].slowEffects)) &&
    (forall j :: 0 <= j < k && j != c ==>
      if Splashed(hypot, f0, c, b, j) then
        HitOn(f0[j], cur[j], b, SplashFactor(b.splashRatio, Distance(hypot, f0[j].pos, f0[c].pos), b.splashRadius),
              CritFactor(b, rolls[j]))
      else cur[j].hp == f0[j].hp && cur[j].bossShieldHp == f0[j].bossShieldHp) &&
    (c < k ==> cur[c].hp == f0[c].hp && cur[c].bossShieldHp == f0[c].bossShieldHp)
  }

  /** One turn of the splash loop, fish `k`, extends `SplashSoFar` by one fish. */
  lemma SplashCarry(hypot: (real, real) -> real, f0: seq<Fish>, c: nat, b: Bullet, k: nat,
                    h: seq<Fish>, after: seq<Fish>, rolls: seq<real>, roll: real)
    requires c < |f0| && k < |f0| && SplashSoFar(hypot, f0, c, b, k, h, rolls)
    requires Bystanders(h, after, k)
    requires !Splashed(hypot, h, c, b, k) ==> after == h
    requires Splashed(hypot, h, c, b, k) ==>
      HitOn(h[k], after[k], b, SplashFactor(b.splashRatio, Distance(hypot, h[k].pos, h[c].pos), b.splashRadius),
            CritFactor(b, roll))
    ensures SplashSoFar(hypot, f0, c, b, k + 1, after, rolls + [roll])
  {
    assert Splashed(hypot, h, c, b, k) == Splashed(hypot, f0, c, b, k);
    if Splashed(hypot, h, c, b, k) {
      HitOnSlowOnly(f0[k], h[k], after[k], b,
                    SplashFactor(b.splashRatio, Distance(hypot, f0[k].pos, f0[c].pos), b.splashRadius), CritFactor(b, roll));
    }
    var r := rolls + [roll];
    assert forall j :: 0 <= j < k ==> r[j] == rolls[j];
  }

  /** One turn of the splash loop, fish `k`, carries the ledger: the fish of
      the first `k + 1` that fell are paid for. */
  lemma FallCarry(c0: Tally, f0: seq<Fish>, k: nat, h: seq<Fish>, after: seq<Fish>, t: Tally, t2: Tally)
    requires k < |f0| <= |h| <= |after| && Alike(h[k], f0[k])
    requires forall j :: 0 <= j < k ==> after[j].hp == h[j].hp
    requires t == Paid(c0, FellIn(f0, h, 0, k)) && t2 == Paid(t, Fallen(h[k], after[k]))
    ensures t2 == Paid(c0, FellIn(f0, after, 0, k + 1))
  {
    FellAlike(f0, f0, h, after, 0, k);
    CostAppend(FellIn(f0, after, 0, k), Fallen(f0[k], after[k]));
    CostFallen(f0[k], after[k]);
    CostFallen(h[k], after[k]);
  }

  /** The splash loop has visited the first `k` fish of `f0`, leaving the
      game as `SplashSoFar` says, and has paid for the visited fish that fell. */
  ghost predicate SplashAt(g: Game, f0: seq<Fish>, c: nat, b: Bullet, k: nat, rolls: seq<real>, c0: Tally)
    reads g
  {
    g.Valid() && c < |f0| && k <= |f0| && SplashSoFar(g.hypot, f0, c, b, k, g.fishes, rolls) &&
    g.Counters() == Paid(c0, FellIn(f0, g.fishes, 0, k))
  }

  /** One turn of the splash loop, fish `k`, carries `SplashAt`. */
  method SplashVisit(g: Game, ghost f0: seq<Fish>, c: nat, k: nat, b: Bullet, ghost rolls: seq<real>, ghost c0: Tally)
    returns (ghost roll: real)
    requires SplashAt(g, f0, c, b, k, rolls, c0) && k < |f0|
    modifies g`fishes, g`nextFishId, g`kills, g`gold, g`bossKills
    ensures SplashAt(g, f0, c, b, k + 1, rolls + [roll], c0)
  {
    ghost var h, t := g.fishes, g.Counters();
    roll := SplashOne(g, c, k, b);
    SplashCarry(g.hypot, f0, c, b, k, h, g.fishes, rolls, roll);
    FallCarry(c0, f0, k, h, g.fishes, t, g.Counters());
  }

  /** The loop of `applySplashDamage` over the fish present when it starts. */
  method SplashLoop(g: Game, c: nat, b: Bullet, ghost f0: seq<Fish>, ghost c0: Tally) returns (ghost rolls: seq<real>)
    requires g.Valid() && c < |g.fishes| && g.fishes == f0 && g.Counters() == c0
    modifies g`fishes, g`nextFishId, g`kills, g`gold, g`bossKills
    ensures SplashAt(g, f0, c, b, |f0|, rolls, c0)
  {
    rolls := [];
    PaidNone(c0);
    for k := 0 to |g.fishes|
      invariant SplashAt(g, f0, c, b, k, rolls, c0)
    {
      ghost var roll := SplashVisit(g, f0, c, k, b, rolls, c0);
      rolls := rolls + [roll];
    }
  }

  /** `applySplashDamage` around fish `c`, over the fish present when it
      starts: every caught fish takes the splash hit (`SplashOutcome`), the
      centre fish and the fish out of reach keep their hp and shield, and
      with no splash radius nothing happens at all. */
  method ApplySplashDamage(g: Game, c: nat, b: Bullet) returns (ghost rolls: seq<real>)
    requires g.Valid() && c < |g.fishes|
    modifies g`fishes, g`nextFishId, g`kills, g`gold, g`bossKills
    ensures g.Valid() && Kin(old(g.fishes), g.fishes)
    ensures !(b.splashRadius > 0.0) ==> g.fishes == old(g.fishes)
    ensures SplashOutcome(g.hypot, old(g.fishes), c, b, g.fishes, rolls)
    ensures g.fishes[c].hp == old(g.fishes[c]).hp && g.fishes[c].bossShieldHp == old(g.fishes[c]).bossShieldHp
    ensures g.Counters() == Paid(old(g.Counters()), Fell(old(g.fishes), g.fishes))
  {
    ghost var f0 := g.fishes;
    var n := |g.fishes|;
    rolls := seq(n, _ => 0.0);
    if !(b.splashRadius > 0.0) {
      FellNone(f0, f0, 0, n);
      return;
    }
    rolls := SplashLoop(g, c, b, f0, g.Counters());
  }

  // ===== bullets ===============================================================

  /** The index of the fish with id `id`, if it is still in the list. */
  function FindFish(fishes: seq<Fish>, id: nat): (r: Option<nat>)
    ensures r.Some? ==> r.value < |fishes| && fishes[r.value].id == id &&
                        forall j :: 0 <= j < r.value ==> fishes[j].id != id
    ensures r.None? ==> forall j :: 0 <= j < |fishes| ==> fishes[j].id != id
  {
    if fishes == [] then None
    else if fishes[|fishes| - 1].id == id && FindFish(fishes[..|fishes| - 1], id).None? then Some(|fishes| - 1)
    else FindFish(fishes[..|fishes| - 1], id)
  }

  /** The live, not yet leaked fish a bullet is flying at, if any. */
  function LiveTarget(fishes: seq<Fish>, b: Bullet): (r: Option<nat>)
    ensures r.Some? ==> r.value < |fishes| && fishes[r.value].id == b.targetId &&
                        fishes[r.value].hp > 0.0 && !fishes[r.value].reachedEnd &&
                        forall i :: 0 <= i < r.value ==> fishes[i].id != b.targetId
    ensures forall j ::
      (0 <= j < |fishes| && fishes[j].id == b.targetId && (forall i :: 0 <= i < j ==> fishes[i].id != b.targetId) &&
       fishes[j].hp > 0.0 && !fishes[j].reachedEnd) ==> r == Some(j)
  {
    var t := FindFish(fishes, b.targetId);
    if t.Some? && fishes[t.value].hp > 0.0 && !fishes[t.value].reachedEnd then t else None
  }

  /** A bullet lands when its target is at most `max(6, speed * dt)` away. */
  predicate Lands(hypot: (real, real) -> real, target: Fish, b: Bullet, dt: real) {
    Distance(hypot, target.pos, b.pos) <= Max(6.0, b.speed * dt)
  }

  /** What becomes of a bullet this tick, given the fish list when its turn
      comes: gone when its target is gone, dead or leaked, gone when it
      lands, otherwise moved `speed * dt` straight towards the target. Only
      the position of a surviving bullet changes. */
  function BulletFate(hypot: (real, real) -> real, fishes: seq<Fish>, b: Bullet, dt: real): (r: Option<Bullet>)
    ensures r.Some? ==> r.value == b.(pos := r.value.pos)
    ensures r.Some? <==> LiveTarget(fishes, b).Some? && !Lands(hypot, fishes[LiveTarget(fishes, b).value], b, dt)
  {
    var t := LiveTarget(fishes, b);
    if t.None? then None
    else
      var target := fishes[t.value];
      var dist := Distance(hypot, target.pos, b.pos);
      var step := b.speed * dt;
      if dist <= Max(6.0, step) then None
      else Some(b.(pos := Point(b.pos.x + (target.pos.x - b.pos.x) / dist * step,
                                b.pos.y + (target.pos.y - b.pos.y) / dist * step)))
  }

  /** What bullet `b`'s turn did to the fish list `before`, now `after`: a
      bullet that does not land touches nothing; a landing bullet hits its
      target at factor 1 with crit roll `roll` and splashes the fish around
      it, each with its own roll from `rolls`. */
  ghost predicate BulletOutcome(hypot: (real, real) -> real, before: seq<Fish>, b: Bullet, dt: real,
                                after: seq<Fish>, roll: real, rolls: seq<real>)
  {
    Kin(before, after) &&
    var t := LiveTarget(before, b);
    if t.None? || !Lands(hypot, before[t.value], b, dt) then after == before
    else HitOn(before[t.value], after[t.value], b, 1.0, CritFactor(b, roll)) &&
         SplashOutcome(hypot, before, t.value, b, after, rolls)
  }

  /** A splash seen from before the hit on its centre: the hit changed no
      other fish but for slows, so the splash outcome is the same. */
  lemma SplashFrom(hypot: (real, real) -> real, f0: seq<Fish>, f1: seq<Fish>, after: seq<Fish>, c: nat, b: Bullet,
                   rolls: seq<real>)
    requires c < |f0| && Bystanders(f0, f1, c) && SplashOutcome(hypot, f1, c, b, after, rolls)
    ensures SplashOutcome(hypot, f0, c, b, after, rolls)
  {
    forall k | 0 <= k < |f0| && k != c && Splashed(hypot, f0, c, b, k)
      ensures HitOn(f0[k], after[k], b,
                    SplashFactor(b.splashRatio, Distance(hypot, f0[k].pos, f0[c].pos), b.splashRadius),
                    CritFactor(b, rolls[k]))
    {
      assert Splashed(hypot, f1, c, b, k);
      HitOnSlowOnly(f0[k], f1[k], after[k], b,
                    SplashFactor(b.splashRatio, Distance(hypot, f0[k].pos, f0[c].pos), b.splashRadius), CritFactor(b, rolls[k]));
    }
    forall k | 0 <= k < |f0| && k != c && !Splashed(hypot, f0, c, b, k)
      ensures after[k].hp == f0[k].hp && after[k].bossShieldHp == f0[k].bossShieldHp
    {
      assert !Splashed(hypot, f1, c, b, k);
    }
  }

  /** One turn of `updateBullets`: a landing bullet hits its target with
      factor 1 and then splashes around it (`BulletOutcome`); the bullet's
      fate is returned. */
  method BulletStep(g: Game, b: Bullet, dt: real)
    returns (fate: Option<Bullet>, ghost roll: real, ghost rolls: seq<real>, ghost dead: seq<Fish>)
    requires g.Valid()
    modifies g`fishes, g`nextFishId, g`kills, g`gold, g`bossKills
    ensures g.Valid() && Kin(old(g.fishes), g.fishes)
    ensures BulletTurn(g.hypot, old(g.fishes), b, dt, g.fishes, fate, roll, rolls, dead)
    ensures g.Counters() == Paid(old(g.Counters()), dead)
  {
    fate := BulletFate(g.hypot, g.fishes, b, dt);
    roll, rolls, dead := 0.0, [], [];
    ghost var f0, c0 := g.fishes, g.Counters();
    var t := LiveTarget(g.fishes, b);
    if t.None? || !Lands(g.hypot, g.fishes[t.value], b, dt) {
      FellNone(f0, f0, 0, |f0|);
      PaidNone(c0);
      return;
    }
    var i := t.value;
    roll := LandHit(g, i, b, 1.0);
    ghost var f1 := g.fishes;
    rolls := ApplySplashDamage(g, i, b);
    SplashFrom(g.hypot, f0, f1, g.fishes, i, b, rolls);
    TwoBlows(c0, f0, f1, g.fishes, i);
    TwoBlowsToll(f0, f1, g.fishes);
    dead := Fell(f0, g.fishes) + FellIn(f1, g.fishes, |f0|, |f1|);
  }

  /** The bullets that survive, in order. */
  function Survivors(fates: seq<Option<Bullet>>): (r: seq<Bullet>)
    ensures |r| <= |fates|
    ensures forall x :: x in r <==> Some(x) in fates
  {
    if fates == [] then []
    else
      var front := fates[..|fates| - 1];
      assert fates == front + [fates[|fates| - 1]];
      Survivors(front) + (if fates[|fates| - 1].Some? then [fates[|fates| - 1].value] else [])
  }

  /** Bullet `j` met the fish list `lists[j]`, its fate was `fates[j]`, and
      its turn took `lists[j]` to `lists[j + 1]` as `BulletOutcome` says, with
      the crit rolls `crits[j]` and `splashRolls[j]`, paying for the fish
      `deads[j]`. */
  ghost predicate AllFates(hypot: (real, real) -> real, lists: seq<seq<Fish>>, bs: seq<Bullet>, dt: real,
                           fates: seq<Option<Bullet>>, crits: seq<real>, splashRolls: seq<seq<real>>,
                           deads: seq<seq<Fish>>)
  {
    |lists| == |fates| + 1 && |fates| <= |bs| && |crits| == |fates| && |splashRolls| == |fates| &&
    |deads| == |fates| &&
    forall j :: 0 <= j < |fates| ==>
      BulletTurn(hypot, lists[j], bs[j], dt, lists[j + 1], fates[j], crits[j], splashRolls[j], deads[j])
  }

  /** Bullet `b` met the fish list `before`, its fate was `fate`, its turn
      left `after` as `BulletOutcome` says, and it paid for the fish `dead`. */
  ghost predicate BulletTurn(hypot: (real, real) -> real, before: seq<Fish>, b: Bullet, dt: real, after: seq<Fish>,
                             fate: Option<Bullet>, crit: real, rolls: seq<real>, dead: seq<Fish>)
  {
    fate == BulletFate(hypot, before, b, dt) && BulletOutcome(hypot, before, b, dt, after, crit, rolls) &&
    Toll(before, after, dead)
  }

  lemma AllFatesSnoc(hypot: (real, real) -> real, lists: seq<seq<Fish>>, bs: seq<Bullet>, dt: real,
                     fates: seq<Option<Bullet>>, crits: seq<real>, splashRolls: seq<seq<real>>, deads: seq<seq<Fish>>,
                     l: seq<Fish>, f: Option<Bullet>, crit: real, rolls: seq<real>, dead: seq<Fish>)
    requires AllFates(hypot, lists, bs, dt, fates, crits, splashRolls, deads) && |fates| < |bs|
    requires BulletTurn(hypot, lists[|fates|], bs[|fates|], dt, l, f, crit, rolls, dead)
    ensures AllFates(hypot, lists + [l], bs, dt, fates + [f], crits + [crit], splashRolls + [rolls], deads + [dead])
  {
  }

  /** The bullet loop after `i` bullets, started on fish list `f0` with
      counters `c0`: `AllFates` for the bullets so far, the fish list now
      (`fishes`) is the last of `lists`, the survivors so far are `alive`,
      and the counters now (`counters`) have paid for the fish of `deads`,
      bullet by bullet. */
  ghost predicate PassState(hypot: (real, real) -> real, f0: seq<Fish>, c0: Tally, bs: seq<Bullet>, dt: real, i: nat,
                            alive: seq<Bullet>, lists: seq<seq<Fish>>, fates: seq<Option<Bullet>>,
                            crits: seq<real>, splashRolls: seq<seq<real>>, deads: seq<seq<Fish>>,
                            fishes: seq<Fish>, counters: Tally)
  {
    Kin(f0, fishes) && |fates| == i && AllFates(hypot, lists, bs, dt, fates, crits, splashRolls, deads) &&
    lists[0] == f0 && lists[i] == fishes && alive == Survivors(fates) && counters == Paid(c0, Flatten(deads))
  }

  /** One bullet's turn carries `PassState` from `i` to `i + 1`. */
  lemma PassStep(hypot: (real, real) -> real, f0: seq<Fish>, c0: Tally, bs: seq<Bullet>, dt: real, i: nat,
                 alive: seq<Bullet>, lists: seq<seq<Fish>>, fates: seq<Option<Bullet>>,
                 crits: seq<real>, splashRolls: seq<seq<real>>, deads: seq<seq<Fish>>,
                 fishes: seq<Fish>, counters: Tally,
                 fate: Option<Bullet>, crit: real, rolls: seq<real>, dead: seq<Fish>, fishes2: seq<Fish>)
    requires i < |bs| && PassState(hypot, f0, c0, bs, dt, i, alive, lists, fates, crits, splashRolls, deads, fishes, counters)
    requires Kin(fishes, fishes2) && BulletTurn(hypot, fishes, bs[i], dt, fishes2, fate, crit, rolls, dead)
    ensures PassState(hypot, f0, c0, bs, dt, i + 1, if fate.Some? then alive + [fate.value] else alive,
                      lists + [fishes2], fates + [fate], crits + [crit], splashRolls + [rolls], deads + [dead],
                      fishes2, Paid(counters, dead))
  {
    KinTrans(f0, fishes, fishes2);
    AllFatesSnoc(hypot, lists, bs, dt, fates, crits, splashRolls, deads, fishes2, fate, crit, rolls, dead);
    FlattenSnoc(deads, dead);
    PaidAppend(c0, Flatten(deads), dead);
    assert (fates + [fate])[..i] == fates;
  }

  /** The bullet loop of `updateBullets` over the bullets present when it
      starts: bullet `j` meets the fish list `lists[j]` left by the bullets
      before it and leaves `lists[j + 1]`, the survivors are collected in
      order, and the kill counters pay for the fish of `deads`. */
  method BulletPass(g: Game, bs: seq<Bullet>, dt: real, ghost f0: seq<Fish>, ghost c0: Tally)
    returns (alive: seq<Bullet>, ghost lists: seq<seq<Fish>>, ghost fates: seq<Option<Bullet>>,
             ghost crits: seq<real>, ghost splashRolls: seq<seq<real>>, ghost deads: seq<seq<Fish>>)
    requires g.Valid() && g.fishes == f0 && g.Counters() == c0
    modifies g`fishes, g`nextFishId, g`kills, g`gold, g`bossKills
    ensures g.Valid()
    ensures PassState(g.hypot, f0, c0, bs, dt, |bs|, alive, lists, fates, crits, splashRolls, deads, g.fishes, g.Counters())
  {
    alive, lists, fates, crits, splashRolls, deads := [], [g.fishes], [], [], [], [];
    PaidNone(c0);
    for i := 0 to |bs|
      invariant g.Valid()
      invariant PassState(g.hypot, f0, c0, bs, dt, i, alive, lists, fates, crits, splashRolls, deads, g.fishes, g.Counters())
    {
      ghost var before, paid := g.fishes, g.Counters();
      var fate, crit, rolls, dead := BulletStep(g, bs[i], dt);
      PassStep(g.hypot, f0, c0, bs, dt, i, alive, lists, fates, crits, splashRolls, deads, before, paid,
               fate, crit, rolls, dead, g.fishes);
      lists, fates, crits, splashRolls, deads := lists + [g.fishes], fates + [fate], crits + [crit], splashRolls + [rolls], deads + [dead];
      if fate.Some? {
        alive := alive + [fate.value];
      }
    }
  }

  /** `updateBullets`: every bullet present at the start takes its turn
      against the fish as the bullets before it left them, and the
      survivors, moved, become the new bullet list. */
  method UpdateBullets(g: Game, dt: real)
    returns (ghost lists: seq<seq<Fish>>, ghost fates: seq<Option<Bullet>>,
             ghost crits: seq<real>, ghost splashRolls: seq<seq<real>>, ghost deads: seq<seq<Fish>>)
    requires g.Valid()
    modifies g`bullets, g`fishes, g`nextFishId, g`kills, g`gold, g`bossKills
    ensures g.Valid() && Kin(old(g.fishes), g.fishes)
    ensures |fates| == |old(g.bullets)| && AllFates(g.hypot, lists, old(g.bullets), dt, fates, crits, splashRolls, deads)
    ensures lists[0] == old(g.fishes) && lists[|fates|] == g.fishes
    ensures g.bullets == Survivors(fates)
    ensures g.Counters() == Paid(old(g.Counters()), Flatten(deads))
    ensures g.Record() == old(g.Record())
  {
    var alive;
    alive, lists, fates, crits, splashRolls, deads := BulletPass(g, g.bullets, dt, g.fishes, g.Counters());
    g.bullets := alive;
  }

  // ===== the fish tick =========================================================

  /** Status effects one tick later: every duration shortened by `dt`, and
      the ones that ran out dropped, in order. */
  function Decay(es: seq<Timed>, dt: real): (r: seq<Timed>)
    ensures |r| <= |es|
    ensures forall k :: 0 <= k < |r| ==> r[k].duration > 0.0
  {
    if es == [] then []
    else
      var e := es[|es| - 1];
      Decay(es[..|es| - 1], dt) + (if e.duration - dt > 0.0 then [e.(duration := e.duration - dt)] else [])
  }

  /** An effect survives the tick, shortened by `dt`, exactly when it had more
      than `dt` left; nothing else is in the decayed list. */
  lemma {:induction false} DecayMembers(es: seq<Timed>, dt: real, x: Timed)
    ensures x in Decay(es, dt) <==> exists e :: e in es && e.duration - dt > 0.0 && x == e.(duration := e.duration - dt)
  {
    if es != [] {
      var init, e := es[..|es| - 1], es[|es| - 1];
      DecayMembers(init, dt, x);
      assert es == init + [e];
      var tail := if e.duration - dt > 0.0 then [e.(duration := e.duration - dt)] else [];
      assert Decay(es, dt) == Decay(init, dt) + tail;
      if x in Decay(es, dt) && x !in Decay(init, dt) {
        assert x in tail && e in es;
      }
      if w :| w in es && w.duration - dt > 0.0 && x == w.(duration := w.duration - dt) {
        if w != e {
          assert w in init;
        }
      }
    }
  }

  /** The burn of one tick: `dps * dt` summed over every burn the fish
      carried before the tick. */
  function BurnTotal(es: seq<BurnEffect>, dt: real): real {
    if es == [] then 0.0 else BurnTotal(es[..|es| - 1], dt) + es[|es| - 1].strength * dt
  }

  /** Non-negative burns over a non-negative tick never heal. */
  lemma {:induction false} BurnTotalNonNegative(es: seq<BurnEffect>, dt: real)
    requires dt >= 0.0 && forall k :: 0 <= k < |es| ==> es[k].strength >= 0.0
    ensures BurnTotal(es, dt) >= 0.0
  {
    if es != [] {
      BurnTotalNonNegative(es[..|es| - 1], dt);
      assert es[|es| - 1].strength * dt >= 0.0;
    }
  }

  /** The speed factor of a fish's slows: the strongest (smallest) multiplier,
      or 1 without slows. */
  function SlowFactor(slows: seq<SlowEffect>): (m: real)
    ensures slows == [] ==> m == 1.0
    ensures slows != [] ==> (forall k :: 0 <= k < |slows| ==> m <= slows[k].strength) &&
                            exists k :: 0 <= k < |slows| && m == slows[k].strength
  {
    if slows == [] then 1.0
    else if |slows| == 1 then slows[0].strength
    else
      var m := SlowFactor(slows[..|slows| - 1]);
      assert forall k :: 0 <= k < |slows| - 1 ==> slows[..|slows| - 1][k] == slows[k];
      Min(m, slows[|slows| - 1].strength)
  }

  /** The fish after its effects tick down. */
  function Decayed(f: Fish, dt: real): Fish {
    f.(slowEffects := Decay(f.slowEffects, dt), armorBreakEffects := Decay(f.armorBreakEffects, dt),
       burnEffects := Decay(f.burnEffects, dt))
  }

  /** The burn lands: it is positive and no boss shield is up. */
  predicate BurnHits(f: Fish, dt: real) {
    BurnTotal(f.burnEffects, dt) > 0.0 && f.bossShieldHp <= 0.0
  }

  /** The fish after its effects tick down and its burn lands, if it does. */
  function Burnt(f: Fish, dt: real): (r: Fish)
    ensures r.id == f.id && r.bossSummonPacks == f.bossSummonPacks && r.bossShieldHp == f.bossShieldHp
    ensures r.hp == (if BurnHits(f, dt) then f.hp - BurnTotal(f.burnEffects, dt) else f.hp)
    ensures r.slowEffects == Decay(f.slowEffects, dt) && r.burnEffects == Decay(f.burnEffects, dt) &&
            r.armorBreakEffects == Decay(f.armorBreakEffects, dt)
  {
    var d := Decayed(f, dt);
    if BurnHits(f, dt) then d.(hp := d.hp - BurnTotal(f.burnEffects, dt)) else d
  }

  /** The fish after its acceleration skill is checked: a fish not yet
      accelerated whose hp ratio has reached the trigger switches to
      `baseSpeed * multiplier`, once. */
  function Accelerated(f: Fish): (r: Fish)
    ensures r == f || (!f.isAccelerated && r == f.(isAccelerated := true, speed := r.speed))
  {
    if f.accelerationSkill.Some? && !f.isAccelerated &&
       RatioAtMost(f.hp, f.maxHp, f.accelerationSkill.value.triggerHpRatio)
    then f.(isAccelerated := true, speed := f.baseSpeed * f.accelerationSkill.value.multiplier)
    else f
  }

  /** Acceleration fires at most once: checking again changes nothing. */
  lemma AccelerationOnce(f: Fish)
    ensures Accelerated(Accelerated(f)) == Accelerated(f)
  {
  }

  /** The fish stands on the last path point (or past it) and leaks. */
  predicate Leaks(pathPoints: seq<Point>, f: Fish) {
    f.pathIndex + 1 >= |pathPoints|
  }

  /** The fish after its move: accelerated if due, then either marked as
      leaked at the end of the path, or moved `speed * slow * dt` towards the
      next path point, landing on it (and advancing the path index) when the
      step reaches it. A zero distance that the step does not reach leaves
      the fish where it is. */
  function Advanced(hypot: (real, real) -> real, pathPoints: seq<Point>, f: Fish, dt: real): (r: Fish)
    ensures r.id == f.id && r.hp == f.hp && r.bossShieldHp == f.bossShieldHp && r.bossSummonPacks == f.bossSummonPacks
    ensures r.burnEffects == f.burnEffects && r.damage == f.damage
    ensures r.pathIndex == f.pathIndex ||
            (r.pathIndex == f.pathIndex + 1 && r.pathIndex < |pathPoints| && r.pos == pathPoints[r.pathIndex])
    ensures Leaks(pathPoints, f) ==> r.reachedEnd && r.pathIndex == f.pathIndex && r.pos == f.pos
    ensures !Leaks(pathPoints, f) ==> r.reachedEnd == f.reachedEnd
  {
    var a := Accelerated(f);
    var next := a.pathIndex + 1;
    if next >= |pathPoints| then a.(reachedEnd := true)
    else
      var target := pathPoints[next];
      var dist := Distance(hypot, target, a.pos);
      var step := a.speed * SlowFactor(a.slowEffects) * dt;
      if dist <= step then a.(pos := target, pathIndex := next)
      else if dist == 0.0 then a
      else a.(pos := Point(a.pos.x + (target.x - a.pos.x) / dist * step, a.pos.y + (target.y - a.pos.y) / dist * step))
  }

  /** `after` differs from `before` only at fish `i`, apart from new fish
      appended, which carry no burns. */
  ghost predicate Only(before: seq<Fish>, after: seq<Fish>, i: int) {
    0 <= i < |before| <= |after| &&
    (forall j :: 0 <= j < |before| && j != i ==> after[j] == before[j]) &&
    (forall j :: |before| <= j < |after| ==> after[j].burnEffects == [])
  }

  /** The burn half of a fish's tick took `before` to `after`: the fish's
      effects ticked down and, when its burn lands, the aftermath followed. */
  ghost predicate BurnDone(catalog: map<string, FishTemplate>, pathPoints: seq<Point>, before: seq<Fish>, i: nat,
                           dt: real, id0: nat, mid: seq<Fish>, rounds: seq<seq<Request>>, reqs: seq<Request>,
                           after: seq<Fish>, killed: bool)
  {
    i < |before| && before[i].hp > 0.0 &&
    var b := before[i := Burnt(before[i], dt)];
    if BurnHits(before[i], dt) then AftermathDone(catalog, pathPoints, b, i, id0, mid, rounds, reqs, after, killed)
    else !killed && after == b && rounds == [] && reqs == []
  }

  /** A burn touches only the burning fish, brings in only fresh fish, and
      brings in none unless the fish carried a burn; a fish it does not
      kill still has hp. */
  lemma BurnOutcome(catalog: map<string, FishTemplate>, pathPoints: seq<Point>, before: seq<Fish>, i: nat,
                    dt: real, id0: nat, mid: seq<Fish>, rounds: seq<seq<Request>>, reqs: seq<Request>,
                    after: seq<Fish>, killed: bool)
    requires BurnDone(catalog, pathPoints, before, i, dt, id0, mid, rounds, reqs, after, killed)
    ensures Only(before, after, i)
    ensures |after| > |before| ==> before[i].burnEffects != []
    ensures !killed ==> after[i].hp > 0.0
  {
    var b := before[i := Burnt(before[i], dt)];
    if BurnHits(before[i], dt) {
      var f := b[i];
      if f.isBoss && f.hp > 0.0 {
        SpawnedFresh(catalog, Flatten(rounds), pathPoints, id0);
      }
      if killed && !(mid[i].splitSkill.None? || mid[i].splitSpawned) {
        SpawnedFresh(catalog, reqs, pathPoints, id0 + |Flatten(rounds)|);
      }
    }
  }

  /** The burn half of `updateFishes` for live fish `i`. */
  method BurnStep(g: Game, i: nat, dt: real)
    returns (killed: bool, ghost mid: seq<Fish>, ghost rounds: seq<seq<Request>>, ghost reqs: seq<Request>)
    requires g.Valid() && i < |g.fishes| && g.fishes[i].hp > 0.0
    modifies g`fishes, g`nextFishId, g`kills, g`gold, g`bossKills
    ensures g.Valid()
    ensures BurnDone(g.fishCatalog, g.pathPoints, old(g.fishes), i, dt, old(g.nextFishId), mid, rounds, reqs, g.fishes, killed)
    ensures killed ==> g.kills == old(g.kills) + 1 && g.gold == old(g.gold) + old(g.fishes[i]).reward &&
                       g.bossKills == old(g.bossKills) + (if old(g.fishes[i]).isBoss then 1 else 0)
    ensures !killed ==> g.kills == old(g.kills) && g.gold == old(g.gold) && g.bossKills == old(g.bossKills)
    ensures g.Counters() == Paid(old(g.Counters()), if killed then [old(g.fishes[i])] else [])
  {
    var f := g.fishes[i];
    PaidOne(g.Counters(), f);
    ReplaceFish(g, i, Burnt(f, dt));
    killed, mid, rounds, reqs := false, g.fishes, [], [];
    if BurnHits(f, dt) {
      killed, mid, rounds, reqs := Aftermath(g, i);
    }
  }

  /** The move half of `updateFishes` for fish `i`: a leaking fish costs
      the player its `damage` in lives. */
  method MoveStep(g: Game, i: nat, dt: real) returns (leaked: bool)
    requires g.Valid() && i < |g.fishes|
    modifies g`fishes, g`lives
    ensures g.Valid() && g.fishes == old(g.fishes)[i := Advanced(g.hypot, g.pathPoints, old(g.fishes[i]), dt)]
    ensures leaked == Leaks(g.pathPoints, old(g.fishes[i]))
    ensures g.lives == old(g.lives) - (if leaked then old(g.fishes[i]).damage else 0)
  {
    var f := g.fishes[i];
    ReplaceFish(g, i, Advanced(g.hypot, g.pathPoints, f, dt));
    leaked := Leaks(g.pathPoints, f);
    if leaked {
      g.lives := g.lives - f.damage;
    }
  }

  /** How a fish's turn in `updateFishes` ends. */
  datatype TickFate = Died | Stayed | Leaked

  /** The fish after the first half of its tick: its effects ticked down,
      its burn landed if it does, and, when the burn hurt a live boss, its
      ladders run. The hp is the burnt hp; path and damage are unchanged. */
  function Ticked(f: Fish, dt: real): (r: Fish)
    ensures r.hp == Burnt(f, dt).hp && r.pathIndex == f.pathIndex && r.damage == f.damage
  {
    var b := Burnt(f, dt);
    if BurnHits(f, dt) && b.isBoss && b.hp > 0.0 then Laddered(b) else b
  }

  /** How fish `f`'s turn ends: it is dropped when it is already dead or its
      burn kills it, leaks when it stands on the last path point, and stays
      otherwise. */
  function FateOf(pathPoints: seq<Point>, f: Fish, dt: real): (r: TickFate)
    ensures r.Died? <==> f.hp <= 0.0 || Burnt(f, dt).hp <= 0.0
    ensures r.Leaked? <==> f.hp > 0.0 && Burnt(f, dt).hp > 0.0 && Leaks(pathPoints, f)
  {
    if f.hp <= 0.0 || Burnt(f, dt).hp <= 0.0 then Died
    else if Leaks(pathPoints, f) then Leaked else Stayed
  }

  /** The burn half of a tick kills the fish exactly when its burnt hp is at
      0 or below, and a fish it spares is `Ticked`. */
  lemma TickOutcome(catalog: map<string, FishTemplate>, pathPoints: seq<Point>, before: seq<Fish>, i: nat,
                    dt: real, id0: nat, mid: seq<Fish>, rounds: seq<seq<Request>>, reqs: seq<Request>,
                    after: seq<Fish>, killed: bool)
    requires BurnDone(catalog, pathPoints, before, i, dt, id0, mid, rounds, reqs, after, killed)
    ensures killed <==> Burnt(before[i], dt).hp <= 0.0
    ensures !killed ==> after[i] == Ticked(before[i], dt)
  {
    var b := before[i := Burnt(before[i], dt)];
    assert b[i] == Burnt(before[i], dt);
  }

  /** One fish's turn in `updateFishes`: a dead fish is dropped; otherwise its
      effects tick and its burn lands, a fish the burn kills is dropped,
      and a survivor moves or leaks. `survives` says whether it stays on
      the board; `burnt` is the fish list between the two halves. */
  method FishTick(g: Game, i: nat, dt: real)
    returns (survives: bool, killed: bool, ghost burnt: seq<Fish>, ghost mid: seq<Fish>,
             ghost rounds: seq<seq<Request>>, ghost reqs: seq<Request>)
    requires g.Valid() && i < |g.fishes|
    modifies g`fishes, g`nextFishId, g`kills, g`gold, g`bossKills, g`lives
    ensures g.Valid() && Only(old(g.fishes), g.fishes, i)
    ensures |g.fishes| > |old(g.fishes)| ==> old(g.fishes[i]).burnEffects != []
    ensures survives ==> g.fishes[i].hp > 0.0
    ensures old(g.fishes[i]).hp <= 0.0 ==> !survives && g.fishes == old(g.fishes) && g.lives == old(g.lives)
    ensures g.Counters() == Paid(old(g.Counters()), if old(g.fishes[i]).hp > 0.0 && killed then [old(g.fishes[i])] else [])
    ensures old(g.fishes[i]).hp > 0.0 ==>
      BurnDone(g.fishCatalog, g.pathPoints, old(g.fishes), i, dt, old(g.nextFishId), mid, rounds, reqs, burnt, killed)
    ensures old(g.fishes[i]).hp > 0.0 && killed ==> !survives && g.fishes == burnt && g.lives == old(g.lives)
    ensures old(g.fishes[i]).hp > 0.0 && !killed ==>
      g.fishes == burnt[i := Advanced(g.hypot, g.pathPoints, burnt[i], dt)] &&
      survives == !Leaks(g.pathPoints, burnt[i]) &&
      g.lives == old(g.lives) - (if survives then 0 else burnt[i].damage)
  {
    survives, killed, burnt, mid, rounds, reqs := false, false, g.fishes, g.fishes, [], [];
    if g.fishes[i].hp <= 0.0 {
      return;
    }
    ghost var before, id0 := g.fishes, g.nextFishId;
    killed, mid, rounds, reqs := BurnStep(g, i, dt);
    burnt := g.fishes;
    BurnOutcome(g.fishCatalog, g.pathPoints, before, i, dt, id0, mid, rounds, reqs, burnt, killed);
    if killed {
      return;
    }
    var leaked := MoveStep(g, i, dt);
    survives := !leaked;
  }

  /** `FishTick` as the fish loop needs it: the turn ends as `FateOf` says,
      a fish that is not dropped is its `Ticked` self moved along the path,
      a leak costs the fish's damage in lives, and only fish `i` changed,
      apart from fresh fish appended after a burn. */
  method FishTurn(g: Game, i: nat, dt: real) returns (fate: TickFate)
    requires g.Valid() && i < |g.fishes|
    modifies g`fishes, g`nextFishId, g`kills, g`gold, g`bossKills, g`lives
    ensures g.Valid() && Only(old(g.fishes), g.fishes, i)
    ensures |g.fishes| > |old(g.fishes)| ==> old(g.fishes[i]).burnEffects != []
    ensures fate == FateOf(g.pathPoints, old(g.fishes[i]), dt)
    ensures !fate.Died? ==> g.fishes[i] == Advanced(g.hypot, g.pathPoints, Ticked(old(g.fishes[i]), dt), dt)
    ensures fate.Stayed? ==> g.fishes[i].hp > 0.0
    ensures g.lives == old(g.lives) - (if fate.Leaked? then old(g.fishes[i]).damage else 0)
    ensures g.Counters() == Paid(old(g.Counters()), Casualty(old(g.fishes[i]), fate))
  {
    ghost var before, id0 := g.fishes, g.nextFishId;
    var alive := g.fishes[i].hp > 0.0;
    var survives, killed;
    ghost var burnt, mid, rounds, reqs;
    survives, killed, burnt, mid, rounds, reqs := FishTick(g, i, dt);
    if alive {
      TickOutcome(g.fishCatalog, g.pathPoints, before, i, dt, id0, mid, rounds, reqs, burnt, killed);
    }
    fate := if !alive || killed then Died else if survives then Stayed else Leaked;
  }

  /** The fish a turn pays for: the fish itself when it was alive and its
      turn ends in `Died`, that is, when its burn killed it. */
  function Casualty(f: Fish, fate: TickFate): seq<Fish> {
    if fate.Died? && f.hp > 0.0 then [f] else []
  }

  /** The fish the fish loop pays for, in turn order. */
  function Casualties(turns: seq<Fish>, fates: seq<TickFate>): (r: seq<Fish>)
    requires |turns| == |fates|
    ensures |r| <= |turns|
  {
    if turns == [] then []
    else Casualties(turns[..|turns| - 1], fates[..|fates| - 1]) + Casualty(turns[|turns| - 1], fates[|fates| - 1])
  }

  /** Every fish the fish loop pays for was alive when its turn came and
      its burn took it to 0 hp or below. */
  lemma {:induction false} CasualtiesBurnt(pathPoints: seq<Point>, turns: seq<Fish>, fates: seq<TickFate>, dt: real)
    requires |turns| == |fates| && forall j :: 0 <= j < |turns| ==> fates[j] == FateOf(pathPoints, turns[j], dt)
    ensures forall f :: f in Casualties(turns, fates) ==> f.hp > 0.0 && Burnt(f, dt).hp <= 0.0
  {
    if turns != [] {
      var n := |turns| - 1;
      CasualtiesBurnt(pathPoints, turns[..n], fates[..n], dt);
    }
  }

  /** What the fish loop has cost after its turns `turns`: the damage of
      the fish that leaked in lives, and the fish its burns killed in the
      kill counters. */
  ghost predicate Tolled(lives0: int, c0: Tally, lives: int, c: Tally, turns: seq<Fish>, fates: seq<TickFate>) {
    |turns| == |fates| && lives == lives0 - Damages(Leakers(turns, fates)) && c == Paid(c0, Casualties(turns, fates))
  }

  /** One more turn carries `Tolled`. */
  lemma TollCarry(lives0: int, c0: Tally, lives: int, c: Tally, turns: seq<Fish>, fates: seq<TickFate>,
                  f: Fish, fate: TickFate, lives2: int, c2: Tally)
    requires Tolled(lives0, c0, lives, c, turns, fates)
    requires lives2 == lives - (if fate.Leaked? then f.damage else 0) && c2 == Paid(c, Casualty(f, fate))
    ensures Tolled(lives0, c0, lives2, c2, turns + [f], fates + [fate])
  {
    LivesSnoc(turns, fates, f, fate);
    CasualtiesSnoc(turns, fates, f, fate);
    PaidAppend(c0, Casualties(turns, fates), Casualty(f, fate));
  }

  lemma CasualtiesSnoc(turns: seq<Fish>, fates: seq<TickFate>, f: Fish, fate: TickFate)
    requires |turns| == |fates|
    ensures Casualties(turns + [f], fates + [fate]) == Casualties(turns, fates) + Casualty(f, fate)
  {
    assert (turns + [f])[..|turns|] == turns && (fates + [fate])[..|fates|] == fates;
  }

  /** How many fish in the list still carry a burn. */
  ghost function Burning(fishes: seq<Fish>): nat {
    if fishes == [] then 0 else (if fishes[0].burnEffects != [] then 1 else 0) + Burning(fishes[1..])
  }

  lemma {:induction false} BurningAppend(a: seq<Fish>, b: seq<Fish>)
    ensures Burning(a + b) == Burning(a) + Burning(b)
  {
    if a != [] {
      assert (a + b)[1..] == a[1..] + b;
      BurningAppend(a[1..], b);
    } else {
      assert a + b == b;
    }
  }

  lemma {:induction false} BurningNone(a: seq<Fish>)
    requires forall j :: 0 <= j < |a| ==> a[j].burnEffects == []
    ensures Burning(a) == 0
  {
    if a != [] {
      BurningNone(a[1..]);
    }
  }

  /** After fish `i`'s turn, either fewer unvisited fish burn, or as many do
      and no fish was added: the live pass over a growing list ends. */
  lemma PassMeasureDrops(before: seq<Fish>, after: seq<Fish>, i: nat)
    requires Only(before, after, i) && (|after| > |before| ==> before[i].burnEffects != [])
    ensures Burning(after[i + 1..]) < Burning(before[i..]) ||
            (Burning(after[i + 1..]) == Burning(before[i..]) && |after| == |before|)
  {
    assert after[i + 1..] == before[i + 1..] + after[|before|..];
    BurningAppend(before[i + 1..], after[|before|..]);
    BurningNone(after[|before|..]);
    assert before[i..][1..] == before[i + 1..];
  }

  /** `kept` is the list of the fish of `fishes` at the increasing indices `idx`. */
  ghost predicate Picks(fishes: seq<Fish>, idx: seq<nat>, kept: seq<Fish>) {
    |idx| == |kept| &&
    (forall j :: 0 <= j < |idx| ==> idx[j] < |fishes| && kept[j] == fishes[idx[j]]) &&
    (forall a, b :: 0 <= a < b < |idx| ==> idx[a] < idx[b])
  }

  lemma PicksKeep(before: seq<Fish>, after: seq<Fish>, idx: seq<nat>, kept: seq<Fish>, i: nat)
    requires Picks(before, idx, kept) && Only(before, after, i)
    requires forall j :: 0 <= j < |idx| ==> idx[j] < i
    ensures Picks(after, idx, kept)
  {
  }

  lemma PicksSnoc(fishes: seq<Fish>, idx: seq<nat>, kept: seq<Fish>, i: nat)
    requires Picks(fishes, idx, kept) && i < |fishes|
    requires forall j :: 0 <= j < |idx| ==> idx[j] < i
    ensures Picks(fishes, idx + [i], kept + [fishes[i]])
  {
  }

  /** A pick of a valid fish list is a valid fish list. */
  lemma PicksOk(fishes: seq<Fish>, idx: seq<nat>, kept: seq<Fish>, bound: nat, catalog: map<string, FishTemplate>)
    requires Picks(fishes, idx, kept) && FishesOk(fishes, bound, catalog)
    ensures FishesOk(kept, bound, catalog)
  {
    forall f | f in kept
      ensures FishSummonsKnown(f, catalog)
    {
      var j :| 0 <= j < |kept| && kept[j] == f;
      assert fishes[idx[j]] in fishes;
    }
  }

  /** The total damage of the fish that leaked. */
  function Damages(leaked: seq<Fish>): int {
    if leaked == [] then 0 else Damages(leaked[..|leaked| - 1]) + leaked[|leaked| - 1].damage
  }

  /** The fish whose turn ended in a leak, in turn order. */
  function Leakers(turns: seq<Fish>, fates: seq<TickFate>): (r: seq<Fish>)
    requires |turns| == |fates|
    ensures |r| <= |turns|
  {
    if turns == [] then []
    else Leakers(turns[..|turns| - 1], fates[..|fates| - 1]) + (if fates[|fates| - 1].Leaked? then [turns[|turns| - 1]] else [])
  }

  /** Every fish the pass charges lives for was alive, survived its burn and
      stood on the last path point. */
  lemma {:induction false} LeakersLeak(pathPoints: seq<Point>, turns: seq<Fish>, fates: seq<TickFate>, dt: real)
    requires |turns| == |fates| && forall j :: 0 <= j < |turns| ==> fates[j] == FateOf(pathPoints, turns[j], dt)
    ensures forall f :: f in Leakers(turns, fates) ==> f.hp > 0.0 && Leaks(pathPoints, f)
  {
    if turns != [] {
      var n := |turns| - 1;
      LeakersLeak(pathPoints, turns[..n], fates[..n], dt);
    }
  }

  /** One more turn adds its fish to the leakers exactly when it leaked. */
  lemma LeakersSnoc(turns: seq<Fish>, fates: seq<TickFate>, f: Fish, fate: TickFate)
    requires |turns| == |fates|
    ensures Leakers(turns + [f], fates + [fate]) == Leakers(turns, fates) + (if fate.Leaked? then [f] else [])
  {
    assert (turns + [f])[..|turns|] == turns && (fates + [fate])[..|fates|] == fates;
  }

  /** One more leaked fish adds its damage to the lives lost. */
  lemma DamagesSnoc(leaked: seq<Fish>, f: Fish)
    ensures Damages(leaked + [f]) == Damages(leaked) + f.damage
  {
    assert (leaked + [f])[..|leaked|] == leaked;
  }

  /** The lives lost after one more turn. */
  lemma LivesSnoc(turns: seq<Fish>, fates: seq<TickFate>, f: Fish, fate: TickFate)
    requires |turns| == |fates|
    ensures Damages(Leakers(turns + [f], fates + [fate])) ==
            Damages(Leakers(turns, fates)) + (if fate.Leaked? then f.damage else 0)
  {
    var l := Leakers(turns, fates);
    LeakersSnoc(turns, fates, f, fate);
    if fate.Leaked? {
      DamagesSnoc(l, f);
    } else {
      assert Leakers(turns + [f], fates + [fate]) == l;
    }
  }

  /** The fish loop after `i` turns: the fish from `i` on that were there
      at the start are untouched, turn `j` met `turns[j]` (the starting fish
      for the first ones) and ended as `fates[j]`, a fish not dropped is its
      ticked self moved on, and `kept` holds, in order, the fish that stayed. */
  ghost predicate PassSoFar(hypot: (real, real) -> real, pathPoints: seq<Point>, f0: seq<Fish>, fishes: seq<Fish>,
                            i: nat, dt: real, idx: seq<nat>, kept: seq<Fish>, turns: seq<Fish>, fates: seq<TickFate>) {
    i <= |fishes| && |f0| <= |fishes| && |turns| == i && |fates| == i &&
    (forall j :: i <= j < |f0| ==> fishes[j] == f0[j]) &&
    (forall j :: 0 <= j < i && j < |f0| ==> turns[j] == f0[j]) &&
    (forall j :: 0 <= j < i ==> fates[j] == FateOf(pathPoints, turns[j], dt)) &&
    (forall j :: 0 <= j < i && !fates[j].Died? ==> fishes[j] == Advanced(hypot, pathPoints, Ticked(turns[j], dt), dt)) &&
    Picks(fishes, idx, kept) && (forall j :: 0 <= j < |idx| ==> idx[j] < i) &&
    (forall j :: 0 <= j < i ==> (fates[j].Stayed? <==> j in idx)) &&
    (forall j :: 0 <= j < |kept| ==> kept[j].hp > 0.0)
  }

  /** One fish turn carries `PassSoFar` from `i` to `i + 1`. */
  lemma PassCarry(hypot: (real, real) -> real, pathPoints: seq<Point>, f0: seq<Fish>, before: seq<Fish>,
                  after: seq<Fish>, i: nat, dt: real, idx: seq<nat>, kept: seq<Fish>, turns: seq<Fish>,
                  fates: seq<TickFate>, fate: TickFate)
    requires PassSoFar(hypot, pathPoints, f0, before, i, dt, idx, kept, turns, fates)
    requires i < |before| && Only(before, after, i) && fate == FateOf(pathPoints, before[i], dt)
    requires !fate.Died? ==> after[i] == Advanced(hypot, pathPoints, Ticked(before[i], dt), dt)
    requires fate.Stayed? ==> after[i].hp > 0.0
    ensures fate.Stayed? ==>
      PassSoFar(hypot, pathPoints, f0, after, i + 1, dt, idx + [i], kept + [after[i]], turns + [before[i]], fates + [fate])
    ensures !fate.Stayed? ==>
      PassSoFar(hypot, pathPoints, f0, after, i + 1, dt, idx, kept, turns + [before[i]], fates + [fate])
  {
    PicksKeep(before, after, idx, kept, i);
    if fate.Stayed? {
      PicksSnoc(after, idx, kept, i);
    }
  }

  /** The fish loop of `updateFishes`, live over the growing list: fish
      appended by a burn death or a boss summon get their turn too. Fish `j`
      meets its turn as `turns[j]` (the fish present at the start are
      untouched until then), its turn ends as `fates[j]`, and the fish that
      stay are collected, in order, as `kept`; the lives lost are the damage
      of the fish that leaked. */
  method FishPass(g: Game, dt: real)
    returns (kept: seq<Fish>, ghost idx: seq<nat>, ghost turns: seq<Fish>, ghost fates: seq<TickFate>)
    requires g.Valid()
    modifies g`fishes, g`nextFishId, g`kills, g`gold, g`bossKills, g`lives
    ensures g.Valid() && |old(g.fishes)| <= |g.fishes| && |turns| == |g.fishes| && |fates| == |g.fishes|
    ensures forall j :: 0 <= j < |old(g.fishes)| ==> turns[j] == old(g.fishes)[j]
    ensures forall j :: 0 <= j < |turns| ==> fates[j] == FateOf(g.pathPoints, turns[j], dt)
    ensures forall j :: 0 <= j < |turns| && !fates[j].Died? ==>
      g.fishes[j] == Advanced(g.hypot, g.pathPoints, Ticked(turns[j], dt), dt)
    ensures Picks(g.fishes, idx, kept) && forall j :: 0 <= j < |fates| ==> (fates[j].Stayed? <==> j in idx)
    ensures FishesOk(kept, g.nextFishId, g.fishCatalog) && forall j :: 0 <= j < |kept| ==> kept[j].hp > 0.0
    ensures Tolled(old(g.lives), old(g.Counters()), g.lives, g.Counters(), turns, fates)
  {
    var i: nat := 0;
    ghost var f0 := g.fishes;
    kept, idx, turns, fates := [], [], [], [];
    while i < |g.fishes|
      invariant g.Valid() && PassSoFar(g.hypot, g.pathPoints, f0, g.fishes, i, dt, idx, kept, turns, fates)
      invariant Tolled(old(g.lives), old(g.Counters()), g.lives, g.Counters(), turns, fates)
      decreases Burning(g.fishes[i..]), |g.fishes| - i
    {
      ghost var before := g.fishes;
      ghost var turn := g.fishes[i];
      ghost var lives, c := g.lives, g.Counters();
      var fate := FishTurn(g, i, dt);
      PassMeasureDrops(before, g.fishes, i);
      PassCarry(g.hypot, g.pathPoints, f0, before, g.fishes, i, dt, idx, kept, turns, fates, fate);
      TollCarry(old(g.lives), old(g.Counters()), lives, c, turns, fates, turn, fate, g.lives, g.Counters());
      if fate.Stayed? {
        idx, kept := idx + [i], kept + [g.fishes[i]];
      }
      turns, fates := turns + [turn], fates + [fate];
      i := i + 1;
    }
    PicksOk(g.fishes, idx, kept, g.nextFishId, g.fishCatalog);
  }

  /** `updateFishes`: every fish takes its turn, and the fish whose turn
      ends in `Stayed`, in order, become the new fish list; the lives lost
      are the damage of the fish whose turn ends in a leak. */
  method UpdateFishes(g: Game, dt: real)
    returns (ghost passed: seq<Fish>, ghost idx: seq<nat>, ghost turns: seq<Fish>, ghost fates: seq<TickFate>)
    requires g.Valid()
    modifies g`fishes, g`nextFishId, g`kills, g`gold, g`bossKills, g`lives
    ensures g.Valid() && Picks(passed, idx, g.fishes)
    ensures g.Record() == old(g.Record())
    ensures |old(g.fishes)| <= |passed| && |turns| == |passed| && |fates| == |passed|
    ensures forall j :: 0 <= j < |old(g.fishes)| ==> turns[j] == old(g.fishes)[j]
    ensures forall j :: 0 <= j < |turns| ==> fates[j] == FateOf(g.pathPoints, turns[j], dt)
    ensures forall j :: 0 <= j < |turns| && !fates[j].Died? ==>
      passed[j] == Advanced(g.hypot, g.pathPoints, Ticked(turns[j], dt), dt)
    ensures forall j :: 0 <= j < |fates| ==> (fates[j].Stayed? <==> j in idx)
    ensures forall j :: 0 <= j < |g.fishes| ==> g.fishes[j].hp > 0.0
    ensures g.lives == old(g.lives) - Damages(Leakers(turns, fates))
    ensures g.Counters() == Paid(old(g.Counters()), Casualties(turns, fates))
  {
    var kept;
    kept, idx, turns, fates := FishPass(g, dt);
    passed := g.fishes;
    g.fishes := kept;
  }
}
