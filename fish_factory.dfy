/** The unit factory: turns a catalog template plus caller overrides into a
    live fish and appends it to the game, handing out fish ids in order. */
module FishFactory {
  import opened Common
  import opened GameState

  /** Per-spawn overrides; every absent entry falls back to the template or
      to the start of the path. */
  datatype Overrides = Overrides(
    x: Option<real>, y: Option<real>, pathIndex: Option<nat>,
    hp: Option<real>, maxHp: Option<real>, speed: Option<real>, baseSpeed: Option<real>,
    spawnedFromSplit: bool)

  const NoOverrides: Overrides := Overrides(None, None, None, None, None, None, None, false)

  const DefaultSummonThresholds: seq<real> := [0.85, 0.6, 0.35]
  const DefaultShieldThresholds: seq<real> := [0.72, 0.42]

  datatype SkillType = Accelerate | Split | ArmorStaticType | Summon | Shield

  predicate OfType(s: Skill, t: SkillType) {
    match t
    case Accelerate => s.AccelerateOnHp?
    case Split => s.SplitOnDeath?
    case ArmorStaticType => s.ArmorStatic?
    case Summon => s.BossSummonThreshold?
    case Shield => s.BossShieldThreshold?
  }

  /** `skills.find(s => s.type === t)`, as the index of the first match. */
  function FirstOfType(skills: seq<Skill>, t: SkillType): (r: Option<nat>)
    ensures r.None? <==> forall i :: 0 <= i < |skills| ==> !OfType(skills[i], t)
    ensures r.Some? ==> r.value < |skills| && OfType(skills[r.value], t) &&
                        forall i :: 0 <= i < r.value ==> !OfType(skills[i], t)
  {
    if skills == [] then None
    else if OfType(skills[0], t) then Some(0)
    else
      match FirstOfType(skills[1..], t)
      case None => None
      case Some(i) => Some(i + 1)
  }

  function FindSkill(skills: seq<Skill>, t: SkillType): (r: Option<Skill>)
    ensures r.Some? ==> OfType(r.value, t) && r.value in skills
  {
    match FirstOfType(skills, t)
    case None => None
    case Some(i) => Some(skills[i])
  }

  /** The first skill of each type the factory looks for, found in one
      pass over the skill list. */
  datatype Profile = Profile(accel: Option<Skill>, split: Option<Skill>, armor: Option<Skill>,
                             summon: Option<Skill>, shield: Option<Skill>)

  function Slot(p: Profile, t: SkillType): Option<Skill> {
    match t
    case Accelerate => p.accel
    case Split => p.split
    case ArmorStaticType => p.armor
    case Summon => p.summon
    case Shield => p.shield
  }

  function ProfileOf(skills: seq<Skill>): Profile {
    if skills == [] then Profile(None, None, None, None, None)
    else
      var p := ProfileOf(skills[1..]);
      var s := skills[0];
      match s
      case AccelerateOnHp(_, _) => p.(accel := Some(s))
      case SplitOnDeath(_, _, _) => p.(split := Some(s))
      case ArmorStatic(_) => p.(armor := Some(s))
      case BossSummonThreshold(_, _, _) => p.(summon := Some(s))
      case BossShieldThreshold(_, _) => p.(shield := Some(s))
      case OtherSkill(_) => p
  }

  /** The one-pass profile holds, for every type, exactly what `find` returns. */
  lemma {:induction false} ProfileFindsFirst(skills: seq<Skill>, t: SkillType)
    ensures Slot(ProfileOf(skills), t) == FindSkill(skills, t)
  {
    if skills != [] {
      ProfileFindsFirst(skills[1..], t);
      if !OfType(skills[0], t) {
        var r := FirstOfType(skills[1..], t);
        if r.Some? {
          assert skills[1..][r.value] == skills[r.value + 1];
        }
      }
    }
  }

  /** `armorStaticSkill?.armorRatio ?? template.armorRatio`. */
  function ArmorOf(t: FishTemplate, p: Profile): Option<real> {
    match p.armor
    case Some(ArmorStatic(Some(a))) => Some(a)
    case _ => t.armorRatio
  }

  function SummonThresholdsOf(t: FishTemplate, p: Profile): seq<real> {
    if !t.isBoss then []
    else match p.summon
      case Some(BossSummonThreshold(Some(ts), _, _)) => ts
      case _ => DefaultSummonThresholds
  }

  function ShieldThresholdsOf(t: FishTemplate, p: Profile): seq<real> {
    if !t.isBoss then []
    else match p.shield
      case Some(BossShieldThreshold(Some(ts), _)) => ts
      case _ => DefaultShieldThresholds
  }

  function ShieldRatioOf(p: Profile): real {
    match p.shield
    case Some(BossShieldThreshold(_, Some(r))) => r
    case _ => 0.16
  }

  function SummonPacksFrom(p: Profile): Option<seq<SummonPack>> {
    match p.summon
    case Some(BossSummonThreshold(_, Some(ps), _)) => Some(ps)
    case _ => None
  }

  function SummonSpeedOf(p: Profile): real {
    match p.summon
    case Some(BossSummonThreshold(_, _, Some(m))) => m
    case _ => 1.08
  }

  function AccelerationOf(p: Profile): Option<AccelerationSkill> {
    match p.accel
    case Some(AccelerateOnHp(r, m)) => Some(AccelerationSkill(r, m))
    case _ => None
  }

  function SplitOf(p: Profile): Option<SplitSkill> {
    match p.split
    case Some(SplitOnDeath(c, k, h)) => Some(SplitSkill(c, k, h))
    case _ => None
  }

  /** The point a new fish starts from when no position is given: the path
      point of its path index, clamped to the last point. */
  function StartPoint(pathPoints: seq<Point>, o: Overrides): (p: Point)
    requires |pathPoints| >= 1
    ensures p in pathPoints
    ensures o.pathIndex.None? ==> p == pathPoints[0]
  {
    pathPoints[if o.pathIndex.Some? && o.pathIndex.value < |pathPoints| then o.pathIndex.value else
               if o.pathIndex.Some? then |pathPoints| - 1 else 0]
  }

  /** The fish record `spawnFish` pushes. */
  function NewFish(t: FishTemplate, kind: string, o: Overrides, pathPoints: seq<Point>, id: nat): (f: Fish)
    requires |pathPoints| >= 1
    ensures f.id == id && f.kindKey == kind && f.burnEffects == []
  {
    var first := StartPoint(pathPoints, o);
    var maxHp := o.maxHp.GetOr(t.hp);
    var p := ProfileOf(t.skills);
    Fish(
      id := id, kindKey := kind, title := t.title, isBoss := t.isBoss,
      hp := if o.hp.Some? then o.hp.value else maxHp, maxHp := maxHp,
      pos := Point(o.x.GetOr(first.x), o.y.GetOr(first.y)),
      pathIndex := o.pathIndex.GetOr(0),
      reachedEnd := false, splitSpawned := false, isAccelerated := false,
      spawnedFromSplit := o.spawnedFromSplit,
      baseSpeed := o.baseSpeed.GetOr(t.speed), speed := o.speed.GetOr(t.speed),
      damage := t.damage, reward := t.reward,
      armorRatio := ArmorOf(t, p),
      accelerationSkill := AccelerationOf(p), splitSkill := SplitOf(p),
      slowEffects := [], burnEffects := [], armorBreakEffects := [],
      bossSummonThresholds := SummonThresholdsOf(t, p), bossShieldThresholds := ShieldThresholdsOf(t, p),
      bossShieldHp := 0.0, bossShieldRatio := ShieldRatioOf(p),
      bossSummonPacks := SummonPacksFrom(p), bossSummonSpeedMultiplier := SummonSpeedOf(p))
  }

  /** A new fish: the template's identity and stats, a fresh unit with no
      effects, shield or triggered skills, hit points and position from the
      overrides or else the template and the path. */
  lemma NewFishBasics(t: FishTemplate, kind: string, o: Overrides, pathPoints: seq<Point>, id: nat)
    requires |pathPoints| >= 1
    ensures var f := NewFish(t, kind, o, pathPoints, id);
      f.isBoss == t.isBoss && f.damage == t.damage && f.reward == t.reward && f.title == t.title &&
      f.slowEffects == [] && f.armorBreakEffects == [] && f.bossShieldHp == 0.0 &&
      !f.reachedEnd && !f.splitSpawned && !f.isAccelerated && f.spawnedFromSplit == o.spawnedFromSplit &&
      // an explicit maximum also sets the current value
      (o.maxHp.None? ==> f.maxHp == t.hp) && (o.maxHp.Some? ==> f.maxHp == o.maxHp.value) &&
      (o.hp.Some? ==> f.hp == o.hp.value) && (o.hp.None? ==> f.hp == f.maxHp) &&
      (o.pathIndex.None? ==> f.pathIndex == 0) && (o.pathIndex.Some? ==> f.pathIndex == o.pathIndex.value) &&
      (o.x.None? ==> f.pos.x == StartPoint(pathPoints, o).x) && (o.y.None? ==> f.pos.y == StartPoint(pathPoints, o).y) &&
      (o.x.Some? ==> f.pos.x == o.x.value) && (o.y.Some? ==> f.pos.y == o.y.value) &&
      (o.speed.None? ==> f.speed == t.speed) && (o.baseSpeed.None? ==> f.baseSpeed == t.speed) &&
      (o.speed.Some? ==> f.speed == o.speed.value) && (o.baseSpeed.Some? ==> f.baseSpeed == o.baseSpeed.value)
    ensures o == NoOverrides ==>
      var f := NewFish(t, kind, o, pathPoints, id);
      f.pos == pathPoints[0] && f.hp == f.maxHp == t.hp && f.speed == f.baseSpeed == t.speed
  {
  }

  /** A new fish's boss ladders are fresh copies of the template's: the
      defaults when the template has no such skill, none at all for
      ordinary fish. */
  lemma NewFishSkills(t: FishTemplate, kind: string, o: Overrides, pathPoints: seq<Point>, id: nat)
    requires |pathPoints| >= 1
    ensures var f := NewFish(t, kind, o, pathPoints, id);
      !t.isBoss ==> f.bossSummonThresholds == [] && f.bossShieldThresholds == []
    ensures t.isBoss && (forall s :: s in t.skills ==> !s.BossSummonThreshold?) ==>
      NewFish(t, kind, o, pathPoints, id).bossSummonThresholds == DefaultSummonThresholds
    ensures t.isBoss && (forall s :: s in t.skills ==> !s.BossShieldThreshold?) ==>
      NewFish(t, kind, o, pathPoints, id).bossShieldThresholds == DefaultShieldThresholds
  {
    ProfileFindsFirst(t.skills, Summon);
    ProfileFindsFirst(t.skills, Shield);
  }

  /** A boss's summon ladder is that of its first boss_summon_threshold
      skill, or the default when that skill carries no thresholds. */
  lemma NewFishSummonLadder(t: FishTemplate, kind: string, o: Overrides, pathPoints: seq<Point>, id: nat)
    requires |pathPoints| >= 1
    ensures forall i :: t.isBoss && 0 <= i < |t.skills| && t.skills[i].BossSummonThreshold? &&
                        (forall j :: 0 <= j < i ==> !t.skills[j].BossSummonThreshold?) ==>
      NewFish(t, kind, o, pathPoints, id).bossSummonThresholds == t.skills[i].thresholds.GetOr(DefaultSummonThresholds)
  {
    ProfileFindsFirst(t.skills, Summon);
    forall i | t.isBoss && 0 <= i < |t.skills| && t.skills[i].BossSummonThreshold? &&
               (forall j :: 0 <= j < i ==> !t.skills[j].BossSummonThreshold?)
      ensures NewFish(t, kind, o, pathPoints, id).bossSummonThresholds == t.skills[i].thresholds.GetOr(DefaultSummonThresholds)
    {
      assert FirstOfType(t.skills, Summon) == Some(i);
    }
  }

  /** A boss's shield ladder is that of its first boss_shield_threshold
      skill, or the default when that skill carries no thresholds. */
  lemma NewFishShieldLadder(t: FishTemplate, kind: string, o: Overrides, pathPoints: seq<Point>, id: nat)
    requires |pathPoints| >= 1
    ensures forall i :: t.isBoss && 0 <= i < |t.skills| && t.skills[i].BossShieldThreshold? &&
                        (forall j :: 0 <= j < i ==> !t.skills[j].BossShieldThreshold?) ==>
      NewFish(t, kind, o, pathPoints, id).bossShieldThresholds == t.skills[i].thresholds.GetOr(DefaultShieldThresholds)
  {
    ProfileFindsFirst(t.skills, Shield);
    forall i | t.isBoss && 0 <= i < |t.skills| && t.skills[i].BossShieldThreshold? &&
               (forall j :: 0 <= j < i ==> !t.skills[j].BossShieldThreshold?)
      ensures NewFish(t, kind, o, pathPoints, id).bossShieldThresholds == t.skills[i].thresholds.GetOr(DefaultShieldThresholds)
    {
      assert FirstOfType(t.skills, Shield) == Some(i);
    }
  }

  /** A new fish's armour comes from the first armour_static skill when that
      carries a ratio, and from the template otherwise. */
  lemma NewFishArmor(t: FishTemplate, kind: string, o: Overrides, pathPoints: seq<Point>, id: nat)
    requires |pathPoints| >= 1
    ensures (forall s :: s in t.skills ==> !s.ArmorStatic?) ==>
      NewFish(t, kind, o, pathPoints, id).armorRatio == t.armorRatio
    ensures forall i :: 0 <= i < |t.skills| && t.skills[i].ArmorStatic? &&
                        (forall j :: 0 <= j < i ==> !t.skills[j].ArmorStatic?) ==>
      NewFish(t, kind, o, pathPoints, id).armorRatio ==
        (if t.skills[i].armorRatio.Some? then t.skills[i].armorRatio else t.armorRatio)
  {
    ProfileFindsFirst(t.skills, ArmorStaticType);
    forall i | 0 <= i < |t.skills| && t.skills[i].ArmorStatic? && (forall j :: 0 <= j < i ==> !t.skills[j].ArmorStatic?)
      ensures NewFish(t, kind, o, pathPoints, id).armorRatio ==
                (if t.skills[i].armorRatio.Some? then t.skills[i].armorRatio else t.armorRatio)
    {
      assert FirstOfType(t.skills, ArmorStaticType) == Some(i);
    }
  }

  /** A new fish's shield ratio is that of the first boss_shield_threshold
      skill when it carries one, and 0.16 otherwise. */
  lemma NewFishShieldRatio(t: FishTemplate, kind: string, o: Overrides, pathPoints: seq<Point>, id: nat)
    requires |pathPoints| >= 1
    ensures (forall s :: s in t.skills ==> !s.BossShieldThreshold?) ==>
      NewFish(t, kind, o, pathPoints, id).bossShieldRatio == 0.16
    ensures forall i :: 0 <= i < |t.skills| && t.skills[i].BossShieldThreshold? &&
                        (forall j :: 0 <= j < i ==> !t.skills[j].BossShieldThreshold?) ==>
      NewFish(t, kind, o, pathPoints, id).bossShieldRatio == t.skills[i].shieldRatio.GetOr(0.16)
  {
    ProfileFindsFirst(t.skills, Shield);
    forall i | 0 <= i < |t.skills| && t.skills[i].BossShieldThreshold? &&
               (forall j :: 0 <= j < i ==> !t.skills[j].BossShieldThreshold?)
      ensures NewFish(t, kind, o, pathPoints, id).bossShieldRatio == t.skills[i].shieldRatio.GetOr(0.16)
    {
      assert FirstOfType(t.skills, Shield) == Some(i);
    }
  }

  /** A new fish's summon speed multiplier is that of the first
      boss_summon_threshold skill when it carries one, and 1.08 otherwise. */
  lemma NewFishSummonSpeed(t: FishTemplate, kind: string, o: Overrides, pathPoints: seq<Point>, id: nat)
    requires |pathPoints| >= 1
    ensures (forall s :: s in t.skills ==> !s.BossSummonThreshold?) ==>
      NewFish(t, kind, o, pathPoints, id).bossSummonSpeedMultiplier == 1.08
    ensures forall i :: 0 <= i < |t.skills| && t.skills[i].BossSummonThreshold? &&
                        (forall j :: 0 <= j < i ==> !t.skills[j].BossSummonThreshold?) ==>
      NewFish(t, kind, o, pathPoints, id).bossSummonSpeedMultiplier == t.skills[i].speedMultiplier.GetOr(1.08)
  {
    ProfileFindsFirst(t.skills, Summon);
    forall i | 0 <= i < |t.skills| && t.skills[i].BossSummonThreshold? &&
               (forall j :: 0 <= j < i ==> !t.skills[j].BossSummonThreshold?)
      ensures NewFish(t, kind, o, pathPoints, id).bossSummonSpeedMultiplier == t.skills[i].speedMultiplier.GetOr(1.08)
    {
      assert FirstOfType(t.skills, Summon) == Some(i);
    }
  }

  /** A new fish's summon packs are those of one of the template's summon skills. */
  lemma NewFishPacks(t: FishTemplate, kind: string, o: Overrides, pathPoints: seq<Point>, id: nat)
    requires |pathPoints| >= 1
    ensures var f := NewFish(t, kind, o, pathPoints, id);
      f.bossSummonPacks.Some? ==> exists s :: s in t.skills && s.BossSummonThreshold? && s.packs == f.bossSummonPacks
  {
    ProfileFindsFirst(t.skills, Summon);
  }

  /** A new fish's summons are catalog kinds whenever the catalog's own are. */
  lemma NewFishSummonsKnown(catalog: map<string, FishTemplate>, kind: string, o: Overrides,
                            pathPoints: seq<Point>, id: nat)
    requires |pathPoints| >= 1 && kind in catalog && SummonsKnown(catalog)
    ensures FishSummonsKnown(NewFish(catalog[kind], kind, o, pathPoints, id), catalog)
  {
    var f := NewFish(catalog[kind], kind, o, pathPoints, id);
    NewFishPacks(catalog[kind], kind, o, pathPoints, id);
    if f.bossSummonPacks.Some? {
      var s :| s in catalog[kind].skills && s.BossSummonThreshold? && s.packs == f.bossSummonPacks;
    }
  }

  /** `spawnFish`: appends exactly one fish, whose id is the previous
      `nextFishId`; the counter then moves on by one. */
  method SpawnFish(g: Game, kind: string, o: Overrides)
    requires g.Valid() && kind in g.fishCatalog
    modifies g`fishes, g`nextFishId
    ensures g.Valid()
    ensures g.fishes == old(g.fishes) + [NewFish(g.fishCatalog[kind], kind, o, g.pathPoints, old(g.nextFishId))]
    ensures g.nextFishId == old(g.nextFishId) + 1
  {
    var f := NewFish(g.fishCatalog[kind], kind, o, g.pathPoints, g.nextFishId);
    NewFishSummonsKnown(g.fishCatalog, kind, o, g.pathPoints, g.nextFishId);
    g.fishes := g.fishes + [f];
    g.nextFishId := g.nextFishId + 1;
  }

  /** One spawn request: a catalog kind and its overrides. */
  datatype Request = Request(kind: string, o: Overrides)

  predicate KindsKnown(reqs: seq<Request>, catalog: map<string, FishTemplate>) {
    forall j :: 0 <= j < |reqs| ==> reqs[j].kind in catalog
  }

  /** The fish a run of `spawnFish` calls appends, ids counting up from `id0`. */
  function Spawned(catalog: map<string, FishTemplate>, reqs: seq<Request>, pathPoints: seq<Point>, id0: nat): (r: seq<Fish>)
    requires |pathPoints| >= 1 && KindsKnown(reqs, catalog)
    ensures |r| == |reqs|
  {
    if reqs == [] then []
    else
      var n := |reqs| - 1;
      Spawned(catalog, reqs[..n], pathPoints, id0) + [NewFish(catalog[reqs[n].kind], reqs[n].kind, reqs[n].o, pathPoints, id0 + n)]
  }

  /** The `j`-th spawned fish is the factory's fish for the `j`-th request,
      with id `id0 + j`. */
  lemma {:induction false} SpawnedAt(catalog: map<string, FishTemplate>, reqs: seq<Request>, pathPoints: seq<Point>,
                                     id0: nat, j: nat)
    requires |pathPoints| >= 1 && KindsKnown(reqs, catalog) && j < |reqs|
    ensures Spawned(catalog, reqs, pathPoints, id0)[j] ==
            NewFish(catalog[reqs[j].kind], reqs[j].kind, reqs[j].o, pathPoints, id0 + j)
  {
    var n := |reqs| - 1;
    if j < n {
      SpawnedAt(catalog, reqs[..n], pathPoints, id0, j);
    }
  }

  /** Freshly spawned fish carry no burn and have ids `id0`, `id0 + 1`, .... */
  lemma {:induction false} SpawnedFresh(catalog: map<string, FishTemplate>, reqs: seq<Request>, pathPoints: seq<Point>, id0: nat)
    requires |pathPoints| >= 1 && KindsKnown(reqs, catalog)
    ensures forall j :: 0 <= j < |reqs| ==>
      Spawned(catalog, reqs, pathPoints, id0)[j].burnEffects == [] &&
      Spawned(catalog, reqs, pathPoints, id0)[j].id == id0 + j
  {
    forall j | 0 <= j < |reqs|
      ensures Spawned(catalog, reqs, pathPoints, id0)[j].burnEffects == []
      ensures Spawned(catalog, reqs, pathPoints, id0)[j].id == id0 + j
    {
      SpawnedAt(catalog, reqs, pathPoints, id0, j);
    }
  }

  /** The requested fish keep the fish-list invariant when appended. */
  lemma {:induction false} SpawnedOk(fishes: seq<Fish>, catalog: map<string, FishTemplate>, reqs: seq<Request>,
                                     pathPoints: seq<Point>, id0: nat)
    requires |pathPoints| >= 1 && KindsKnown(reqs, catalog) && SummonsKnown(catalog)
    requires FishesOk(fishes, id0, catalog)
    ensures FishesOk(fishes + Spawned(catalog, reqs, pathPoints, id0), id0 + |reqs|, catalog)
  {
    if reqs != [] {
      var n := |reqs| - 1;
      assert KindsKnown(reqs[..n], catalog);
      SpawnedOk(fishes, catalog, reqs[..n], pathPoints, id0);
      var f := NewFish(catalog[reqs[n].kind], reqs[n].kind, reqs[n].o, pathPoints, id0 + n);
      NewFishSummonsKnown(catalog, reqs[n].kind, reqs[n].o, pathPoints, id0 + n);
      var s := fishes + Spawned(catalog, reqs[..n], pathPoints, id0);
      assert fishes + Spawned(catalog, reqs, pathPoints, id0) == s + [f];
      assert forall x :: x in s + [f] ==> x in s || x == f;
    }
  }

  /** `spawnFish` called once per request, in order: the requested fish are
      appended with consecutive fresh ids. */
  method SpawnAll(g: Game, reqs: seq<Request>)
    requires g.Valid() && KindsKnown(reqs, g.fishCatalog)
    modifies g`fishes, g`nextFishId
    ensures g.Valid()
    ensures g.fishes == old(g.fishes) + Spawned(g.fishCatalog, reqs, g.pathPoints, old(g.nextFishId))
    ensures g.nextFishId == old(g.nextFishId) + |reqs|
  {
    SpawnedOk(g.fishes, g.fishCatalog, reqs, g.pathPoints, g.nextFishId);
    g.fishes := g.fishes + Spawned(g.fishCatalog, reqs, g.pathPoints, g.nextFishId);
    g.nextFishId := g.nextFishId + |reqs|;
  }
}
