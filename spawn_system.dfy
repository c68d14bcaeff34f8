/** Wave composition and scheduling: count formulas, the queue of a wave
    (unlocked rules, boss extras, a Fisher–Yates shuffle, the boss placed
    first or last), the early-start bonus and its streak, and the state
    machine that starts waves, releases one fish at a time and closes a
    wave (or the stage) once the queue and the field are empty. */
module SpawnSystem {
  import opened Common
  import opened GameState
  import opened FishFactory
  import opened StageProgress

  // ===== early-start bonus =======================================================

  /** `calcEarlyStartBonus`: gold for starting a wave before the countdown
      ends. Nothing with auto-start switched off, during a wave, or with at
      most 0.02 s left; otherwise at least 1, growing with the time left, the
      wave and the streak of early starts. */
  function EarlyStartBonus(autoStart: Option<bool>, waveActive: bool, timer: real, wave: int, streak: int): (r: int)
    ensures r == 0 <==> autoStart == Some(false) || waveActive || timer <= 0.02
    ensures r != 0 ==> r >= 1
  {
    if autoStart == Some(false) || waveActive then 0
    else
      var remaining := Max(0.0, timer);
      if remaining <= 0.02 then 0
      else StreakBonus(BonusBase(remaining, wave), streak)
  }

  /** The bonus after the streak multiplier, rounded: at least 1. */
  function StreakBonus(base: int, streak: int): (r: int)
    ensures r >= 1
  {
    MaxInt(1, Round(base as real * StreakMult(streak)))
  }

  /** The bonus before the streak multiplier: at least 1. */
  function BonusBase(remaining: real, wave: int): (r: int)
    ensures r >= 1
  {
    var waveFactor := MinInt(8, Floor(Max(1.0, (wave + 1) as real) / 2.0));
    MaxInt(1, Ceil(remaining * 4.0) + waveFactor)
  }

  /** The streak multiplier: 1 plus 0.1 per early start, capped at 1.75. */
  function StreakMult(streak: int): (r: real)
    ensures r <= 1.75
    ensures streak >= 0 ==> r >= 1.0
  {
    1.0 + Min(0.75, streak as real * 0.1)
  }

  lemma RoundMonotone(x: real, y: real)
    requires x <= y
    ensures Round(x) <= Round(y)
  {
  }

  lemma ScaleMonotone(b: real, m1: real, m2: real)
    requires b >= 0.0 && m1 <= m2
    ensures b * m1 <= b * m2
  {
    assert b * m2 - b * m1 == b * (m2 - m1);
  }

  lemma StreakMultMonotone(s1: int, s2: int)
    requires s1 <= s2
    ensures StreakMult(s1) <= StreakMult(s2)
  {
    assert s1 as real * 0.1 <= s2 as real * 0.1;
  }

  lemma StreakBonusMonotone(base: int, s1: int, s2: int)
    requires base >= 1 && s1 <= s2
    ensures StreakBonus(base, s1) <= StreakBonus(base, s2)
  {
    var b := base as real;
    StreakMultMonotone(s1, s2);
    ScaleMonotone(b, StreakMult(s1), StreakMult(s2));
    RoundMonotone(b * StreakMult(s1), b * StreakMult(s2));
  }

  /** A longer streak never lowers the bonus. */
  lemma BonusMonotoneInStreak(autoStart: Option<bool>, waveActive: bool, timer: real, wave: int, s1: int, s2: int)
    requires s1 <= s2
    ensures EarlyStartBonus(autoStart, waveActive, timer, wave, s1) <= EarlyStartBonus(autoStart, waveActive, timer, wave, s2)
  {
    if !(autoStart == Some(false) || waveActive || Max(0.0, timer) <= 0.02) {
      StreakBonusMonotone(BonusBase(Max(0.0, timer), wave), s1, s2);
    }
  }

  /** From the eighth early start on, the streak adds nothing more. */
  lemma BonusSaturates(autoStart: Option<bool>, waveActive: bool, timer: real, wave: int, streak: int)
    requires streak >= 8
    ensures EarlyStartBonus(autoStart, waveActive, timer, wave, streak) == EarlyStartBonus(autoStart, waveActive, timer, wave, 8)
  {
    assert StreakMult(streak) == 1.75;
  }

  // ===== count formulas ==========================================================

  /** `term.divisor || 1`: a missing or zero divisor divides by 1. */
  function Divisor(d: Option<real>): (r: real)
    ensures r != 0.0
    ensures d.Some? && d.value > 0.0 ==> r == d.value
  {
    if d.None? || d.value == 0.0 then 1.0 else d.value
  }

  /** `Math.floor(x / (divisor || 1))`. */
  function FloorDiv(x: real, d: Option<real>): int {
    Floor(x / Divisor(d))
  }

  /** What one term adds at wave `wave`. */
  function TermValue(t: Term, wave: int): real {
    match t
    case MulWave(f) => wave as real * f.GetOr(1.0)
    case FloorDivWave(d) => FloorDiv(wave as real, d) as real
    case FloorDivWaveMinus(d, m) => FloorDiv(Max(0.0, wave as real - m.GetOr(0.0)), d) as real
    case UnknownTerm => 0.0
  }

  /** The terms summed in list order. */
  function TermsTotal(terms: seq<Term>, wave: int): real {
    if terms == [] then 0.0 else TermsTotal(terms[..|terms| - 1], wave) + TermValue(terms[|terms| - 1], wave)
  }

  /** `evalCountExpr`: no formula counts 0; otherwise the base plus the
      terms, rounded down, never below 0. */
  function EvalCountExpr(expr: Option<CountExpr>, wave: int): (r: int)
    ensures r >= 0
    ensures expr.None? ==> r == 0
  {
    if expr.None? then 0 else MaxInt(0, Floor(expr.value.base.GetOr(0.0) + TermsTotal(expr.value.terms, wave)))
  }

  /** A formula of base 2 plus one times the wave counts 7 at wave 5. */
  lemma CountExample()
    ensures EvalCountExpr(Some(CountExpr(Some(2.0), [MulWave(Some(1.0))])), 5) == 7
  {
    var terms := [MulWave(Some(1.0))];
    assert terms[..0] == [];
    assert TermsTotal(terms, 5) == 5.0;
  }

  /** A term that never shrinks as the wave grows. */
  predicate Growing(t: Term) {
    match t
    case MulWave(f) => f.GetOr(1.0) >= 0.0
    case FloorDivWave(d) => d.None? || d.value >= 0.0
    case FloorDivWaveMinus(d, _) => d.None? || d.value >= 0.0
    case UnknownTerm => true
  }

  lemma FloorMonotone(x: real, y: real)
    requires x <= y
    ensures Floor(x) <= Floor(y)
  {
  }

  lemma DivMonotone(x: real, y: real, d: real)
    requires x <= y && d > 0.0
    ensures x / d <= y / d
  {
    assert y / d - x / d == (y - x) / d;
  }

  lemma FloorDivMonotone(x: real, y: real, d: Option<real>)
    requires x <= y && (d.None? || d.value >= 0.0)
    ensures FloorDiv(x, d) <= FloorDiv(y, d)
  {
    DivMonotone(x, y, Divisor(d));
    FloorMonotone(x / Divisor(d), y / Divisor(d));
  }

  lemma TermMonotone(t: Term, w1: int, w2: int)
    requires Growing(t) && w1 <= w2
    ensures TermValue(t, w1) <= TermValue(t, w2)
  {
    match t
    case MulWave(f) => WaveScaleMonotone(f.GetOr(1.0), w1, w2);
    case FloorDivWave(d) => FloorDivMonotone(w1 as real, w2 as real, d);
    case FloorDivWaveMinus(d, m) => ShiftedFloorDivMonotone(d, m.GetOr(0.0), w1, w2);
    case UnknownTerm =>
  }

  lemma WaveScaleMonotone(b: real, w1: int, w2: int)
    requires b >= 0.0 && w1 <= w2
    ensures w1 as real * b <= w2 as real * b
  {
    ScaleMonotone(b, w1 as real, w2 as real);
  }

  lemma ShiftedFloorDivMonotone(d: Option<real>, m: real, w1: int, w2: int)
    requires (d.None? || d.value >= 0.0) && w1 <= w2
    ensures FloorDiv(Max(0.0, w1 as real - m), d) <= FloorDiv(Max(0.0, w2 as real - m), d)
  {
    FloorDivMonotone(Max(0.0, w1 as real - m), Max(0.0, w2 as real - m), d);
  }

  lemma {:induction false} TermsMonotone(terms: seq<Term>, w1: int, w2: int)
    requires w1 <= w2 && forall k :: 0 <= k < |terms| ==> Growing(terms[k])
    ensures TermsTotal(terms, w1) <= TermsTotal(terms, w2)
  {
    if terms != [] {
      TermsMonotone(terms[..|terms| - 1], w1, w2);
      TermMonotone(terms[|terms| - 1], w1, w2);
    }
  }

  /** With no shrinking term, a later wave never counts fewer fish. */
  lemma CountMonotone(expr: Option<CountExpr>, w1: int, w2: int)
    requires w1 <= w2
    requires expr.Some? ==> forall k :: 0 <= k < |expr.value.terms| ==> Growing(expr.value.terms[k])
    ensures EvalCountExpr(expr, w1) <= EvalCountExpr(expr, w2)
  {
    if expr.Some? {
      TermsMonotone(expr.value.terms, w1, w2);
      FloorMonotone(expr.value.base.GetOr(0.0) + TermsTotal(expr.value.terms, w1),
                    expr.value.base.GetOr(0.0) + TermsTotal(expr.value.terms, w2));
    }
  }

  // ===== wave queues =============================================================

  /** What one rule puts in the queue; a gated rule adds nothing before its
      unlock wave (1 when unset). */
  function Contribution(r: SpawnRule, wave: int, gated: bool): (q: seq<string>)
    ensures forall x :: x in q ==> x == r.kind
  {
    if gated && wave < r.unlockWave.GetOr(1) then [] else Repeat(r.kind, EvalCountExpr(r.count, wave))
  }

  /** The rules' contributions, rule after rule. */
  function RulesKinds(rules: seq<SpawnRule>, wave: int, gated: bool): seq<string> {
    if rules == [] then []
    else RulesKinds(rules[..|rules| - 1], wave, gated) + Contribution(rules[|rules| - 1], wave, gated)
  }

  /** Every queued kind is the kind of one of the rules. */
  lemma {:induction false} RulesKindsFrom(rules: seq<SpawnRule>, wave: int, gated: bool, x: string)
    requires x in RulesKinds(rules, wave, gated)
    ensures exists r :: r in rules && r.kind == x
  {
    var init := rules[..|rules| - 1];
    if x in RulesKinds(init, wave, gated) {
      RulesKindsFrom(init, wave, gated, x);
      var r :| r in init && r.kind == x;
      assert r in rules;
    } else {
      assert x in Contribution(rules[|rules| - 1], wave, gated);
    }
  }

  /** How many fish the rules ask for. */
  function CountTotal(rules: seq<SpawnRule>, wave: int, gated: bool): int {
    if rules == [] then 0
    else
      var r := rules[|rules| - 1];
      CountTotal(rules[..|rules| - 1], wave, gated) +
        (if gated && wave < r.unlockWave.GetOr(1) then 0 else EvalCountExpr(r.count, wave))
  }

  /** The queue holds exactly as many fish as the rules ask for. */
  lemma {:induction false} RulesKindsLength(rules: seq<SpawnRule>, wave: int, gated: bool)
    ensures |RulesKinds(rules, wave, gated)| == CountTotal(rules, wave, gated)
  {
    if rules != [] {
      RulesKindsLength(rules[..|rules| - 1], wave, gated);
    }
  }

  /** `wave > 0 && wave % interval === 0` (a zero interval never matches). */
  predicate IsBossWave(plan: WavePlan, wave: int) {
    wave > 0 && BossInterval(plan) != 0 && wave % BossInterval(plan) == 0
  }

  /** `spawnLast !== false`. */
  predicate BossLast(plan: WavePlan) {
    !(plan.bossWave.Some? && plan.bossWave.value.spawnLast == Some(false))
  }

  /** The queue of wave `wave` before the shuffle and without the boss. */
  function Unshuffled(plan: WavePlan, wave: int): seq<string> {
    RulesKinds(plan.rules, wave, true) + (if IsBossWave(plan, wave) then RulesKinds(ExtraRules(plan), wave, false) else [])
  }

  /** `q` is a queue `buildWave` can produce: the ordinary fish in any order,
      and on a boss wave the boss appended last (or put first). */
  ghost predicate WaveQueue(plan: WavePlan, wave: int, q: seq<string>) {
    var u := Unshuffled(plan, wave);
    if !IsBossWave(plan, wave) then multiset(q) == multiset(u)
    else if BossLast(plan) then |q| == |u| + 1 && q[|u|] == BossKind(plan) && multiset(q[..|u|]) == multiset(u)
    else |q| == |u| + 1 && q[0] == BossKind(plan) && multiset(q[1..]) == multiset(u)
  }

  /** A wave's queue is as long as its rules ask for, plus the boss. */
  lemma WaveQueueLength(plan: WavePlan, wave: int, q: seq<string>)
    requires WaveQueue(plan, wave, q)
    ensures |q| == CountTotal(plan.rules, wave, true) +
                   (if IsBossWave(plan, wave) then CountTotal(ExtraRules(plan), wave, false) + 1 else 0)
  {
    RulesKindsLength(plan.rules, wave, true);
    RulesKindsLength(ExtraRules(plan), wave, false);
    var u := Unshuffled(plan, wave);
    if !IsBossWave(plan, wave) {
      assert |q| == |multiset(q)| == |multiset(u)| == |u|;
    }
  }

  /** Every kind in a wave's queue comes from the plan. */
  lemma WaveQueueKinds(plan: WavePlan, wave: int, q: seq<string>, catalog: map<string, FishTemplate>)
    requires WaveQueue(plan, wave, q) && PlanKindsKnown(plan, catalog)
    ensures forall k :: k in q ==> k in catalog
  {
    forall k | k in q ensures k in catalog {
      if k != BossKind(plan) || !IsBossWave(plan, wave) {
        QueuedUnshuffled(plan, wave, q, k);
        UnshuffledKnown(plan, wave, k, catalog);
      }
    }
  }

  /** Apart from the boss, a queued kind is one of the unshuffled kinds. */
  lemma QueuedUnshuffled(plan: WavePlan, wave: int, q: seq<string>, k: string)
    requires WaveQueue(plan, wave, q) && k in q
    requires k != BossKind(plan) || !IsBossWave(plan, wave)
    ensures k in Unshuffled(plan, wave)
  {
    var u := Unshuffled(plan, wave);
    if IsBossWave(plan, wave) {
      BossQueueMember(q, u, BossKind(plan), BossLast(plan), k);
    } else {
      assert k in multiset(q);
    }
  }

  /** A boss queue holds the boss at one end and a permutation of `u` beside it. */
  lemma BossQueueMember(q: seq<string>, u: seq<string>, boss: string, last: bool, k: string)
    requires |q| == |u| + 1
    requires last ==> q[|u|] == boss && multiset(q[..|u|]) == multiset(u)
    requires !last ==> q[0] == boss && multiset(q[1..]) == multiset(u)
    requires k in q && k != boss
    ensures k in u
  {
    var j :| 0 <= j < |q| && q[j] == k;
    if last {
      assert q[..|u|][j] == k;
      assert k in multiset(q[..|u|]);
    } else {
      assert q[1..][j - 1] == k;
      assert k in multiset(q[1..]);
    }
  }

  /** The unshuffled kinds all come from rules of the plan. */
  lemma UnshuffledKnown(plan: WavePlan, wave: int, k: string, catalog: map<string, FishTemplate>)
    requires k in Unshuffled(plan, wave) && PlanKindsKnown(plan, catalog)
    ensures k in catalog
  {
    if k in RulesKinds(plan.rules, wave, true) {
      RulesKindsFrom(plan.rules, wave, true, k);
    } else {
      RulesKindsFrom(ExtraRules(plan), wave, false, k);
    }
  }

  /** `pushMany`: `count` copies of `kind` appended one by one. */
  method PushMany(queue: seq<string>, kind: string, count: int) returns (q: seq<string>)
    ensures q == queue + Repeat(kind, count)
  {
    q := queue;
    for i := 0 to MaxInt(0, count)
      invariant q == queue + Repeat(kind, i)
    {
      q := q + [kind];
    }
  }

  /** `Math.floor(r * n)` for a draw `r` in [0, 1): an index below `n`. */
  function PickIndex(r: real, n: int): (j: int)
    requires 0.0 <= r < 1.0 && n >= 1
    ensures 0 <= j < n
  {
    var x := r * n as real;
    assert n as real - x == (1.0 - r) * n as real;
    Floor(x)
  }

  /** Exchanges two entries. */
  method Swap(a: array<string>, i: int, j: int)
    requires 0 <= i < a.Length && 0 <= j < a.Length
    modifies a
    ensures a[..] == old(a[..])[i := old(a[j])][j := old(a[i])]
    ensures multiset(a[..]) == multiset(old(a[..]))
  {
    a[i], a[j] := a[j], a[i];
  }

  /** The Fisher–Yates shuffle of `buildWave`, in place: from the back, each
      entry swaps with a uniformly drawn entry at or before it. */
  method Shuffle(a: array<string>)
    modifies a
    ensures multiset(a[..]) == multiset(old(a[..]))
  {
    var i := a.Length - 1;
    while i > 0
      invariant -1 <= i < a.Length || (a.Length == 0 && i == -1)
      invariant multiset(a[..]) == multiset(old(a[..]))
    {
      var r := Random();
      var j := PickIndex(r, i + 1);
      Swap(a, i, j);
      i := i - 1;
    }
  }

  /** `buildWave`: the unlocked rules' fish and, on a boss wave, the extra
      rules' fish, shuffled, with the boss placed last (or first). */
  method BuildWave(plan: WavePlan, wave: int) returns (q: seq<string>)
    ensures WaveQueue(plan, wave, q)
  {
    var queue := QueueRules(plan, wave);
    var boss := IsBossWave(plan, wave);
    var a := new string[|queue|](j requires 0 <= j < |queue| => queue[j]);
    assert a[..] == queue;
    Shuffle(a);
    q := a[..];
    if boss {
      if BossLast(plan) {
        q := q + [BossKind(plan)];
        assert q[..|queue|] == a[..];
      } else {
        q := [BossKind(plan)] + q;
        assert q[1..] == a[..];
      }
    }
  }

  /** The pushes of `buildWave`, before the shuffle. */
  method QueueRules(plan: WavePlan, wave: int) returns (queue: seq<string>)
    ensures queue == Unshuffled(plan, wave)
  {
    queue := PushRules([], plan.rules, wave, true);
    if IsBossWave(plan, wave) {
      queue := PushRules(queue, ExtraRules(plan), wave, false);
    }
  }

  /** One `for (const rule of rules)` loop of `buildWave`: each rule's fish
      pushed in turn, gated rules skipped before their unlock wave. */
  method PushRules(queue: seq<string>, rules: seq<SpawnRule>, wave: int, gated: bool) returns (q: seq<string>)
    ensures q == queue + RulesKinds(rules, wave, gated)
  {
    q := queue;
    for k := 0 to |rules|
      invariant q == queue + RulesKinds(rules[..k], wave, gated)
    {
      assert rules[..k + 1][..k] == rules[..k];
      var r := rules[k];
      if gated && wave < r.unlockWave.GetOr(1) {
        continue;
      }
      q := PushMany(q, r.kind, EvalCountExpr(r.count, wave));
    }
    assert rules[..|rules|] == rules;
  }

  // ===== starting waves ==========================================================

  /** `startNextWave` refuses while a wave runs or once the plan's last wave
      has been played. */
  predicate StartBlocked(plan: WavePlan, waveActive: bool, wave: int) {
    waveActive || (HasMaxWaves(plan) && wave >= plan.maxWaves.value)
  }

  /** `hadCountdown`: auto-start on and more than 0.02 s left. */
  predicate HadCountdown(autoStart: Option<bool>, timer: real) {
    autoStart != Some(false) && timer > 0.02
  }

  /** Between waves, a manual start earns a bonus exactly when a countdown
      was running, so its two streak branches split on the countdown alone. */
  lemma BonusIffCountdown(autoStart: Option<bool>, timer: real, wave: int, streak: int)
    ensures EarlyStartBonus(autoStart, false, timer, wave, streak) > 0 <==> HadCountdown(autoStart, timer)
  {
  }

  /** The streak after a start: one more after a paid early start, reset by a
      manual start without a countdown, otherwise kept. */
  function NextStreak(manual: bool, bonus: int, hadCountdown: bool, streak: int): int {
    if bonus > 0 then streak + 1 else if manual && !hadCountdown then 0 else streak
  }

  /** `startNextWave`. A blocked start changes nothing. Otherwise a manual
      start pays the early-start bonus (an automatic one never does), the
      streak moves on or resets, the wave number rises by one, its queue is
      built, and the countdown is re-armed for the next break. */
  method StartNextWave(g: Game, manual: bool)
    requires g.Valid()
    modifies g`gold, g`earlyStartStreak, g`wave, g`spawnQueue, g`spawnTimer, g`waveActive,
             g`autoWaveTimer, g`autoWaveDelayTotal, g`autoWaveBonusPreview
    ensures g.Valid()
    ensures StartBlocked(g.stage.wavePlan, old(g.waveActive), old(g.wave)) ==>
      g.gold == old(g.gold) && g.earlyStartStreak == old(g.earlyStartStreak) && g.wave == old(g.wave) &&
      g.spawnQueue == old(g.spawnQueue) && g.spawnTimer == old(g.spawnTimer) && g.waveActive == old(g.waveActive) &&
      g.autoWaveTimer == old(g.autoWaveTimer) && g.autoWaveDelayTotal == old(g.autoWaveDelayTotal) &&
      g.autoWaveBonusPreview == old(g.autoWaveBonusPreview)
    ensures !StartBlocked(g.stage.wavePlan, old(g.waveActive), old(g.wave)) ==>
      var bonus := if manual then EarlyStartBonus(g.autoStartWaves, false, old(g.autoWaveTimer), old(g.wave), old(g.earlyStartStreak)) else 0;
      g.gold == old(g.gold) + bonus &&
      g.earlyStartStreak == NextStreak(manual, bonus, HadCountdown(g.autoStartWaves, old(g.autoWaveTimer)), old(g.earlyStartStreak)) &&
      g.wave == old(g.wave) + 1 && WaveQueue(g.stage.wavePlan, g.wave, g.spawnQueue) &&
      g.spawnTimer == 0.0 && g.waveActive &&
      g.autoWaveTimer == AutoWaveDelay(g.stage.wavePlan) && g.autoWaveDelayTotal == AutoWaveDelay(g.stage.wavePlan) &&
      g.autoWaveBonusPreview == 0
  {
    var plan := g.stage.wavePlan;
    if HasMaxWaves(plan) && g.wave >= plan.maxWaves.value && !g.waveActive {
      return;
    }
    if g.waveActive {
      return;
    }
    PayEarlyStart(g, manual);
    OpenWave(g);
  }

  /** The early-start part of a start between waves: a paid bonus and a
      longer streak, or a reset streak. */
  method PayEarlyStart(g: Game, manual: bool)
    requires !g.waveActive
    modifies g`gold, g`earlyStartStreak
    ensures var bonus := if manual then EarlyStartBonus(g.autoStartWaves, false, g.autoWaveTimer, g.wave, old(g.earlyStartStreak)) else 0;
      g.gold == old(g.gold) + bonus &&
      g.earlyStartStreak == NextStreak(manual, bonus, HadCountdown(g.autoStartWaves, g.autoWaveTimer), old(g.earlyStartStreak))
  {
    var hadCountdown := HadCountdown(g.autoStartWaves, g.autoWaveTimer);
    var bonus := if manual then EarlyStartBonus(g.autoStartWaves, g.waveActive, g.autoWaveTimer, g.wave, g.earlyStartStreak) else 0;
    if bonus > 0 {
      g.gold := g.gold + bonus;
      g.earlyStartStreak := g.earlyStartStreak + 1;
    } else if manual && !hadCountdown {
      g.earlyStartStreak := 0;
    }
  }

  /** The wave part of a start: the next wave number, its queue, and the
      countdown re-armed. */
  method OpenWave(g: Game)
    requires g.Valid()
    modifies g`wave, g`spawnQueue, g`spawnTimer, g`waveActive, g`autoWaveTimer, g`autoWaveDelayTotal, g`autoWaveBonusPreview
    ensures g.Valid()
    ensures g.wave == old(g.wave) + 1 && WaveQueue(g.stage.wavePlan, g.wave, g.spawnQueue) &&
      g.spawnTimer == 0.0 && g.waveActive &&
      g.autoWaveTimer == AutoWaveDelay(g.stage.wavePlan) && g.autoWaveDelayTotal == AutoWaveDelay(g.stage.wavePlan) &&
      g.autoWaveBonusPreview == 0
  {
    var plan := g.stage.wavePlan;
    g.wave := g.wave + 1;
    var q := BuildWave(plan, g.wave);
    WaveQueueKinds(plan, g.wave, q, g.fishCatalog);
    g.spawnQueue := q;
    g.spawnTimer := 0.0;
    g.waveActive := true;
    g.autoWaveTimer := AutoWaveDelay(plan);
    g.autoWaveDelayTotal := AutoWaveDelay(plan);
    g.autoWaveBonusPreview := 0;
  }

  // ===== per-tick spawning =======================================================

  /** The break between waves is frozen: stage over, no lives, or the last
      wave played. */
  predicate CountdownHalted(plan: WavePlan, stageCleared: bool, stageFailed: bool, lives: int, wave: int) {
    stageCleared || stageFailed || lives <= 0 || (HasMaxWaves(plan) && wave >= plan.maxWaves.value)
  }

  /** The break between waves, one tick: nothing when halted; with
      auto-start off the preview and the streak are cleared; otherwise the
      countdown runs down by `dt` (not below 0), the preview shows the bonus,
      and at 0 the next wave starts on its own, without a bonus. */
  method Countdown(g: Game, dt: real)
    requires g.Valid() && !g.waveActive
    modifies g`gold, g`earlyStartStreak, g`wave, g`spawnQueue, g`spawnTimer, g`waveActive,
             g`autoWaveTimer, g`autoWaveDelayTotal, g`autoWaveBonusPreview
    ensures g.Valid() && g.gold == old(g.gold)
    ensures CountdownHalted(g.stage.wavePlan, g.stageCleared, g.stageFailed, g.lives, old(g.wave)) ==>
      g.earlyStartStreak == old(g.earlyStartStreak) && g.wave == old(g.wave) && !g.waveActive &&
      g.autoWaveTimer == old(g.autoWaveTimer) && g.autoWaveBonusPreview == old(g.autoWaveBonusPreview)
    ensures !CountdownHalted(g.stage.wavePlan, g.stageCleared, g.stageFailed, g.lives, old(g.wave)) && g.autoStartWaves == Some(false) ==>
      g.earlyStartStreak == 0 && g.autoWaveBonusPreview == 0 && g.wave == old(g.wave) && !g.waveActive &&
      g.autoWaveTimer == old(g.autoWaveTimer)
    ensures !CountdownHalted(g.stage.wavePlan, g.stageCleared, g.stageFailed, g.lives, old(g.wave)) && g.autoStartWaves != Some(false) && old(g.autoWaveTimer) - dt > 0.0 ==>
      g.autoWaveTimer == old(g.autoWaveTimer) - dt && !g.waveActive && g.wave == old(g.wave) &&
      g.autoWaveBonusPreview == EarlyStartBonus(g.autoStartWaves, false, g.autoWaveTimer, g.wave, g.earlyStartStreak) &&
      g.earlyStartStreak == old(g.earlyStartStreak)
    ensures !CountdownHalted(g.stage.wavePlan, g.stageCleared, g.stageFailed, g.lives, old(g.wave)) && g.autoStartWaves != Some(false) && old(g.autoWaveTimer) - dt <= 0.0 ==>
      g.waveActive && g.wave == old(g.wave) + 1 && WaveQueue(g.stage.wavePlan, g.wave, g.spawnQueue) &&
      g.earlyStartStreak == old(g.earlyStartStreak) && g.spawnTimer == 0.0
    ensures unchanged(g`stageCleared, g`stageFailed, g`lives, g`fishes)
  {
    if g.stageCleared || g.stageFailed || g.lives <= 0 {
      return;
    }
    if HasMaxWaves(g.stage.wavePlan) && g.wave >= g.stage.wavePlan.maxWaves.value {
      return;
    }
    if g.autoStartWaves == Some(false) {
      g.autoWaveBonusPreview := 0;
      g.earlyStartStreak := 0;
      return;
    }
    RunDown(g, dt);
  }

  /** The running part of `Countdown`: the timer drops by `dt` (not below 0),
      the preview shows the bonus, and at 0 the wave starts without one. */
  method RunDown(g: Game, dt: real)
    requires g.Valid() && !g.waveActive && g.autoStartWaves != Some(false)
    requires !CountdownHalted(g.stage.wavePlan, g.stageCleared, g.stageFailed, g.lives, g.wave)
    modifies g`gold, g`earlyStartStreak, g`wave, g`spawnQueue, g`spawnTimer, g`waveActive,
             g`autoWaveTimer, g`autoWaveDelayTotal, g`autoWaveBonusPreview
    ensures g.Valid() && g.gold == old(g.gold) && g.earlyStartStreak == old(g.earlyStartStreak)
    ensures old(g.autoWaveTimer) - dt > 0.0 ==>
      g.autoWaveTimer == old(g.autoWaveTimer) - dt && !g.waveActive && g.wave == old(g.wave) &&
      g.autoWaveBonusPreview == EarlyStartBonus(g.autoStartWaves, false, g.autoWaveTimer, g.wave, g.earlyStartStreak)
    ensures old(g.autoWaveTimer) - dt <= 0.0 ==>
      g.waveActive && g.wave == old(g.wave) + 1 && WaveQueue(g.stage.wavePlan, g.wave, g.spawnQueue) && g.spawnTimer == 0.0
  {
    g.autoWaveTimer := Max(0.0, g.autoWaveTimer - dt);
    g.autoWaveBonusPreview := EarlyStartBonus(g.autoStartWaves, g.waveActive, g.autoWaveTimer, g.wave, g.earlyStartStreak);
    if g.autoWaveTimer <= 0.0 {
      StartNextWave(g, false);
    }
  }

  /** The spawn delay after releasing `kind`: fixed after the boss,
      otherwise the base delay plus `roll` times the jitter. */
  function SpawnDelay(plan: WavePlan, kind: string, roll: real): real {
    if kind == BossKind(plan) then plan.spawnTiming.bossFixed.GetOr(1.2)
    else plan.spawnTiming.normalBase.GetOr(0.45) + roll * plan.spawnTiming.normalJitter.GetOr(0.25)
  }

  /** During a wave, one tick of the spawn clock: with fish queued the clock
      runs down by `dt`, and once it reaches 0 the front of the queue spawns
      (one fish, no more) and the clock is re-armed. */
  method SpawnNext(g: Game, dt: real) returns (ghost roll: real)
    requires g.Valid()
    modifies g`spawnQueue, g`spawnTimer, g`fishes, g`nextFishId
    ensures g.Valid() && 0.0 <= roll < 1.0
    ensures old(g.spawnQueue) == [] ==> g.spawnQueue == [] && g.fishes == old(g.fishes) && g.spawnTimer == old(g.spawnTimer)
    ensures old(g.spawnQueue) != [] && old(g.spawnTimer) - dt > 0.0 ==>
      g.spawnQueue == old(g.spawnQueue) && g.fishes == old(g.fishes) && g.spawnTimer == old(g.spawnTimer) - dt
    ensures old(g.spawnQueue) != [] && old(g.spawnTimer) - dt <= 0.0 ==>
      var kind := old(g.spawnQueue)[0];
      g.spawnQueue == old(g.spawnQueue)[1..] &&
      g.fishes == old(g.fishes) + [NewFish(g.fishCatalog[kind], kind, NoOverrides, g.pathPoints, old(g.nextFishId))] &&
      g.spawnTimer == SpawnDelay(g.stage.wavePlan, kind, roll)
  {
    roll := 0.0;
    if |g.spawnQueue| > 0 {
      g.spawnTimer := g.spawnTimer - dt;
      if g.spawnTimer <= 0.0 {
        var kind := g.spawnQueue[0];
        g.spawnQueue := g.spawnQueue[1..];
        SpawnFish(g, kind, NoOverrides);
        var r := Random();
        roll := r;
        g.spawnTimer := SpawnDelay(g.stage.wavePlan, kind, r);
      }
    }
  }

  /** The plan's last wave is done. */
  predicate PlanFinished(plan: WavePlan, wave: int) {
    HasMaxWaves(plan) && wave >= plan.maxWaves.value
  }

  /** A wave whose queue and field are empty ends. After the plan's last
      wave the stage is settled by the clear verdict (exactly one of cleared
      and failed); otherwise the countdown to the next wave is re-armed. */
  method FinishWave(g: Game)
    modifies g`waveActive, g`stageCleared, g`stageFailed, g`stageFailReason,
             g`autoWaveTimer, g`autoWaveDelayTotal, g`autoWaveBonusPreview
    ensures !g.waveActive
    ensures PlanFinished(g.stage.wavePlan, g.wave) ==>
      var v := EvaluateStageClearConditions(Some(g.stage), g.lives, g.maxLives, g.kills, g.towersPlaced);
      g.stageCleared == v.ok && g.stageFailed == !v.ok &&
      (!v.ok ==> g.stageFailReason == v.reason) && (v.ok ==> g.stageFailReason == old(g.stageFailReason)) &&
      g.autoWaveTimer == old(g.autoWaveTimer) && g.autoWaveBonusPreview == old(g.autoWaveBonusPreview)
    ensures !PlanFinished(g.stage.wavePlan, g.wave) ==>
      g.stageCleared == old(g.stageCleared) && g.stageFailed == old(g.stageFailed) &&
      g.stageFailReason == old(g.stageFailReason) &&
      g.autoWaveTimer == AutoWaveDelay(g.stage.wavePlan) && g.autoWaveDelayTotal == AutoWaveDelay(g.stage.wavePlan) &&
      g.autoWaveBonusPreview == EarlyStartBonus(g.autoStartWaves, false, g.autoWaveTimer, g.wave, g.earlyStartStreak)
  {
    g.waveActive := false;
    if PlanFinished(g.stage.wavePlan, g.wave) {
      var v := EvaluateStageClearConditions(Some(g.stage), g.lives, g.maxLives, g.kills, g.towersPlaced);
      if v.ok {
        g.stageCleared := true;
        g.stageFailed := false;
      } else {
        g.stageCleared := false;
        g.stageFailed := true;
        g.stageFailReason := v.reason;
      }
    } else {
      g.autoWaveTimer := AutoWaveDelay(g.stage.wavePlan);
      g.autoWaveDelayTotal := AutoWaveDelay(g.stage.wavePlan);
      g.autoWaveBonusPreview := EarlyStartBonus(g.autoStartWaves, g.waveActive, g.autoWaveTimer, g.wave, g.earlyStartStreak);
    }
  }

  /** What `Countdown` promises of a tick between waves, from the state
      before the tick to the state after it. */
  twostate predicate CountedDown(g: Game, dt: real)
    reads g
  {
    var halted := CountdownHalted(g.stage.wavePlan, g.stageCleared, g.stageFailed, g.lives, old(g.wave));
    g.gold == old(g.gold) &&
    (halted ==>
      g.earlyStartStreak == old(g.earlyStartStreak) && g.wave == old(g.wave) && !g.waveActive &&
      g.autoWaveTimer == old(g.autoWaveTimer) && g.autoWaveBonusPreview == old(g.autoWaveBonusPreview)) &&
    (!halted && g.autoStartWaves == Some(false) ==>
      g.earlyStartStreak == 0 && g.autoWaveBonusPreview == 0 && g.wave == old(g.wave) && !g.waveActive &&
      g.autoWaveTimer == old(g.autoWaveTimer)) &&
    (!halted && g.autoStartWaves != Some(false) && old(g.autoWaveTimer) - dt > 0.0 ==>
      g.autoWaveTimer == old(g.autoWaveTimer) - dt && !g.waveActive && g.wave == old(g.wave) &&
      g.autoWaveBonusPreview == EarlyStartBonus(g.autoStartWaves, false, g.autoWaveTimer, g.wave, g.earlyStartStreak) &&
      g.earlyStartStreak == old(g.earlyStartStreak)) &&
    (!halted && g.autoStartWaves != Some(false) && old(g.autoWaveTimer) - dt <= 0.0 ==>
      g.waveActive && g.wave == old(g.wave) + 1 && WaveQueue(g.stage.wavePlan, g.wave, g.spawnQueue) &&
      g.earlyStartStreak == old(g.earlyStartStreak) && g.spawnTimer == 0.0)
  }

  /** What `SpawnNext` promises of one tick of the spawn clock, with `roll`
      the random draw for the next delay. */
  twostate predicate SpawnTicked(g: Game, dt: real, roll: real)
    reads g
  {
    0.0 <= roll < 1.0 &&
    (old(g.spawnQueue) == [] ==> g.spawnQueue == [] && g.fishes == old(g.fishes) && g.spawnTimer == old(g.spawnTimer)) &&
    (old(g.spawnQueue) != [] && old(g.spawnTimer) - dt > 0.0 ==>
      g.spawnQueue == old(g.spawnQueue) && g.fishes == old(g.fishes) && g.spawnTimer == old(g.spawnTimer) - dt) &&
    (old(g.spawnQueue) != [] && old(g.spawnTimer) - dt <= 0.0 ==>
      var kind := old(g.spawnQueue)[0];
      g.spawnQueue == old(g.spawnQueue)[1..] && kind in g.fishCatalog && |g.pathPoints| >= 1 &&
      g.fishes == old(g.fishes) + [NewFish(g.fishCatalog[kind], kind, NoOverrides, g.pathPoints, old(g.nextFishId))] &&
      g.spawnTimer == SpawnDelay(g.stage.wavePlan, kind, roll))
  }

  /** What `FinishWave` promises when a wave ends: after the plan's last wave
      the clear verdict settles the stage, otherwise the countdown is re-armed. */
  twostate predicate WaveClosed(g: Game)
    reads g
  {
    !g.waveActive &&
    (PlanFinished(g.stage.wavePlan, g.wave) ==>
      var v := EvaluateStageClearConditions(Some(g.stage), g.lives, g.maxLives, g.kills, g.towersPlaced);
      g.stageCleared == v.ok && g.stageFailed == !v.ok &&
      (!v.ok ==> g.stageFailReason == v.reason) && (v.ok ==> g.stageFailReason == old(g.stageFailReason)) &&
      g.autoWaveTimer == old(g.autoWaveTimer) && g.autoWaveBonusPreview == old(g.autoWaveBonusPreview)) &&
    (!PlanFinished(g.stage.wavePlan, g.wave) ==>
      g.stageCleared == old(g.stageCleared) && g.stageFailed == old(g.stageFailed) &&
      g.stageFailReason == old(g.stageFailReason) &&
      g.autoWaveTimer == AutoWaveDelay(g.stage.wavePlan) && g.autoWaveDelayTotal == AutoWaveDelay(g.stage.wavePlan) &&
      g.autoWaveBonusPreview == EarlyStartBonus(g.autoStartWaves, false, g.autoWaveTimer, g.wave, g.earlyStartStreak))
  }

  /** The wave half of `updateSpawning`: the spawn clock ticks, as
      `SpawnNext` promises, and the wave ends exactly when the queue and the
      field are both empty, then as `FinishWave` promises. */
  method WaveTick(g: Game, dt: real) returns (ghost roll: real)
    requires g.Valid() && g.waveActive
    modifies g`spawnQueue, g`spawnTimer, g`waveActive, g`autoWaveTimer, g`autoWaveDelayTotal, g`autoWaveBonusPreview,
             g`fishes, g`nextFishId, g`stageCleared, g`stageFailed, g`stageFailReason
    ensures g.Valid() && SpawnTicked(g, dt, roll)
    ensures !g.waveActive <==> g.spawnQueue == [] && g.fishes == []
    ensures g.waveActive ==>
      g.stageCleared == old(g.stageCleared) && g.stageFailed == old(g.stageFailed) &&
      g.autoWaveTimer == old(g.autoWaveTimer) && g.autoWaveBonusPreview == old(g.autoWaveBonusPreview)
    ensures !g.waveActive ==> WaveClosed(g)
  {
    roll := SpawnNext(g, dt);
    if |g.spawnQueue| == 0 && |g.fishes| == 0 {
      FinishWave(g);
    }
  }

  /** `updateSpawning`. Between waves it runs the countdown, as `Countdown`
      promises. During a wave it ticks the spawn clock, as `SpawnNext`
      promises, releasing at most one fish from the front of the queue; the
      wave ends exactly when the queue and the field are both empty, and then
      as `FinishWave` promises. */
  method UpdateSpawning(g: Game, dt: real) returns (ghost roll: real)
    requires g.Valid()
    modifies g`gold, g`earlyStartStreak, g`wave, g`spawnQueue, g`spawnTimer, g`waveActive,
             g`autoWaveTimer, g`autoWaveDelayTotal, g`autoWaveBonusPreview, g`fishes, g`nextFishId,
             g`stageCleared, g`stageFailed, g`stageFailReason
    ensures g.Valid()
    ensures g.Record() == old(g.Record())
    ensures !old(g.waveActive) ==> CountedDown(g, dt) && g.fishes == old(g.fishes) &&
                                   g.stageCleared == old(g.stageCleared) && g.stageFailed == old(g.stageFailed)
    ensures old(g.waveActive) ==>
      SpawnTicked(g, dt, roll) && g.wave == old(g.wave) && g.gold == old(g.gold) &&
      g.earlyStartStreak == old(g.earlyStartStreak) && (!g.waveActive <==> g.spawnQueue == [] && g.fishes == [])
    ensures old(g.waveActive) && g.waveActive ==>
      g.stageCleared == old(g.stageCleared) && g.stageFailed == old(g.stageFailed) &&
      g.autoWaveTimer == old(g.autoWaveTimer) && g.autoWaveBonusPreview == old(g.autoWaveBonusPreview)
    ensures old(g.waveActive) && !g.waveActive ==> WaveClosed(g)
    ensures old(g.waveActive) && !g.waveActive && PlanFinished(g.stage.wavePlan, g.wave) ==>
      g.stageCleared != g.stageFailed &&
      g.stageCleared == EvaluateStageClearConditions(Some(g.stage), g.lives, g.maxLives, g.kills, g.towersPlaced).ok
  {
    roll := 0.0;
    if !g.waveActive {
      Countdown(g, dt);
      return;
    }
    roll := WaveTick(g, dt);
  }
}
