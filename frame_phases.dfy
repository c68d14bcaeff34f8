/** What one frame's spawning and combat phases do to the board, stated over
    values: the ghost records the phases keep, and the relations between the
    board before and after each phase. */
module FramePhases {
  import opened Common
  import opened GameState
  import opened FishFactory
  import opened CombatSystem

  /** The ghost record of the shooting half of a frame: each tower's volley,
      aim and double-shot roll, then, bullet by bullet, the fish list it met,
      its fate, its crit roll, its splash rolls and the fish it killed. */
  datatype ShotLog = ShotLog(volleys: seq<seq<Bullet>>, aims: seq<Option<nat>>, towerRolls: seq<real>,
                             lists: seq<seq<Fish>>, fates: seq<Option<Bullet>>, crits: seq<real>,
                             splashRolls: seq<seq<real>>, deads: seq<seq<Fish>>)

  /** The ghost record of the fish half of a frame: the list after every
      fish's turn, the positions kept, each fish as its turn met it and how
      the turn ended. */
  datatype SwimLog = SwimLog(passed: seq<Fish>, idx: seq<nat>, turns: seq<Fish>, fates: seq<TickFate>)

  /** Tower `k`'s turn against the fish list `fishes0`, as the log keeps it. */
  ghost predicate TowerAt(hypot: (real, real) -> real, fishes0: seq<Fish>, dt: real, towers0: seq<Tower>,
                          towers: seq<Tower>, log: ShotLog, k: nat)
  {
    k < |towers0| && k < |towers| && k < |log.volleys| && k < |log.aims| && k < |log.towerRolls| &&
    TowerTurn(hypot, fishes0, towers0[k], dt, towers[k], log.volleys[k], log.aims[k], log.towerRolls[k])
  }

  /** Bullet `j`'s turn, of the bullets `bs` in flight: it meets the fish
      list `lists[j]` and leaves `lists[j + 1]`, as the log keeps it. */
  ghost predicate BulletAt(hypot: (real, real) -> real, dt: real, bs: seq<Bullet>, log: ShotLog, j: nat) {
    j < |bs| && j + 1 < |log.lists| && j < |log.fates| && j < |log.crits| && j < |log.splashRolls| && j < |log.deads| &&
    BulletTurn(hypot, log.lists[j], bs[j], dt, log.lists[j + 1], log.fates[j], log.crits[j], log.splashRolls[j], log.deads[j])
  }

  /** Towers, then bullets, from fish `fishes0`, towers `towers0`, bullets
      `bullets0` and kill counters `c0`: every tower takes its turn against
      `fishes0`; every bullet then in flight (the old ones, then the new
      volleys in tower order) takes its turn against the fish list its
      predecessors left, which ends as `fishes`; the bullets left are the
      survivors, and the counters have paid for every fish the bullets killed. */
  ghost predicate Shot(hypot: (real, real) -> real, dt: real, fishes0: seq<Fish>, towers0: seq<Tower>,
                       bullets0: seq<Bullet>, c0: Tally, log: ShotLog,
                       towers: seq<Tower>, bullets: seq<Bullet>, fishes: seq<Fish>, c: Tally)
  {
    |towers0| == |towers| == |log.volleys| == |log.aims| == |log.towerRolls| &&
    (forall k: nat :: k < |towers0| ==> TowerAt(hypot, fishes0, dt, towers0, towers, log, k)) &&
    var bs := bullets0 + Flatten(log.volleys);
    |log.lists| == |bs| + 1 && |log.fates| == |log.crits| == |log.splashRolls| == |log.deads| == |bs| &&
    (forall j: nat :: j < |bs| ==> BulletAt(hypot, dt, bs, log, j)) &&
    log.lists[0] == fishes0 && log.lists[|bs|] == fishes &&
    bullets == Survivors(log.fates) && c == Paid(c0, Flatten(log.deads))
  }

  /** `Shot` gathers what `updateTowers` and `updateBullets` promise, tower by
      tower and bullet by bullet. */
  lemma ShotOf(hypot: (real, real) -> real, dt: real, fishes0: seq<Fish>, towers0: seq<Tower>,
               bullets0: seq<Bullet>, c0: Tally, log: ShotLog,
               towers: seq<Tower>, bullets: seq<Bullet>, fishes: seq<Fish>, c: Tally)
    requires AllTurns(hypot, fishes0, dt, towers0, towers, log.volleys, log.aims, log.towerRolls)
    requires var bs := bullets0 + Flatten(log.volleys);
      |log.fates| == |bs| && AllFates(hypot, log.lists, bs, dt, log.fates, log.crits, log.splashRolls, log.deads) &&
      log.lists[0] == fishes0 && log.lists[|bs|] == fishes
    requires bullets == Survivors(log.fates) && c == Paid(c0, Flatten(log.deads))
    ensures Shot(hypot, dt, fishes0, towers0, bullets0, c0, log, towers, bullets, fishes, c)
  {
    forall k: nat | k < |towers0|
      ensures TowerAt(hypot, fishes0, dt, towers0, towers, log, k)
    {
    }
    var bs := bullets0 + Flatten(log.volleys);
    forall j: nat | j < |bs|
      ensures BulletAt(hypot, dt, bs, log, j)
    {
    }
  }

  /** Fish `j`'s turn in the fish half of a frame from fish list `before`:
      it is met as `turns[j]` (as it stood, for the fish present at the
      start), ends its turn as `FateOf` says, moves along the path unless it
      died, and is kept exactly when it neither died nor leaked. */
  ghost predicate SwamAt(hypot: (real, real) -> real, pathPoints: seq<Point>, dt: real, before: seq<Fish>,
                         log: SwimLog, j: nat)
  {
    j < |log.turns| == |log.fates| == |log.passed| &&
    (j < |before| ==> log.turns[j] == before[j]) &&
    log.fates[j] == FateOf(pathPoints, log.turns[j], dt) &&
    (!log.fates[j].Died? ==> log.passed[j] == Advanced(hypot, pathPoints, Ticked(log.turns[j], dt), dt)) &&
    (log.fates[j].Stayed? <==> j in log.idx)
  }

  /** Place `j` of the kept list: the fish after its turn at position
      `idx[j]`, after the one before it, and alive. */
  ghost predicate KeptAt(log: SwimLog, after: seq<Fish>, j: nat) {
    j < |log.idx| == |after| && log.idx[j] < |log.passed| && after[j] == log.passed[log.idx[j]] &&
    after[j].hp > 0.0 && (j > 0 ==> log.idx[j - 1] < log.idx[j])
  }

  /** The fish half of a frame from fish list `before` to `after`: every
      fish, those present at the start first, takes its turn as `SwamAt`
      says; the kept fish are, in order, the ones whose turn kept them; and
      every fish that leaked was alive on the last path point. */
  ghost predicate Swum(hypot: (real, real) -> real, pathPoints: seq<Point>, dt: real, before: seq<Fish>,
                       log: SwimLog, after: seq<Fish>)
  {
    |before| <= |log.passed| && |log.turns| == |log.passed| && |log.fates| == |log.passed| && |log.idx| == |after| &&
    (forall j: nat :: j < |log.passed| ==> SwamAt(hypot, pathPoints, dt, before, log, j)) &&
    (forall j: nat :: j < |after| ==> KeptAt(log, after, j)) &&
    (forall f :: f in Leakers(log.turns, log.fates) ==> f.hp > 0.0 && Leaks(pathPoints, f))
  }

  /** `Swum` gathers what `updateFishes` promises fish by fish. */
  lemma SwumOf(hypot: (real, real) -> real, pathPoints: seq<Point>, dt: real, before: seq<Fish>,
               log: SwimLog, after: seq<Fish>)
    requires Picks(log.passed, log.idx, after)
    requires |before| <= |log.passed| && |log.turns| == |log.passed| && |log.fates| == |log.passed|
    requires forall j :: 0 <= j < |before| ==> log.turns[j] == before[j]
    requires forall j :: 0 <= j < |log.turns| ==> log.fates[j] == FateOf(pathPoints, log.turns[j], dt)
    requires forall j :: 0 <= j < |log.turns| && !log.fates[j].Died? ==>
      log.passed[j] == Advanced(hypot, pathPoints, Ticked(log.turns[j], dt), dt)
    requires forall j :: 0 <= j < |log.fates| ==> (log.fates[j].Stayed? <==> j in log.idx)
    requires forall j :: 0 <= j < |after| ==> after[j].hp > 0.0
    requires forall f :: f in Leakers(log.turns, log.fates) ==> f.hp > 0.0 && Leaks(pathPoints, f)
    ensures Swum(hypot, pathPoints, dt, before, log, after)
  {
    forall j: nat | j < |log.passed|
      ensures SwamAt(hypot, pathPoints, dt, before, log, j)
    {
    }
    forall j: nat | j < |after|
      ensures KeptAt(log, after, j)
    {
      if j > 0 {
        assert log.idx[j - 1] < log.idx[j];
      }
    }
  }

  /** The part of the game state the combat phase plays on: fish, towers,
      bullets, lives and kill counters. */
  datatype Board = Board(fishes: seq<Fish>, towers: seq<Tower>, bullets: seq<Bullet>, lives: int, counters: Tally)

  function BoardOf(g: Game): (b: Board)
    reads g
    ensures b.fishes == g.fishes && b.lives == g.lives && b.counters == g.Counters()
  {
    Board(g.fishes, g.towers, g.bullets, g.lives, g.Counters())
  }

  /** The combat phase from board `start` to board `end`: the shooting half
      leaves the fish list `mid`, the fish half starts from `mid`, lives pay
      the damage of the fish that leaked, and the counters pay for the fish
      the bullets killed, then for the fish the burns killed. */
  ghost predicate Fought(hypot: (real, real) -> real, pathPoints: seq<Point>, dt: real, start: Board,
                         shot: ShotLog, mid: seq<Fish>, swim: SwimLog, end: Board)
  {
    var paid := Paid(start.counters, Flatten(shot.deads));
    Shot(hypot, dt, start.fishes, start.towers, start.bullets, start.counters, shot, end.towers, end.bullets, mid, paid) &&
    Swum(hypot, pathPoints, dt, mid, swim, end.fishes) &&
    end.lives == start.lives - Damages(Leakers(swim.turns, swim.fates)) &&
    end.counters == Paid(paid, Casualties(swim.turns, swim.fates))
  }

  /** The fish list the spawning phase leaves: one new fish of the queue's
      first kind, with the next id, is appended exactly when a wave is
      running, its queue is not empty and the spawn clock runs out; otherwise
      the list is as it was. */
  ghost predicate SpawnPhase(catalog: map<string, FishTemplate>, pathPoints: seq<Point>, waveActive: bool,
                          queue: seq<string>, timer: real, nextId: nat, dt: real, fishes0: seq<Fish>, fishes: seq<Fish>)
  {
    if waveActive && queue != [] && timer - dt <= 0.0 then
      queue[0] in catalog && |pathPoints| >= 1 &&
      fishes == fishes0 + [NewFish(catalog[queue[0]], queue[0], NoOverrides, pathPoints, nextId)]
    else fishes == fishes0
  }
}
