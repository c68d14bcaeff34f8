/** The pure helpers of the game shell: cleaning persisted settings and
    progress, the clear-condition verdict of a finished stage, its stars and
    reward, and the order in which stages unlock. */
module StageProgress {
  import opened Common
  import opened GameState

  // ===== persisted values ========================================================

  /** A JavaScript number: finite, NaN, or an infinity. */
  datatype Num = Finite(value: real) | NaN | Infinity(positive: bool)

  /** A value read back from storage (parsed JSON, or whatever the native
      bridge hands over). */
  datatype Json =
    | JNull
    | JBool(b: bool)
    | JNum(n: Num)
    | JStr(s: string)
    | JArr(items: seq<Json>)
    | JObj(fields: map<string, Json>)

  /** `obj.key` on a stored value: present only on an object that has it. */
  function Field(raw: Option<Json>, key: string): (r: Option<Json>)
    ensures r.Some? ==> raw.Some? && raw.value.JObj? && key in raw.value.fields
  {
    if raw.Some? && raw.value.JObj? && key in raw.value.fields then Some(raw.value.fields[key]) else None
  }

  /** `Number(v)`. Parsing a string is the oracle `strNum`; arrays and
      objects read as NaN. */
  function ToNumber(v: Option<Json>, strNum: string -> Num): Num {
    if v.None? then NaN
    else match v.value
      case JNull => Finite(0.0)
      case JBool(b) => Finite(if b then 1.0 else 0.0)
      case JNum(n) => n
      case JStr(s) => strNum(s)
      case _ => NaN
  }

  /** `Boolean(v)`: JavaScript truthiness. */
  predicate Truthy(v: Json) {
    match v
    case JNull => false
    case JBool(b) => b
    case JNum(n) => n.Infinity? || (n.Finite? && n.value != 0.0)
    case JStr(s) => s != []
    case _ => true
  }

  /** `v ?? fallback` on a stored field: null counts as missing. */
  function Coalesce(v: Option<Json>, fallback: Json): Json {
    if v.Some? && !v.value.JNull? then v.value else fallback
  }

  /** `clamp01`: a finite number clamped into [0, 1], otherwise the fallback. */
  function Clamp01(v: Num, fallback: real): (r: real)
    ensures v.Finite? ==> 0.0 <= r <= 1.0
    ensures v.Finite? && 0.0 <= v.value <= 1.0 ==> r == v.value
    ensures !v.Finite? ==> r == fallback
  {
    if v.Finite? then Max(0.0, Min(1.0, v.value)) else fallback
  }

  // ===== settings ================================================================

  datatype Settings = Settings(audioMuted: bool, bgmVolume: real, sfxVolume: real,
                               showDamageText: bool, fxDensity: string, showTowerPanel: bool)

  const Densities: set<string> := {"低", "中", "高"}

  /** Settings the game itself could have written: volumes in [0, 1] and a
      known effect density. */
  predicate SettingsOk(s: Settings) {
    0.0 <= s.bgmVolume <= 1.0 && 0.0 <= s.sfxVolume <= 1.0 && s.fxDensity in Densities
  }

  /** `sanitizeSettings`: whatever was stored, the result has a known effect
      density and volumes in [0, 1] (or the default volume), and a show-flag
      is off only when stored as literally `false`. */
  function SanitizeSettings(raw: Option<Json>, defaultBgm: real, defaultSfx: real, strNum: string -> Num): (r: Settings)
    ensures r.fxDensity in Densities
    ensures (0.0 <= r.bgmVolume <= 1.0) || r.bgmVolume == defaultBgm
    ensures (0.0 <= r.sfxVolume <= 1.0) || r.sfxVolume == defaultSfx
    ensures !r.showDamageText <==> Field(raw, "showDamageText") == Some(JBool(false))
    ensures !r.showTowerPanel <==> Field(raw, "showTowerPanel") == Some(JBool(false))
    ensures raw.None? ==> r == Settings(false, defaultBgm, defaultSfx, true, "中", true)
  {
    var fx := Field(raw, "fxDensity");
    Settings(
      Truthy(Coalesce(Field(raw, "audioMuted"), JBool(false))),
      Clamp01(ToNumber(Field(raw, "bgmVolume"), strNum), defaultBgm),
      Clamp01(ToNumber(Field(raw, "sfxVolume"), strNum), defaultSfx),
      Field(raw, "showDamageText") != Some(JBool(false)),
      if fx.Some? && fx.value.JStr? && fx.value.s in Densities then fx.value.s else "中",
      Field(raw, "showTowerPanel") != Some(JBool(false)))
  }

  /** What `persistSettings` stores. */
  function SettingsJson(s: Settings): Json {
    JObj(map["audioMuted" := JBool(s.audioMuted), "bgmVolume" := JNum(Finite(s.bgmVolume)),
             "sfxVolume" := JNum(Finite(s.sfxVolume)), "showDamageText" := JBool(s.showDamageText),
             "fxDensity" := JStr(s.fxDensity), "showTowerPanel" := JBool(s.showTowerPanel)])
  }

  /** Stored settings read back unchanged. */
  lemma SettingsRoundTrip(s: Settings, defaultBgm: real, defaultSfx: real, strNum: string -> Num)
    requires SettingsOk(s)
    ensures SanitizeSettings(Some(SettingsJson(s)), defaultBgm, defaultSfx, strNum) == s
  {
    var raw := Some(SettingsJson(s));
    assert Field(raw, "bgmVolume") == Some(JNum(Finite(s.bgmVolume)));
    assert Field(raw, "sfxVolume") == Some(JNum(Finite(s.sfxVolume)));
    assert Field(raw, "fxDensity") == Some(JStr(s.fxDensity));
    assert Field(raw, "audioMuted") == Some(JBool(s.audioMuted));
  }

  /** Cleaning settings twice changes nothing more than cleaning once (when
      the default volumes are themselves in range). */
  lemma SanitizeSettingsIdempotent(raw: Option<Json>, defaultBgm: real, defaultSfx: real, strNum: string -> Num)
    requires 0.0 <= defaultBgm <= 1.0 && 0.0 <= defaultSfx <= 1.0
    ensures var s := SanitizeSettings(raw, defaultBgm, defaultSfx, strNum);
      SanitizeSettings(Some(SettingsJson(s)), defaultBgm, defaultSfx, strNum) == s
  {
    SettingsRoundTrip(SanitizeSettings(raw, defaultBgm, defaultSfx, strNum), defaultBgm, defaultSfx, strNum);
  }

  // ===== progress ================================================================

  datatype Progress = Progress(stars: map<string, int>, unlockedStages: seq<string>,
                               bestScores: map<string, int>, seenFish: seq<string>, seenTowers: seq<string>)

  const EndlessStage := "endless_default"
  const FirstStage := "stage_shallow_intro"

  /** `Object.entries(v ?? {})` of a stored object (any other value has none). */
  function Entries(v: Option<Json>): map<string, Json> {
    if v.Some? && v.value.JObj? then v.value.fields else map[]
  }

  /** A stored array's items (`Array.isArray(v) ? v : []`). */
  function Items(v: Option<Json>): seq<Json> {
    if v.Some? && v.value.JArr? then v.value.items else []
  }

  /** The string items, in order. */
  function Strings(items: seq<Json>): (r: seq<string>)
    ensures forall s :: s in r <==> JStr(s) in items
  {
    if items == [] then []
    else
      var rest := Strings(items[..|items| - 1]);
      assert items == items[..|items| - 1] + [items[|items| - 1]];
      if items[|items| - 1].JStr? then rest + [items[|items| - 1].s] else rest
  }

  /** The string items naming a known stage, in order. */
  function KnownStages(items: seq<Json>, known: set<string>): (r: seq<string>)
    ensures forall s :: s in r <==> JStr(s) in items && s in known
  {
    if items == [] then []
    else
      var rest := KnownStages(items[..|items| - 1], known);
      var last := items[|items| - 1];
      assert items == items[..|items| - 1] + [last];
      if last.JStr? && last.s in known then rest + [last.s] else rest
  }

  predicate NoDuplicates<T(==)>(s: seq<T>) {
    forall i, j :: 0 <= i < j < |s| ==> s[i] != s[j]
  }

  /** `[...new Set(s)]`: first occurrences, in order. */
  function Dedup(s: seq<string>): (r: seq<string>)
    ensures NoDuplicates(r) && forall x :: x in r <==> x in s
  {
    if s == [] then []
    else
      var d := Dedup(s[..|s| - 1]);
      assert s == s[..|s| - 1] + [s[|s| - 1]];
      if s[|s| - 1] in d then d else d + [s[|s| - 1]]
  }

  lemma {:induction false} DedupUnique(s: seq<string>)
    requires NoDuplicates(s)
    ensures Dedup(s) == s
  {
    if s != [] {
      var init := s[..|s| - 1];
      assert NoDuplicates(init);
      DedupUnique(init);
      assert s[|s| - 1] !in init;
      assert s == init + [s[|s| - 1]];
    }
  }

  /** The rename applied to every seen fish id. */
  function MigrateFishId(id: string): string {
    if id == "tunaMedium" then "oarfish" else id
  }

  function MapSeq(s: seq<string>, f: string -> string): (r: seq<string>)
    ensures |r| == |s| && forall j :: 0 <= j < |s| ==> r[j] == f(s[j])
  {
    if s == [] then [] else MapSeq(s[..|s| - 1], f) + [f(s[|s| - 1])]
  }

  /** A star count clamped into 0..3. */
  function StarValue(n: real): (r: int)
    ensures 0 <= r <= 3
  {
    MaxInt(0, MinInt(3, Floor(n)))
  }

  /** The stored star counts: finite entries only, clamped into 0..3. */
  function StarMap(entries: map<string, Json>, strNum: string -> Num): (r: map<string, int>)
    ensures forall k :: k in r <==> k in entries && ToNumber(Some(entries[k]), strNum).Finite?
    ensures forall k :: k in r ==> 0 <= r[k] <= 3
  {
    map k | k in entries && ToNumber(Some(entries[k]), strNum).Finite? :: StarValue(ToNumber(Some(entries[k]), strNum).value)
  }

  /** The stored best scores: finite entries only, as non-negative integers. */
  function ScoreMap(entries: map<string, Json>, strNum: string -> Num): (r: map<string, int>)
    ensures forall k :: k in r <==> k in entries && ToNumber(Some(entries[k]), strNum).Finite?
    ensures forall k :: k in r ==> r[k] >= 0
  {
    map k | k in entries && ToNumber(Some(entries[k]), strNum).Finite? :: MaxInt(0, Floor(ToNumber(Some(entries[k]), strNum).value))
  }

  /** The unlocked list always holds the endless stage (first, when it was
      missing) and the first campaign stage (last, when it was missing). */
  function WithDefaultStages(ids: seq<string>): (r: seq<string>)
    ensures EndlessStage in r && FirstStage in r
    ensures forall x :: x in r <==> x in ids || x == EndlessStage || x == FirstStage
    ensures EndlessStage in ids && FirstStage in ids ==> r == ids
  {
    var a := if EndlessStage in ids then ids else [EndlessStage] + ids;
    if FirstStage in a then a else a + [FirstStage]
  }

  /** The seen fish: strings only, first occurrences, old id renamed. */
  function SeenFishFrom(items: seq<Json>): (r: seq<string>)
    ensures "tunaMedium" !in r
    ensures forall x :: x != "tunaMedium" && JStr(x) in items ==> x in r
    ensures forall x :: x in r ==>
      (JStr(x) in items && x != "tunaMedium") || (x == "oarfish" && JStr("tunaMedium") in items)
  {
    var seen := Dedup(Strings(items));
    var r := MapSeq(seen, MigrateFishId);
    assert forall x :: x != "tunaMedium" && x in seen ==> x in r by {
      forall x | x != "tunaMedium" && x in seen ensures x in r {
        var j :| 0 <= j < |seen| && seen[j] == x;
        assert r[j] == x;
      }
    }
    assert forall x :: x in r ==> (x in seen && x != "tunaMedium") || (x == "oarfish" && "tunaMedium" in seen) by {
      forall x | x in r ensures (x in seen && x != "tunaMedium") || (x == "oarfish" && "tunaMedium" in seen) {
        var j :| 0 <= j < |r| && r[j] == x;
        assert x == MigrateFishId(seen[j]);
      }
    }
    r
  }

  /** `sanitizeProgress`: star counts become integers in 0..3 and
      non-finite ones are dropped; best scores become non-negative integers;
      unlocked stages keep only known stage ids and always include the
      endless and first stages; the seen lists keep only strings, without
      repeats, with the old fish id renamed. */
  function SanitizeProgress(raw: Option<Json>, known: set<string>, strNum: string -> Num): (r: Progress)
    ensures forall k :: k in r.stars <==> (k in Entries(Field(raw, "stars")) &&
                                          ToNumber(Some(Entries(Field(raw, "stars"))[k]), strNum).Finite?)
    ensures forall k :: k in r.stars ==> 0 <= r.stars[k] <= 3
    ensures forall k :: k in r.bestScores <==> (k in Entries(Field(raw, "bestScores")) &&
                                               ToNumber(Some(Entries(Field(raw, "bestScores"))[k]), strNum).Finite?)
    ensures forall k :: k in r.bestScores ==> r.bestScores[k] >= 0
    ensures EndlessStage in r.unlockedStages && FirstStage in r.unlockedStages
    ensures forall x :: x in r.unlockedStages <==>
      (JStr(x) in Items(Field(raw, "unlockedStages")) && x in known) || x == EndlessStage || x == FirstStage
    ensures NoDuplicates(r.seenTowers) && forall x :: x in r.seenTowers <==> JStr(x) in Items(Field(raw, "seenTowers"))
    ensures "tunaMedium" !in r.seenFish
    ensures forall x :: x != "tunaMedium" && JStr(x) in Items(Field(raw, "seenFish")) ==> x in r.seenFish
    ensures forall x :: x in r.seenFish ==>
      (JStr(x) in Items(Field(raw, "seenFish")) && x != "tunaMedium") ||
      (x == "oarfish" && JStr("tunaMedium") in Items(Field(raw, "seenFish")))
  {
    Progress(
      StarMap(Entries(Field(raw, "stars")), strNum),
      WithDefaultStages(KnownStages(Items(Field(raw, "unlockedStages")), known)),
      ScoreMap(Entries(Field(raw, "bestScores")), strNum),
      SeenFishFrom(Items(Field(raw, "seenFish"))),
      Dedup(Strings(Items(Field(raw, "seenTowers")))))
  }

  /** Progress the game itself could have written. */
  predicate ProgressOk(p: Progress, known: set<string>) {
    (forall k :: k in p.stars ==> 0 <= p.stars[k] <= 3) &&
    (forall k :: k in p.bestScores ==> p.bestScores[k] >= 0) &&
    EndlessStage in p.unlockedStages && FirstStage in p.unlockedStages &&
    (forall x :: x in p.unlockedStages ==> x in known) &&
    NoDuplicates(p.seenFish) && "tunaMedium" !in p.seenFish && NoDuplicates(p.seenTowers)
  }

  function NumberMap(m: map<string, int>): map<string, Json> {
    map k | k in m :: JNum(Finite(m[k] as real))
  }

  function StringArray(s: seq<string>): (r: seq<Json>)
    ensures |r| == |s| && forall j :: 0 <= j < |s| ==> r[j] == JStr(s[j])
  {
    if s == [] then [] else StringArray(s[..|s| - 1]) + [JStr(s[|s| - 1])]
  }

  /** What `persistProgress` stores. */
  function ProgressJson(p: Progress): Json {
    JObj(map["stars" := JObj(NumberMap(p.stars)), "unlockedStages" := JArr(StringArray(p.unlockedStages)),
             "bestScores" := JObj(NumberMap(p.bestScores)), "seenFish" := JArr(StringArray(p.seenFish)),
             "seenTowers" := JArr(StringArray(p.seenTowers))])
  }

  lemma StarMapRoundTrip(m: map<string, int>, strNum: string -> Num)
    requires forall k :: k in m ==> 0 <= m[k] <= 3
    ensures StarMap(NumberMap(m), strNum) == m
  {
    var r := StarMap(NumberMap(m), strNum);
    forall k | k in m ensures k in r && r[k] == m[k] {
      assert ToNumber(Some(NumberMap(m)[k]), strNum) == Finite(m[k] as real);
    }
  }

  lemma ScoreMapRoundTrip(m: map<string, int>, strNum: string -> Num)
    requires forall k :: k in m ==> m[k] >= 0
    ensures ScoreMap(NumberMap(m), strNum) == m
  {
    var r := ScoreMap(NumberMap(m), strNum);
    forall k | k in m ensures k in r && r[k] == m[k] {
      assert ToNumber(Some(NumberMap(m)[k]), strNum) == Finite(m[k] as real);
    }
  }

  lemma {:induction false} StringsOfArray(s: seq<string>)
    ensures Strings(StringArray(s)) == s
  {
    if s != [] {
      StringsOfArray(s[..|s| - 1]);
      assert StringArray(s)[..|s| - 1] == StringArray(s[..|s| - 1]);
    }
  }

  lemma {:induction false} KnownStagesOfArray(s: seq<string>, known: set<string>)
    requires forall x :: x in s ==> x in known
    ensures KnownStages(StringArray(s), known) == s
  {
    if s != [] {
      KnownStagesOfArray(s[..|s| - 1], known);
      assert StringArray(s)[..|s| - 1] == StringArray(s[..|s| - 1]);
    }
  }

  lemma SeenFishRoundTrip(s: seq<string>)
    requires NoDuplicates(s) && "tunaMedium" !in s
    ensures SeenFishFrom(StringArray(s)) == s
  {
    StringsOfArray(s);
    DedupUnique(s);
    var m := MapSeq(s, MigrateFishId);
    assert forall j :: 0 <= j < |s| ==> m[j] == s[j];
  }

  /** The five entries `persistProgress` stores, read back by name. */
  lemma ProgressJsonFields(p: Progress)
    ensures var raw := Some(ProgressJson(p));
      Entries(Field(raw, "stars")) == NumberMap(p.stars) &&
      Entries(Field(raw, "bestScores")) == NumberMap(p.bestScores) &&
      Items(Field(raw, "unlockedStages")) == StringArray(p.unlockedStages) &&
      Items(Field(raw, "seenFish")) == StringArray(p.seenFish) &&
      Items(Field(raw, "seenTowers")) == StringArray(p.seenTowers)
  {
  }

  /** Stored progress reads back unchanged. */
  lemma ProgressRoundTrip(p: Progress, known: set<string>, strNum: string -> Num)
    requires ProgressOk(p, known)
    ensures SanitizeProgress(Some(ProgressJson(p)), known, strNum) == p
  {
    ProgressJsonFields(p);
    StarMapRoundTrip(p.stars, strNum);
    ScoreMapRoundTrip(p.bestScores, strNum);
    KnownStagesOfArray(p.unlockedStages, known);
    SeenFishRoundTrip(p.seenFish);
    StringsOfArray(p.seenTowers);
    DedupUnique(p.seenTowers);
  }

  /** The rename runs after removing repeats, so a save that lists both the
      old and the new fish id reads back with the new id twice (the game
      then loads the list into a set, which merges them). */
  lemma RenameAfterDedup()
    ensures SeenFishFrom([JStr("tunaMedium"), JStr("oarfish")]) == ["oarfish", "oarfish"]
  {
    var s := ["tunaMedium", "oarfish"];
    PairStrings("tunaMedium", "oarfish");
    assert s[0][0] != s[1][0];
    DedupUnique(s);
    var m := MapSeq(s, MigrateFishId);
    assert m[0] == "oarfish" && m[1] == "oarfish";
  }

  /** Two string items read back as those two strings. */
  lemma PairStrings(a: string, b: string)
    ensures Strings([JStr(a), JStr(b)]) == [a, b]
  {
    var items := [JStr(a), JStr(b)];
    assert items[..1] == [JStr(a)];
    assert items[..1][..0] == [];
    assert Strings(items[..1]) == [a];
  }

  // ===== stage verdict ===========================================================

  predicate StartsWith(s: string, prefix: string) {
    |prefix| <= |s| && s[..|prefix|] == prefix
  }

  predicate IsEndless(id: string) {
    StartsWith(id, "endless")
  }

  /** The failure one clear condition reports, if it fails. */
  function ConditionFailure(c: ClearCondition, lives: int, maxLives: int, kills: int, towersPlaced: int): Option<ClearFailure> {
    if c.kind == "minLives" && lives < c.value then Some(NotEnoughLives(c.value))
    else if c.kind == "minKills" && kills < c.value then Some(NotEnoughKills(c.value))
    else if c.kind == "maxLeaks" && MaxInt(0, maxLives - lives) > c.value then Some(TooManyLeaks(c.value, MaxInt(0, maxLives - lives)))
    else if c.kind == "maxTowersPlaced" && towersPlaced > c.value then Some(TooManyTowers(c.value, towersPlaced))
    else None
  }

  /** The failures of a list of conditions, in list order. */
  function Failures(conds: seq<ClearCondition>, lives: int, maxLives: int, kills: int, towersPlaced: int): (r: seq<ClearFailure>)
    ensures |r| <= |conds|
    ensures r == [] <==> forall k :: 0 <= k < |conds| ==> ConditionFailure(conds[k], lives, maxLives, kills, towersPlaced).None?
  {
    if conds == [] then []
    else
      var f := ConditionFailure(conds[0], lives, maxLives, kills, towersPlaced);
      var rest := Failures(conds[1..], lives, maxLives, kills, towersPlaced);
      assert forall k :: 1 <= k < |conds| ==> conds[k] == conds[1..][k - 1];
      (if f.Some? then [f.value] else []) + rest
  }

  /** The first reported failure is that of the first failing condition. */
  lemma {:induction false} FirstFailure(conds: seq<ClearCondition>, lives: int, maxLives: int, kills: int, towersPlaced: int)
    requires Failures(conds, lives, maxLives, kills, towersPlaced) != []
    ensures exists k :: (0 <= k < |conds| &&
              ConditionFailure(conds[k], lives, maxLives, kills, towersPlaced) == Some(Failures(conds, lives, maxLives, kills, towersPlaced)[0]) &&
              forall j :: 0 <= j < k ==> ConditionFailure(conds[j], lives, maxLives, kills, towersPlaced).None?)
  {
    var r := Failures(conds, lives, maxLives, kills, towersPlaced);
    if ConditionFailure(conds[0], lives, maxLives, kills, towersPlaced).None? {
      FirstFailure(conds[1..], lives, maxLives, kills, towersPlaced);
      var k :| 0 <= k < |conds[1..]| &&
        ConditionFailure(conds[1..][k], lives, maxLives, kills, towersPlaced) == Some(Failures(conds[1..], lives, maxLives, kills, towersPlaced)[0]) &&
        forall j :: 0 <= j < k ==> ConditionFailure(conds[1..][j], lives, maxLives, kills, towersPlaced).None?;
      assert forall j :: 1 <= j < k + 1 ==> conds[j] == conds[1..][j - 1];
      assert ConditionFailure(conds[k + 1], lives, maxLives, kills, towersPlaced) == Some(r[0]);
    } else {
      assert ConditionFailure(conds[0], lives, maxLives, kills, towersPlaced) == Some(r[0]);
    }
  }

  datatype Verdict = Verdict(ok: bool, reason: Option<ClearFailure>)

  /** `evaluateStageClearConditions`: an endless or missing stage always
      clears; otherwise it clears exactly when no condition fails, and a
      failed verdict names the first failure in list order. */
  function EvaluateStageClearConditions(stage: Option<Stage>, lives: int, maxLives: int, kills: int, towersPlaced: int): (r: Verdict)
    ensures stage.None? || IsEndless(stage.value.id) ==> r.ok
    ensures stage.Some? && !IsEndless(stage.value.id) ==>
      (r.ok <==> forall k :: 0 <= k < |stage.value.wavePlan.clearConditions| ==>
                   ConditionFailure(stage.value.wavePlan.clearConditions[k], lives, maxLives, kills, towersPlaced).None?)
    ensures r.ok <==> r.reason.None?
  {
    if stage.None? || IsEndless(stage.value.id) then Verdict(true, None)
    else
      var fs := Failures(stage.value.wavePlan.clearConditions, lives, maxLives, kills, towersPlaced);
      if fs == [] then Verdict(true, None) else Verdict(false, Some(fs[0]))
  }

  /** A failed verdict's reason is the failure of the first failing condition. */
  lemma VerdictReason(stage: Stage, lives: int, maxLives: int, kills: int, towersPlaced: int)
    requires !EvaluateStageClearConditions(Some(stage), lives, maxLives, kills, towersPlaced).ok
    ensures var conds := stage.wavePlan.clearConditions;
      exists k :: 0 <= k < |conds| &&
        Some(EvaluateStageClearConditions(Some(stage), lives, maxLives, kills, towersPlaced).reason.value) ==
          ConditionFailure(conds[k], lives, maxLives, kills, towersPlaced) &&
        forall j :: 0 <= j < k ==> ConditionFailure(conds[j], lives, maxLives, kills, towersPlaced).None?
  {
    FirstFailure(stage.wavePlan.clearConditions, lives, maxLives, kills, towersPlaced);
  }

  // ===== stars, reward and stage order ============================================

  /** Stars for a cleared stage: 3 from 18 lives, 2 from 10, else 1. */
  function Stars(lives: int): (r: int)
    ensures 1 <= r <= 3
    ensures r == 3 <==> lives >= 18
    ensures r == 1 <==> lives < 10
  {
    if lives >= 18 then 3 else if lives >= 10 then 2 else 1
  }

  /** Keeping more lives never earns fewer stars. */
  lemma StarsMonotone(a: int, b: int)
    requires a <= b
    ensures Stars(a) <= Stars(b)
  {
  }

  /** The gold a cleared stage pays. */
  function ClearReward(wave: int, kills: int, stars: int): (r: int)
    ensures wave >= 0 && kills >= 0 && stars >= 1 ==> r >= 60
  {
    40 + wave * 5 + kills + stars * 20
  }

  /** `orderedStageIds`: the catalog's stage ids in catalog order, without
      the endless ones. */
  function OrderedStageIds(ids: seq<string>): (r: seq<string>)
    ensures forall x :: x in r <==> x in ids && !IsEndless(x)
  {
    if ids == [] then []
    else
      var rest := OrderedStageIds(ids[..|ids| - 1]);
      assert ids == ids[..|ids| - 1] + [ids[|ids| - 1]];
      if IsEndless(ids[|ids| - 1]) then rest else rest + [ids[|ids| - 1]]
  }

  /** `indexOf`: the first position of `x`. */
  function IndexOf(s: seq<string>, x: string): (r: Option<nat>)
    ensures r.None? <==> x !in s
    ensures r.Some? ==> r.value < |s| && s[r.value] == x && forall j :: 0 <= j < r.value ==> s[j] != x
  {
    if s == [] then None
    else if s[0] == x then Some(0)
    else
      var r := IndexOf(s[1..], x);
      assert forall j :: 1 <= j < |s| ==> s[j] == s[1..][j - 1];
      if r.None? then None else Some(r.value + 1)
  }

  /** `getNextPlayableStageId`: the campaign stage after `current`; none for
      the last one, an endless stage or an unknown id. */
  function NextPlayableStageId(ids: seq<string>, current: string): (r: Option<string>)
    ensures r.Some? ==> r.value in ids && !IsEndless(r.value)
    ensures r.Some? ==> var o := OrderedStageIds(ids); var k := IndexOf(o, current);
      k.Some? && k.value + 1 < |o| && r.value == o[k.value + 1]
    ensures IsEndless(current) ==> r.None?
    ensures var o := OrderedStageIds(ids); var k := IndexOf(o, current);
      k.Some? && k.value + 1 < |o| ==> r == Some(o[k.value + 1])
  {
    var o := OrderedStageIds(ids);
    var k := IndexOf(o, current);
    if k.None? || k.value + 1 >= |o| then None else Some(o[k.value + 1])
  }

  /** `isStageUnlocked`: endless stages are always open. */
  predicate IsStageUnlocked(id: string, unlocked: set<string>) {
    IsEndless(id) || id in unlocked
  }

  /** The catalog entry for a stage id (`stageCatalog[id]`). */
  function FindStage(catalog: seq<Stage>, id: string): (r: Option<Stage>)
    ensures r.Some? ==> r.value in catalog && r.value.id == id
    ensures r.None? ==> forall s :: s in catalog ==> s.id != id
  {
    if catalog == [] then None
    else if catalog[0].id == id then Some(catalog[0])
    else
      assert forall s :: s in catalog[1..] ==> s in catalog;
      assert forall s :: s in catalog ==> s == catalog[0] || s in catalog[1..];
      FindStage(catalog[1..], id)
  }

  function StageIds(catalog: seq<Stage>): (r: seq<string>)
    ensures |r| == |catalog| && forall j :: 0 <= j < |catalog| ==> r[j] == catalog[j].id
  {
    if catalog == [] then [] else StageIds(catalog[..|catalog| - 1]) + [catalog[|catalog| - 1].id]
  }
}
